/** The records a caller hands to the finite-difference engine to describe one
    1-D or 2-D solve. Device buffers are an opaque type parameter: the records
    only carry them. The time step is a double in the engine and is only
    stored here. */
module FiniteDifferenceInputs {
  import SolverTypes
  import SpaceDiscretizerTypes
  import BoundaryConditions

  /** Time step, grid, advection and diffusion coefficients, schemes and
      left/right boundary conditions of a 1-D solve. */
  datatype FiniteDifferenceInput1D<Buffer> = FiniteDifferenceInput1D(
    dt: real,
    grid: Buffer,
    velocity: Buffer,
    diffusion: Buffer,
    solverType: SolverTypes.SolverType,
    spaceDiscretizerType: SpaceDiscretizerTypes.SpaceDiscretizerType,
    boundaryConditions: BoundaryConditions.BoundaryCondition1D)

  /** The constructor: each argument lands in the field of the same name. */
  function MakeFiniteDifferenceInput1D<Buffer>(
    dt: real,
    grid: Buffer,
    velocity: Buffer,
    diffusion: Buffer,
    solverType: SolverTypes.SolverType,
    spaceDiscretizerType: SpaceDiscretizerTypes.SpaceDiscretizerType,
    boundaryConditions: BoundaryConditions.BoundaryCondition1D): (r: FiniteDifferenceInput1D<Buffer>)
    ensures r.dt == dt
    ensures r.grid == grid && r.velocity == velocity && r.diffusion == diffusion
    ensures r.solverType == solverType && r.spaceDiscretizerType == spaceDiscretizerType
    ensures r.boundaryConditions == boundaryConditions
  {
    FiniteDifferenceInput1D(dt, grid, velocity, diffusion, solverType, spaceDiscretizerType, boundaryConditions)
  }

  /** Every 1-D input is what the constructor builds from its own fields:
      the constructor sets nothing else. */
  lemma Input1DFromFields<Buffer>(x: FiniteDifferenceInput1D<Buffer>)
    ensures MakeFiniteDifferenceInput1D(
              x.dt, x.grid, x.velocity, x.diffusion,
              x.solverType, x.spaceDiscretizerType, x.boundaryConditions) == x
  {
  }

  /** Time step, x and y grids, x and y advection coefficients, diffusion
      coefficient, schemes and four-edge boundary conditions of a 2-D solve. */
  datatype FiniteDifferenceInput2D<Buffer> = FiniteDifferenceInput2D(
    dt: real,
    xGrid: Buffer,
    yGrid: Buffer,
    xVelocity: Buffer,
    yVelocity: Buffer,
    diffusion: Buffer,
    solverType: SolverTypes.SolverType,
    spaceDiscretizerType: SpaceDiscretizerTypes.SpaceDiscretizerType,
    boundaryConditions: BoundaryConditions.BoundaryCondition2D)

  /** The constructor: each argument lands in the field of the same name. */
  function MakeFiniteDifferenceInput2D<Buffer>(
    dt: real,
    xGrid: Buffer,
    yGrid: Buffer,
    xVelocity: Buffer,
    yVelocity: Buffer,
    diffusion: Buffer,
    solverType: SolverTypes.SolverType,
    spaceDiscretizerType: SpaceDiscretizerTypes.SpaceDiscretizerType,
    boundaryConditions: BoundaryConditions.BoundaryCondition2D): (r: FiniteDifferenceInput2D<Buffer>)
    ensures r.dt == dt
    ensures r.xGrid == xGrid && r.yGrid == yGrid
    ensures r.xVelocity == xVelocity && r.yVelocity == yVelocity && r.diffusion == diffusion
    ensures r.solverType == solverType && r.spaceDiscretizerType == spaceDiscretizerType
    ensures r.boundaryConditions == boundaryConditions
  {
    FiniteDifferenceInput2D(dt, xGrid, yGrid, xVelocity, yVelocity, diffusion,
                            solverType, spaceDiscretizerType, boundaryConditions)
  }

  /** Every 2-D input is what the constructor builds from its own fields:
      the constructor sets nothing else. */
  lemma Input2DFromFields<Buffer>(x: FiniteDifferenceInput2D<Buffer>)
    ensures MakeFiniteDifferenceInput2D(
              x.dt, x.xGrid, x.yGrid, x.xVelocity, x.yVelocity, x.diffusion,
              x.solverType, x.spaceDiscretizerType, x.boundaryConditions) == x
  {
  }
}
