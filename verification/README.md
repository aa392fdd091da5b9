# Finite-difference engine configuration vocabulary

This project models the configuration vocabulary of a GPU finite-difference engine for
advection-diffusion equations. The vocabulary is declared in `FiniteDifferenceTypes.h`:

- `SolverType`: the catalogue of time-integration schemes. Each scheme has an explicit
  integer code. The sentinels `__BEGIN__` (1) and `__END__` (13) bound a half-open
  iteration range over the codes.
- `getNumberOfSteps`: how many solution snapshots a scheme needs. This is the column
  count of the solution/history buffer.
- `SpaceDiscretizerType` and `BoundaryConditionType`: the space-stencil and
  boundary-condition enumerations.
- `BoundaryCondition`, `BoundaryCondition1D` and `BoundaryCondition2D`: boundary records
  with their defaulted constructors.
- `FiniteDifferenceInput1D` and `FiniteDifferenceInput2D`: the aggregates that describe
  one solve.

Modules, one per concept of the header:

- `Wrappers` (`wrappers.dfy`): `Option`, the result type of the decoders.
- `SolverTypes` (`solver_type.dfy`): the scheme catalogue, the iteration range and the
  history depth.
- `SpaceDiscretizerTypes` (`space_discretizer_type.dfy`): the space-stencil enumeration.
- `BoundaryConditions` (`boundary_condition.dfy`): the boundary-condition kinds and records.
- `FiniteDifferenceInputs` (`finite_difference_input.dfy`): the solve-input records.

Each enumeration is a datatype. `Ordinal` gives an enumerator's code. `Decode` maps an
integer back to an enumerator and returns `None` for a code that names none. A C++
`enum class` value may hold any integer of its underlying type, and `__END__` is such a
value. For that reason the switch in `getNumberOfSteps` is modelled twice:

- `NumberOfSteps` works on the named schemes.
- `NumberOfStepsOfCode` works on raw codes, and codes outside the named ones take the
  default branch.

The two sentinels are integer constants `Begin` and `End`, not datatype constructors.
`__BEGIN__` is only a second name for ExplicitEuler's code. `__END__` (13) is a raw code
that names no scheme, so `Decode(End)` is `None`.

The header derives `BoundaryCondition2D` from `BoundaryCondition1D`. Here that is
flattened into one four-field record. `AsBoundaryCondition1D` recovers the inherited
left/right part. The C++ field `type` is called `kind`, because `type` is a Dafny keyword.
C++ default arguments become Dafny default parameter values on the `Make…` constructor
functions.

The header spells the second Adams method `AdamsMouldon2`. The model keeps that spelling.

## Model

| member | source | states |
|---|---|---|
| SolverTypes.Ordinal | FiniteDifferenceTypes.h:11-41 | every scheme's code lies in 0..12, it is 0 exactly for Null, and it lies in the iteration range [1, 13) exactly for the other schemes |
| SolverTypes.Decode | FiniteDifferenceTypes.h:11-44 | a code names a scheme exactly when it lies in 0..12; the scheme it names has that code; the sentinel 13 names none |
| SolverTypes.DecodeOrdinal | FiniteDifferenceTypes.h:11-41 | decoding a scheme's code gives back that scheme |
| SolverTypes.OrdinalInjective | FiniteDifferenceTypes.h:11-41 | two schemes share a code exactly when they are the same scheme |
| SolverTypes.Codes | FiniteDifferenceTypes.h:13-41 | each scheme has exactly the code the header assigns it, Null 0 through AdamsMouldon2 12 |
| SolverTypes.SentinelCodes | FiniteDifferenceTypes.h:13-44 | `__BEGIN__` is ExplicitEuler's code, `__END__` names no scheme, and Null lies below the range |
| SolverTypes.NumberOfSteps | FiniteDifferenceTypes.h:47-57 | the history depth is always 1 or 2, and it is 2 exactly for AdamsBashforth2 and AdamsMouldon2 |
| SolverTypes.NumberOfStepsOfCode | FiniteDifferenceTypes.h:47-57 | on any raw enum value, including the sentinels and out-of-range values, the result is 1 or 2, and it is 2 exactly for codes 11 and 12 |
| SolverTypes.NumberOfStepsOfOrdinal | FiniteDifferenceTypes.h:47-57 | the raw-code switch and the per-scheme switch agree on every named scheme |
| SolverTypes.SingleStepSchemes | FiniteDifferenceTypes.h:54-55 | Null, the Euler and Crank-Nicolson schemes, every Runge-Kutta variant, Gauss-Legendre, both Richardson extrapolations and `__END__` all need one snapshot |
| SolverTypes.CodeRange | FiniteDifferenceTypes.h:43-44 | the schemes named by codes lo..hi-1 form a sequence of length hi-lo whose i-th element has code lo+i |
| SolverTypes.IteratedSolverTypes | FiniteDifferenceTypes.h:43-44 | the sequence an iteration from `__BEGIN__` up to, but excluding, `__END__` visits has 12 elements, and its i-th element has code 1+i |
| SolverTypes.IterationRange | FiniteDifferenceTypes.h:11-44 | iterating from `__BEGIN__` up to, but excluding, `__END__` visits 12 schemes. It starts at ExplicitEuler, visits every scheme except Null, and visits none twice |
| SolverTypes.MultiStepSchemesOf | FiniteDifferenceTypes.h:47-53 | in any sequence holding exactly the non-Null schemes, the schemes needing two snapshots are exactly the two Adams methods |
| SolverTypes.MultiStepSchemes | FiniteDifferenceTypes.h:47-53 | within the iteration range, exactly the two Adams methods need two snapshots |
| SolverTypes.VisitSolverTypes | FiniteDifferenceTypes.h:43-44 | a loop over the codes from `__BEGIN__` to `__END__` collects the reference iteration sequence, which holds every scheme except Null |
| SpaceDiscretizerTypes.Ordinal | FiniteDifferenceTypes.h:62-69 | every space scheme's code lies in 0..3 and is 0 exactly for Null |
| SpaceDiscretizerTypes.Decode | FiniteDifferenceTypes.h:62-69 | a code names a space scheme exactly when it lies in 0..3, and the scheme it names has that code |
| SpaceDiscretizerTypes.Codes | FiniteDifferenceTypes.h:64-68 | each space scheme has exactly the code the header assigns it: Null 0, Centered 1, Upwind 2, LaxWendroff 3 |
| SpaceDiscretizerTypes.DecodeOrdinal | FiniteDifferenceTypes.h:62-69 | decoding a space scheme's code gives it back, and no two space schemes share a code |
| BoundaryConditions.Ordinal | FiniteDifferenceTypes.h:71-78 | every boundary kind's code lies in 0..3 and is 0 exactly for Null |
| BoundaryConditions.Decode | FiniteDifferenceTypes.h:71-78 | a code names a boundary kind exactly when it lies in 0..3, and the kind it names has that code |
| BoundaryConditions.Codes | FiniteDifferenceTypes.h:73-77 | each boundary kind has exactly the code the header assigns it: Null 0, Dirichlet 1, Neumann 2, Periodic 3 |
| BoundaryConditions.DecodeOrdinal | FiniteDifferenceTypes.h:71-78 | decoding a boundary kind's code gives it back, and no two kinds share a code |
| BoundaryConditions.MakeBoundaryCondition | FiniteDifferenceTypes.h:85-88 | the constructor stores its kind and value arguments unchanged |
| BoundaryConditions.DefaultBoundaryCondition | FiniteDifferenceTypes.h:82-88 | a default-constructed condition is Neumann with value 0.0 |
| BoundaryConditions.BoundaryConditionFromFields | FiniteDifferenceTypes.h:80-88 | every condition is what the constructor builds from its own kind and value, so the constructor sets nothing else |
| BoundaryConditions.MakeBoundaryCondition1D | FiniteDifferenceTypes.h:100-106 | the 1-D constructor stores the left and right conditions unchanged |
| BoundaryConditions.AsBoundaryCondition1D | FiniteDifferenceTypes.h:115-122 | the inherited 1-D part of a 2-D record carries its left and right edges |
| BoundaryConditions.MakeBoundaryCondition2D | FiniteDifferenceTypes.h:118-124 | the 2-D constructor passes left and right to its 1-D part unchanged and stores down and up as given |
| BoundaryConditions.DefaultEdges | FiniteDifferenceTypes.h:100-124 | every edge of a default 1-D or 2-D record is the default Neumann/0 condition, and the 1-D part of a default 2-D record is a default 1-D record |
| BoundaryConditions.EdgesFromFields | FiniteDifferenceTypes.h:97-124 | every 1-D and 2-D record is what its constructor builds from its own edges |
| FiniteDifferenceInputs.MakeFiniteDifferenceInput1D | FiniteDifferenceTypes.h:170-186 | the 1-D input constructor copies each argument into the field of the same name |
| FiniteDifferenceInputs.Input1DFromFields | FiniteDifferenceTypes.h:133-186 | every 1-D input is what the constructor builds from its own fields, so the constructor sets nothing else |
| FiniteDifferenceInputs.MakeFiniteDifferenceInput2D | FiniteDifferenceTypes.h:240-259 | the 2-D input constructor copies each argument into the field of the same name |
| FiniteDifferenceInputs.Input2DFromFields | FiniteDifferenceTypes.h:195-259 | every 2-D input is what the constructor builds from its own fields, so the constructor sets nothing else |

## Left out

- `MemoryBuffer` is declared in `Types.h`, which is not part of this model. The input
  records take it as an opaque type parameter `Buffer`, because they only carry buffers.
  Allocation and memory-space tagging are not modelled.
- The `double` fields (the time step `dt` and a boundary condition's `value`) are modelled
  as `real`. The header only stores them, so the model does no floating-point reasoning.
  NaN and infinities are not represented.
- The underlying integer type of the enums (C++ `int`) is modelled as unbounded `int`
  wherever the model takes a raw code: the argument of `Decode` and of
  `NumberOfStepsOfCode`. The model never computes with codes beyond the 0..13 constants,
  so the width does not matter.
- The enum-typed record fields hold only named enumerators. These are `solverType` and
  `spaceDiscretizerType` of both input records, and `kind` of a boundary condition. The
  C++ fields can also hold `SolverType::__END__` or any other `int` cast to the enum.
  The model does not represent such values in a record; only `Decode` and
  `NumberOfStepsOfCode` accept them.
- The virtual destructors and the defaulted copy/move constructors and assignments are
  not modelled. Dafny datatypes are immutable values, so copying is equality.
- `Flags.cuh`, the `EXTERN_C` wrapper and host/device annotations are not modelled,
  because they are build and foreign-interface plumbing.
- The numerical kernels are not part of the header. These are the space stencil, the
  time-discretizer matrices, Butcher-tableau evaluation, boundary injection and the step
  iterator, and they are not modelled.
- The header does not enforce "periodic on one side only if periodic on both". So no
  constructor requires it.
