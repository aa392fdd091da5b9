/** Boundary-condition kinds and the per-edge boundary-condition records of
    the finite-difference engine, with the defaults their constructors supply. */
module BoundaryConditions {
  import opened Wrappers

  datatype BoundaryConditionType = Null | Dirichlet | Neumann | Periodic

  /** The integer code the engine gives a kind. */
  function Ordinal(t: BoundaryConditionType): (n: int)
    ensures 0 <= n <= 3
    ensures n == 0 <==> t == Null
  {
    match t
    case Null => 0
    case Dirichlet => 1
    case Neumann => 2
    case Periodic => 3
  }

  /** The kind a code names, or None for a code that names none. */
  function Decode(code: int): (r: Option<BoundaryConditionType>)
    ensures r.Some? <==> 0 <= code <= 3
    ensures r.Some? ==> Ordinal(r.value) == code
  {
    match code
    case 0 => Some(Null)
    case 1 => Some(Dirichlet)
    case 2 => Some(Neumann)
    case 3 => Some(Periodic)
    case _ => None
  }

  /** The code of every kind, one by one. */
  lemma Codes()
    ensures Ordinal(Null) == 0
    ensures Ordinal(Dirichlet) == 1
    ensures Ordinal(Neumann) == 2
    ensures Ordinal(Periodic) == 3
  {
  }

  /** Decoding a kind's code gives back that kind, so codes are distinct. */
  lemma DecodeOrdinal(t: BoundaryConditionType)
    ensures Decode(Ordinal(t)) == Some(t)
    ensures forall u :: Ordinal(u) == Ordinal(t) ==> u == t
  {
  }

  /** A kind paired with its value (a Dirichlet level or a Neumann flux).
      The value is a double in the engine; it is only stored here. */
  datatype BoundaryCondition = BoundaryCondition(kind: BoundaryConditionType, value: real)

  /** The constructor, with its default arguments. */
  function MakeBoundaryCondition(kind: BoundaryConditionType := Neumann, value: real := 0.0)
    : (bc: BoundaryCondition)
    ensures bc.kind == kind && bc.value == value
  {
    BoundaryCondition(kind, value)
  }

  /** The default condition is a zero-flux Neumann condition. */
  lemma DefaultBoundaryCondition()
    ensures MakeBoundaryCondition().kind == Neumann
    ensures MakeBoundaryCondition().value == 0.0
  {
  }

  /** Every condition is what the constructor builds from its own fields:
      the constructor sets nothing else. */
  lemma BoundaryConditionFromFields(bc: BoundaryCondition)
    ensures MakeBoundaryCondition(bc.kind, bc.value) == bc
  {
  }

  /** Conditions on the left and right ends of a 1-D grid. */
  datatype BoundaryCondition1D = BoundaryCondition1D(left: BoundaryCondition, right: BoundaryCondition)

  /** The constructor, each edge defaulting to the default condition. */
  function MakeBoundaryCondition1D(
    left: BoundaryCondition := MakeBoundaryCondition(),
    right: BoundaryCondition := MakeBoundaryCondition()): (r: BoundaryCondition1D)
    ensures r.left == left && r.right == right
  {
    BoundaryCondition1D(left, right)
  }

  /** Conditions on the four edges of a 2-D grid. The engine derives this
      record from the 1-D one, adding the down and up edges; here the
      inheritance is flattened and the 1-D part is recovered on demand. */
  datatype BoundaryCondition2D = BoundaryCondition2D(
    left: BoundaryCondition,
    right: BoundaryCondition,
    down: BoundaryCondition,
    up: BoundaryCondition)

  /** The inherited 1-D part of a 2-D record: its left and right edges. */
  function AsBoundaryCondition1D(b: BoundaryCondition2D): (r: BoundaryCondition1D)
    ensures r.left == b.left && r.right == b.right
  {
    BoundaryCondition1D(b.left, b.right)
  }

  /** The constructor: left and right go to the 1-D part unchanged, down and
      up are stored as given, each edge defaulting to the default condition. */
  function MakeBoundaryCondition2D(
    left: BoundaryCondition := MakeBoundaryCondition(),
    right: BoundaryCondition := MakeBoundaryCondition(),
    down: BoundaryCondition := MakeBoundaryCondition(),
    up: BoundaryCondition := MakeBoundaryCondition()): (r: BoundaryCondition2D)
    ensures AsBoundaryCondition1D(r) == MakeBoundaryCondition1D(left, right)
    ensures r.down == down && r.up == up
  {
    BoundaryCondition2D(left, right, down, up)
  }

  /** Every edge of a default-constructed 1-D or 2-D record is the default
      zero-flux Neumann condition. */
  lemma DefaultEdges()
    ensures var b := MakeBoundaryCondition1D();
      b.left == b.right == MakeBoundaryCondition()
    ensures var b := MakeBoundaryCondition2D();
      b.left == b.right == b.down == b.up == MakeBoundaryCondition()
    ensures AsBoundaryCondition1D(MakeBoundaryCondition2D()) == MakeBoundaryCondition1D()
  {
  }

  /** Every 1-D and 2-D record is what its constructor builds from its own
      fields: the constructors set nothing else. */
  lemma EdgesFromFields(b1: BoundaryCondition1D, b2: BoundaryCondition2D)
    ensures MakeBoundaryCondition1D(b1.left, b1.right) == b1
    ensures MakeBoundaryCondition2D(b2.left, b2.right, b2.down, b2.up) == b2
  {
  }
}
