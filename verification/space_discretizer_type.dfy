/** The space-discretization schemes of the finite-difference engine and their
    integer codes. */
module SpaceDiscretizerTypes {
  import opened Wrappers

  datatype SpaceDiscretizerType = Null | Centered | Upwind | LaxWendroff

  /** The integer code the engine gives a scheme. */
  function Ordinal(t: SpaceDiscretizerType): (n: int)
    ensures 0 <= n <= 3
    ensures n == 0 <==> t == Null
  {
    match t
    case Null => 0
    case Centered => 1
    case Upwind => 2
    case LaxWendroff => 3
  }

  /** The scheme a code names, or None for a code that names none. */
  function Decode(code: int): (r: Option<SpaceDiscretizerType>)
    ensures r.Some? <==> 0 <= code <= 3
    ensures r.Some? ==> Ordinal(r.value) == code
  {
    match code
    case 0 => Some(Null)
    case 1 => Some(Centered)
    case 2 => Some(Upwind)
    case 3 => Some(LaxWendroff)
    case _ => None
  }

  /** The code of every scheme, one by one. */
  lemma Codes()
    ensures Ordinal(Null) == 0
    ensures Ordinal(Centered) == 1
    ensures Ordinal(Upwind) == 2
    ensures Ordinal(LaxWendroff) == 3
  {
  }

  /** Decoding a scheme's code gives back that scheme, so codes are distinct. */
  lemma DecodeOrdinal(t: SpaceDiscretizerType)
    ensures Decode(Ordinal(t)) == Some(t)
    ensures forall u :: Ordinal(u) == Ordinal(t) ==> u == t
  {
  }
}
