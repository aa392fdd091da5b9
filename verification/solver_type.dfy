/** The time-integration schemes of the finite-difference engine: their integer
    codes, the half-open code range [Begin, End) used to iterate over them, and
    the number of solution snapshots (history columns) each scheme needs. */
module SolverTypes {
  import opened Wrappers

  /** One constructor per named scheme, declared in code order. */
  datatype SolverType =
    | Null
      // single-step
    | ExplicitEuler
    | ImplicitEuler
    | CrankNicolson
      // Runge-Kutta
    | RungeKuttaRalston
    | RungeKutta3
    | RungeKutta4
    | RungeKuttaThreeEight
    | RungeKuttaGaussLegendre4
      // Richardson extrapolation
    | RichardsonExtrapolation2
    | RichardsonExtrapolation3
      // multi-step
    | AdamsBashforth2
    | AdamsMouldon2

  /** First code of the iteration range; an alias of ExplicitEuler's code. */
  const Begin: int := 1

  /** One past the last code of the iteration range; it names no scheme. */
  const End: int := 13

  /** The integer code the engine gives a scheme. */
  function Ordinal(s: SolverType): (n: int)
    ensures 0 <= n < End
    ensures n == 0 <==> s == Null
    ensures Begin <= n <==> s != Null
  {
    match s
    case Null => 0
    case ExplicitEuler => 1
    case ImplicitEuler => 2
    case CrankNicolson => 3
    case RungeKuttaRalston => 4
    case RungeKutta3 => 5
    case RungeKutta4 => 6
    case RungeKuttaThreeEight => 7
    case RungeKuttaGaussLegendre4 => 8
    case RichardsonExtrapolation2 => 9
    case RichardsonExtrapolation3 => 10
    case AdamsBashforth2 => 11
    case AdamsMouldon2 => 12
  }

  /** The scheme a code names, or None for a code that names none
      (the sentinel End among them). */
  function Decode(code: int): (r: Option<SolverType>)
    ensures r.Some? <==> 0 <= code < End
    ensures r.Some? ==> Ordinal(r.value) == code
  {
    match code
    case 0 => Some(Null)
    case 1 => Some(ExplicitEuler)
    case 2 => Some(ImplicitEuler)
    case 3 => Some(CrankNicolson)
    case 4 => Some(RungeKuttaRalston)
    case 5 => Some(RungeKutta3)
    case 6 => Some(RungeKutta4)
    case 7 => Some(RungeKuttaThreeEight)
    case 8 => Some(RungeKuttaGaussLegendre4)
    case 9 => Some(RichardsonExtrapolation2)
    case 10 => Some(RichardsonExtrapolation3)
    case 11 => Some(AdamsBashforth2)
    case 12 => Some(AdamsMouldon2)
    case _ => None
  }

  /** Decoding a scheme's code gives back that scheme. */
  lemma DecodeOrdinal(s: SolverType)
    ensures Decode(Ordinal(s)) == Some(s)
  {
  }

  /** Distinct schemes have distinct codes. */
  lemma OrdinalInjective(a: SolverType, b: SolverType)
    ensures Ordinal(a) == Ordinal(b) <==> a == b
  {
  }

  /** The code of every scheme, one by one, as the engine's callers pass it. */
  lemma Codes()
    ensures Ordinal(Null) == 0
    ensures Ordinal(ExplicitEuler) == 1
    ensures Ordinal(ImplicitEuler) == 2
    ensures Ordinal(CrankNicolson) == 3
    ensures Ordinal(RungeKuttaRalston) == 4
    ensures Ordinal(RungeKutta3) == 5
    ensures Ordinal(RungeKutta4) == 6
    ensures Ordinal(RungeKuttaThreeEight) == 7
    ensures Ordinal(RungeKuttaGaussLegendre4) == 8
    ensures Ordinal(RichardsonExtrapolation2) == 9
    ensures Ordinal(RichardsonExtrapolation3) == 10
    ensures Ordinal(AdamsBashforth2) == 11
    ensures Ordinal(AdamsMouldon2) == 12
  {
  }

  /** Begin shares its code with ExplicitEuler, End names no scheme, and Null
      lies below the range. */
  lemma SentinelCodes()
    ensures Decode(Begin) == Some(ExplicitEuler)
    ensures Decode(End) == None
    ensures Ordinal(Null) < Begin
  {
  }

  /** Number of solution snapshots a scheme reads per step: two for the
      multi-step Adams methods, one for every other scheme. */
  function NumberOfSteps(s: SolverType): (n: nat)
    ensures n == 1 || n == 2
    ensures n == 2 <==> s == AdamsBashforth2 || s == AdamsMouldon2
  {
    match s
    case AdamsBashforth2 | AdamsMouldon2 => 2
    case _ => 1
  }

  /** The same switch applied to a raw enum value: any code outside the named
      ones (End, say) falls into the default branch. */
  function NumberOfStepsOfCode(code: int): (n: nat)
    ensures n == 1 || n == 2
    ensures n == 2 <==> code == 11 || code == 12
  {
    match Decode(code)
    case Some(s) => NumberOfSteps(s)
    case None => 1
  }

  /** The two views of the switch agree on every named scheme. */
  lemma NumberOfStepsOfOrdinal(s: SolverType)
    ensures NumberOfStepsOfCode(Ordinal(s)) == NumberOfSteps(s)
  {
  }

  /** The single-step schemes, listed one by one. */
  lemma SingleStepSchemes()
    ensures NumberOfSteps(Null) == 1
    ensures NumberOfSteps(ExplicitEuler) == 1
    ensures NumberOfSteps(ImplicitEuler) == 1
    ensures NumberOfSteps(CrankNicolson) == 1
    ensures NumberOfSteps(RungeKuttaRalston) == 1
    ensures NumberOfSteps(RungeKutta3) == 1
    ensures NumberOfSteps(RungeKutta4) == 1
    ensures NumberOfSteps(RungeKuttaThreeEight) == 1
    ensures NumberOfSteps(RungeKuttaGaussLegendre4) == 1
    ensures NumberOfSteps(RichardsonExtrapolation2) == 1
    ensures NumberOfSteps(RichardsonExtrapolation3) == 1
    ensures NumberOfStepsOfCode(End) == 1
  {
  }

  /** The schemes whose codes are lo, lo + 1, ..., hi - 1, in that order. */
  function CodeRange(lo: int, hi: int): (r: seq<SolverType>)
    requires 0 <= lo <= hi <= End
    ensures |r| == hi - lo
    ensures forall i :: 0 <= i < |r| ==> Ordinal(r[i]) == lo + i
    decreases hi - lo
  {
    if lo == hi then [] else [Decode(lo).value] + CodeRange(lo + 1, hi)
  }

  /** The schemes an iteration from Begin up to, but excluding, End visits. */
  function IteratedSolverTypes(): (r: seq<SolverType>)
    ensures |r| == End - Begin
    ensures forall i :: 0 <= i < |r| ==> Ordinal(r[i]) == Begin + i
  {
    CodeRange(Begin, End)
  }

  /** Two scheme sequences with the same code at every index are equal. */
  lemma SameCodesSameSchemes(a: seq<SolverType>, b: seq<SolverType>)
    requires |a| == |b|
    requires forall i :: 0 <= i < |a| ==> Ordinal(a[i]) == Ordinal(b[i])
    ensures a == b
  {
  }

  /** The iteration range visits the twelve schemes other than Null, each
      exactly once, starting at ExplicitEuler. */
  lemma IterationRange()
    ensures |IteratedSolverTypes()| == End - Begin == 12
    ensures IteratedSolverTypes()[0] == ExplicitEuler
    ensures forall s :: s in IteratedSolverTypes() <==> s != Null
    ensures forall i, j ::
              0 <= i < j < |IteratedSolverTypes()| ==> IteratedSolverTypes()[i] != IteratedSolverTypes()[j]
  {
  }

  /** In any sequence holding exactly the schemes other than Null, the ones
      needing two snapshots are the two Adams methods. */
  lemma MultiStepSchemesOf(r: seq<SolverType>)
    requires forall s :: s in r <==> s != Null
    ensures (set s | s in r && NumberOfSteps(s) == 2) == {AdamsBashforth2, AdamsMouldon2}
  {
    var multi := set s | s in r && NumberOfSteps(s) == 2;
    assert AdamsBashforth2 in r && AdamsMouldon2 in r;
    assert forall s :: s in multi <==> s == AdamsBashforth2 || s == AdamsMouldon2;
  }

  /** Exactly the two Adams methods in the iteration range need two snapshots. */
  lemma MultiStepSchemes()
    ensures (set s | s in IteratedSolverTypes() && NumberOfSteps(s) == 2)
            == {AdamsBashforth2, AdamsMouldon2}
  {
    IterationRange();
    MultiStepSchemesOf(IteratedSolverTypes());
  }

  /** Walks the codes from Begin up to, but excluding, End and collects the
      scheme each one names. */
  method VisitSolverTypes() returns (visited: seq<SolverType>)
    ensures visited == IteratedSolverTypes()
    ensures forall s :: s in visited <==> s != Null
  {
    visited := [];
    var code := Begin;
    while code < End
      invariant Begin <= code <= End
      invariant |visited| == code - Begin
      invariant forall i :: 0 <= i < |visited| ==> Ordinal(visited[i]) == Begin + i
      decreases End - code
    {
      var s := Decode(code).value;
      visited := visited + [s];
      code := code + 1;
    }
    SameCodesSameSchemes(visited, IteratedSolverTypes());
    IterationRange();
  }
}
