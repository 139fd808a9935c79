/**
 * The five states of a promise, their ordinals, and the ordinal-to-state
 * lookup `valueOf` (PromiseState.kt).
 */
module PromiseStates {
  import opened Wrappers

  datatype PromiseState = Pending | Fulfilled | Rejected | RejectedOnCancel | Canceled

  /** `PromiseState.values()`: the states in their declared order. */
  const Values: seq<PromiseState> := [Pending, Fulfilled, Rejected, RejectedOnCancel, Canceled]

  /** The enum ordinal: the position of the state in the declaration. */
  function Ordinal(s: PromiseState): (n: nat)
    ensures n < |Values| && Values[n] == s
  {
    match s
    case Pending => 0
    case Fulfilled => 1
    case Rejected => 2
    case RejectedOnCancel => 3
    case Canceled => 4
  }

  /** Ordinals are distinct: no two states share one. */
  lemma OrdinalInjective(s: PromiseState, t: PromiseState)
    ensures Ordinal(s) == Ordinal(t) ==> s == t
  {
  }

  /**
   * `values().associateBy(PromiseState::ordinal)`: every state keyed by its
   * ordinal. The comprehension is well formed only because the key function
   * is injective.
   */
  function ByOrdinal(): (m: map<int, PromiseState>)
    ensures forall s :: s in Values ==> Ordinal(s) in m && m[Ordinal(s)] == s
    ensures forall n :: n in m ==> Ordinal(m[n]) == n
  {
    map s | s in Values :: Ordinal(s) := s
  }

  /** The map built by `associateBy` has exactly five entries, keyed 0 to 4. */
  lemma ByOrdinalShape()
    ensures ByOrdinal().Keys == {0, 1, 2, 3, 4}
    ensures |ByOrdinal()| == 5
  {
    var m := ByOrdinal();
    assert Ordinal(Pending) == 0 && Ordinal(Fulfilled) == 1 && Ordinal(Rejected) == 2;
    assert Ordinal(RejectedOnCancel) == 3 && Ordinal(Canceled) == 4;
    assert Values[0] in Values && Values[1] in Values && Values[2] in Values;
    assert Values[3] in Values && Values[4] in Values;
    assert m.Keys == {0, 1, 2, 3, 4};
  }

  /** `PromiseState.valueOf(Int)`: the state with that ordinal, or null. */
  function ValueOf(n: int): (r: Option<PromiseState>)
    ensures r.Some? <==> 0 <= n < |Values|
    ensures r.Some? ==> Ordinal(r.value) == n && Values[n] == r.value
  {
    var m := ByOrdinal();
    ByOrdinalShape();
    if n in m then Some(m[n]) else None
  }

  /** The round trip through the ordinal map gives back the state. */
  lemma ValueOfOrdinal(s: PromiseState)
    ensures ValueOf(Ordinal(s)) == Some(s)
  {
  }

  /** The inverse round trip: a valid ordinal maps to a state with that ordinal. */
  lemma OrdinalOfValueOf(n: int)
    requires 0 <= n < 5
    ensures ValueOf(n).Some? && Ordinal(ValueOf(n).value) == n
  {
  }
}
