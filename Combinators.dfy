/**
 * The companion combinators `all` and `race` of Promise.kt.
 *
 * Each input promise reports at most one outcome to the combinator, through
 * the then-handler and catch-handler the combinator registers on it. The
 * outcomes arrive as a sequence of events, in completion order; an event
 * carries the position of its input. A fulfilment with a null value never
 * reaches the then-handler (`handle` throws on `value!!` first), so it
 * produces no event.
 */
module PromiseCombinators {
  import opened Wrappers
  import opened PromiseStates
  import opened PromiseSpec
  import opened PromiseCore

  /** The outcome of the input at position `index`, as its handlers see it. */
  datatype Event = Event(index: nat, outcome: Outcome)

  /** Where a combinator's result promise stands. */
  datatype Settlement = Unsettled | FulfilledWith(value: Value) | RejectedBy(error: Error)

  /** The state and stored value or error that a settlement shows on a promise. */
  predicate Exhibits(d: PromiseData<Promise>, s: Settlement) {
    match s
    case Unsettled => d.state == Pending
    case FulfilledWith(v) => d.state == Fulfilled && d.value == Some(v)
    case RejectedBy(e) => d.state == Rejected && d.error == Some(e)
  }

  /** Every event names one of the n inputs. */
  predicate Below(n: nat, events: seq<Event>) {
    forall j :: 0 <= j < |events| ==> events[j].index < n
  }

  /** Every event names one of the n inputs, and each input reports at most once. */
  predicate WellIndexed(n: nat, events: seq<Event>) {
    && Below(n, events)
    && forall j, k :: 0 <= j < k < |events| ==> events[j].index != events[k].index
  }

  /** Input i has reported. */
  predicate Reported(events: seq<Event>, i: nat) {
    exists j :: 0 <= j < |events| && events[j].index == i
  }

  /** The number of fulfilment events. */
  function SuccessCount(events: seq<Event>): (c: nat)
    ensures c <= |events|
  {
    if events == [] then 0
    else SuccessCount(events[..|events| - 1]) + (if events[|events| - 1].outcome.Success? then 1 else 0)
  }

  // ---------------------------------------------------------------------
  // Pigeonhole
  // ---------------------------------------------------------------------

  /** Distinct naturals below n number at most n. */
  lemma {:induction false} DistinctBelowBound(ix: seq<nat>, n: nat)
    requires forall j :: 0 <= j < |ix| ==> ix[j] < n
    requires forall j, k :: 0 <= j < k < |ix| ==> ix[j] != ix[k]
    ensures |ix| <= n
    decreases |ix|
  {
    if ix != [] {
      var m := ix[|ix| - 1];
      var rest := ix[..|ix| - 1];
      // close the gap left by m
      var packed := seq(|rest|, j requires 0 <= j < |rest| => if rest[j] > m then rest[j] - 1 else rest[j]);
      forall j, k | 0 <= j < k < |packed|
        ensures packed[j] != packed[k]
      {
        assert rest[j] != rest[k] && rest[j] != m && rest[k] != m;
      }
      forall j | 0 <= j < |packed|
        ensures packed[j] < n - 1
      {
        assert rest[j] != m;
      }
      DistinctBelowBound(packed, n - 1);
    }
  }

  /** The positions the events name. */
  function Positions(events: seq<Event>): (ix: seq<nat>)
    ensures |ix| == |events| && forall j :: 0 <= j < |events| ==> ix[j] == events[j].index
  {
    seq(|events|, j requires 0 <= j < |events| => events[j].index)
  }

  /** At most one event per input: there are no more events than inputs. */
  lemma EventsBound(n: nat, events: seq<Event>)
    requires WellIndexed(n, events)
    ensures |events| <= n
  {
    DistinctBelowBound(Positions(events), n);
  }

  /** Once each of the n inputs has reported, every position has its event. */
  lemma EventsCover(n: nat, events: seq<Event>, i: nat)
    requires WellIndexed(n, events) && |events| == n && i < n
    ensures Reported(events, i)
  {
    if forall j :: 0 <= j < |events| ==> events[j].index != i {
      var ix := Positions(events) + [i];
      DistinctBelowBound(ix, n);
      assert false;
    }
  }

  // ---------------------------------------------------------------------
  // all
  // ---------------------------------------------------------------------

  /** The local state of `all`: the result array, the counter, and the result promise. */
  datatype Tally = Tally(slots: seq<Value>, count: nat, outcome: Settlement)

  /**
   * One event, as the closures of `all` handle it: a fulfilment stores the
   * value in its slot, bumps the counter and resolves once the counter
   * equals the number of inputs; a rejection rejects. The result promise
   * ignores both once it has settled.
   */
  function AllStep(n: nat, t: Tally, e: Event): (r: Tally)
    requires e.index < |t.slots|
    ensures |r.slots| == |t.slots|
    ensures e.outcome.Success? ==> r.slots == t.slots[e.index := e.outcome.value] && r.count == t.count + 1
    ensures e.outcome.Failure? ==> r.slots == t.slots && r.count == t.count
    ensures t.outcome != Unsettled ==> r.outcome == t.outcome
    ensures t.outcome == Unsettled && e.outcome.Failure? ==> r.outcome == RejectedBy(e.outcome.error)
    ensures t.outcome == Unsettled && e.outcome.Success? ==>
      r.outcome == (if t.count + 1 == n then FulfilledWith(Items(r.slots)) else Unsettled)
  {
    match e.outcome
    case Success(v) =>
      var slots := t.slots[e.index := v];
      var c := t.count + 1;
      Tally(slots, c, if c == n && t.outcome.Unsettled? then FulfilledWith(Items(slots)) else t.outcome)
    case Failure(err) =>
      t.(outcome := if t.outcome.Unsettled? then RejectedBy(err) else t.outcome)
  }

  /** The local state of `all` after the given events; the array starts filled with Unit. */
  function AllFold(n: nat, events: seq<Event>): (t: Tally)
    requires Below(n, events)
    ensures |t.slots| == n
  {
    if events == [] then Tally(seq(n, _ => Unit), 0, Unsettled)
    else AllStep(n, AllFold(n, events[..|events| - 1]), events[|events| - 1])
  }

  /** Where `all`, as written, leaves its result promise after the given events. */
  function AllSettlementAsWritten(n: nat, events: seq<Event>): Settlement
    requires Below(n, events)
  {
    AllFold(n, events).outcome
  }

  /** Where `all`, corrected to fulfil at once on no inputs, leaves its result promise. */
  function AllSettlement(n: nat, events: seq<Event>): Settlement
    requires Below(n, events)
  {
    if n == 0 then FulfilledWith(Items([])) else AllSettlementAsWritten(n, events)
  }

  /** The counter counts the fulfilments. */
  lemma {:induction false} AllCounts(n: nat, events: seq<Event>)
    requires Below(n, events)
    ensures AllFold(n, events).count == SuccessCount(events)
    decreases |events|
  {
    if events != [] {
      AllCounts(n, events[..|events| - 1]);
    }
  }

  /**
   * The result is fulfilled only once the counter has reached n, and with
   * the array as it stood then: while the count is still n, it is the
   * current array.
   */
  lemma {:induction false} AllFulfilsAtCount(n: nat, events: seq<Event>)
    requires Below(n, events)
    ensures var t := AllFold(n, events);
      t.outcome.FulfilledWith? ==> t.count >= n && (t.count == n ==> t.outcome.value == Items(t.slots))
    decreases |events|
  {
    if events != [] {
      AllFulfilsAtCount(n, events[..|events| - 1]);
    }
  }

  /** Slot i of the array holds the value of the fulfilment of input i. */
  lemma {:induction false} AllSlots(n: nat, events: seq<Event>)
    requires WellIndexed(n, events)
    ensures forall j :: 0 <= j < |events| && events[j].outcome.Success? ==>
      AllFold(n, events).slots[events[j].index] == events[j].outcome.value
    decreases |events|
  {
    if events != [] {
      var init := events[..|events| - 1];
      assert WellIndexed(n, init);
      AllSlots(n, init);
    }
  }

  /** A settled result promise stays as it is, whatever events follow. */
  lemma {:induction false} AllSettledStays(n: nat, events: seq<Event>, k: nat)
    requires Below(n, events) && k <= |events|
    requires AllFold(n, events[..k]).outcome != Unsettled
    ensures AllFold(n, events).outcome == AllFold(n, events[..k]).outcome
    decreases |events|
  {
    if k < |events| {
      var init := events[..|events| - 1];
      assert init[..k] == events[..k];
      AllSettledStays(n, init, k);
    } else {
      assert events[..k] == events;
    }
  }

  /** Fulfilments alone, fewer than n of them, leave the result Pending. */
  lemma {:induction false} AllUnsettledBelow(n: nat, events: seq<Event>)
    requires Below(n, events)
    requires forall j :: 0 <= j < |events| ==> events[j].outcome.Success?
    requires |events| < n
    ensures AllFold(n, events).outcome == Unsettled && AllFold(n, events).count == |events|
    decreases |events|
  {
    if events != [] {
      AllUnsettledBelow(n, events[..|events| - 1]);
    }
  }

  /** When every event is a fulfilment, their count is the number of events. */
  lemma {:induction false} AllSuccessCountFull(events: seq<Event>)
    requires SuccessCount(events) == |events|
    ensures forall j :: 0 <= j < |events| ==> events[j].outcome.Success?
    decreases |events|
  {
    if events != [] {
      AllSuccessCountFull(events[..|events| - 1]);
    }
  }

  /**
   * Input order: a fulfilled result holds n values, every input has been
   * fulfilled, and slot i holds the value of input i, whatever order the
   * inputs completed in.
   */
  lemma AllInputOrder(n: nat, events: seq<Event>)
    requires WellIndexed(n, events)
    ensures var s := AllSettlementAsWritten(n, events);
      s.FulfilledWith? ==>
        && |events| == n
        && s.value.Items? && |s.value.elems| == n
        && (forall j :: 0 <= j < |events| ==> events[j].outcome.Success?)
        && (forall j :: 0 <= j < |events| ==> s.value.elems[events[j].index] == events[j].outcome.value)
        && (forall i :: 0 <= i < n ==> Reported(events, i))
  {
    var s := AllSettlementAsWritten(n, events);
    if s.FulfilledWith? {
      AllFulfilsAtCount(n, events);
      AllCounts(n, events);
      EventsBound(n, events);
      AllSuccessCountFull(events);
      AllSlots(n, events);
      forall i | 0 <= i < n
        ensures Reported(events, i)
      {
        EventsCover(n, events, i);
      }
    }
  }

  /**
   * The first rejection wins: when the inputs reporting before it were all
   * fulfilled, the result is rejected with its error.
   */
  lemma AllFirstRejectionWins(n: nat, events: seq<Event>, k: nat)
    requires WellIndexed(n, events) && k < |events|
    requires events[k].outcome.Failure?
    requires forall j :: 0 <= j < k ==> events[j].outcome.Success?
    ensures AllSettlementAsWritten(n, events) == RejectedBy(events[k].outcome.error)
  {
    assert WellIndexed(n, events[..k + 1]);
    EventsBound(n, events[..k + 1]);
    AllUnsettledBelow(n, events[..k]);
    assert events[..k + 1][..k] == events[..k];
    AllSettledStays(n, events, k + 1);
  }

  /** With at least one input, all inputs fulfilled fulfil the result, in input order. */
  lemma AllFulfilsWhenEveryInputDoes(n: nat, events: seq<Event>)
    requires WellIndexed(n, events) && n > 0 && |events| == n
    requires forall j :: 0 <= j < |events| ==> events[j].outcome.Success?
    ensures AllSettlementAsWritten(n, events).FulfilledWith?
  {
    var init := events[..n - 1];
    AllUnsettledBelow(n, init);
  }

  /** As written, `all` of no promises has every input fulfilled yet never settles. */
  lemma AllEmptyNeverSettles(events: seq<Event>)
    requires WellIndexed(0, events)
    ensures forall j :: 0 <= j < |events| ==> events[j].outcome.Success?
    ensures AllSettlementAsWritten(0, events) == Unsettled
  {
    EventsBound(0, events);
  }

  /** Corrected: all inputs fulfilled fulfil the result, for any number of inputs. */
  lemma AllFulfilsCorrected(n: nat, events: seq<Event>)
    requires WellIndexed(n, events) && |events| == n
    requires forall j :: 0 <= j < |events| ==> events[j].outcome.Success?
    ensures AllSettlement(n, events).FulfilledWith?
    ensures n == 0 ==> AllSettlement(n, events) == FulfilledWith(Items([]))
  {
    if n > 0 {
      AllFulfilsWhenEveryInputDoes(n, events);
    }
  }

  /**
   * `all(promises)` as written, over n inputs reporting the given events: a
   * root promise, an array of n slots filled with Unit, and a counter.
   */
  method AllAsWritten(n: nat, events: seq<Event>) returns (p: Promise)
    requires WellIndexed(n, events)
    ensures fresh(p) && p.Valid() && Exhibits(p.Data(), AllSettlementAsWritten(n, events))
  {
    p := new Promise.Root();
    var result := new Value[n](_ => Unit);
    var count := 0;
    for k := 0 to |events|
      invariant p.Valid() && p.handlers == []
      invariant result[..] == AllFold(n, events[..k]).slots
      invariant count == AllFold(n, events[..k]).count
      invariant Exhibits(p.Data(), AllFold(n, events[..k]).outcome)
    {
      assert events[..k + 1][..k] == events[..k];
      var e := events[k];
      match e.outcome {
        case Success(v) =>
          result[e.index] := v;
          count := count + 1;
          if count == n {
            p.Resolve(Some(Items(result[..])));
          }
        case Failure(err) =>
          p.Reject(err);
      }
    }
    assert events[..|events|] == events;
  }

  /** `all(promises)` with the empty case fixed: no inputs fulfil the result with no values. */
  method All(n: nat, events: seq<Event>) returns (p: Promise)
    requires WellIndexed(n, events)
    ensures fresh(p) && p.Valid() && Exhibits(p.Data(), AllSettlement(n, events))
  {
    if n == 0 {
      p := new Promise.Root();
      p.Resolve(Some(Items([])));
    } else {
      p := AllAsWritten(n, events);
    }
  }

  // ---------------------------------------------------------------------
  // race
  // ---------------------------------------------------------------------

  /** What one outcome does to a Pending result promise. */
  function Settle(o: Outcome): Settlement {
    match o
    case Success(v) => FulfilledWith(v)
    case Failure(e) => RejectedBy(e)
  }

  /** `race`: the first outcome to arrive decides the result. */
  function RaceSettlement(events: seq<Outcome>): (s: Settlement)
    ensures s == Unsettled <==> events == []
    ensures events != [] && events[0].Success? ==> s == FulfilledWith(events[0].value)
    ensures events != [] && events[0].Failure? ==> s == RejectedBy(events[0].error)
  {
    if events == [] then Unsettled else Settle(events[0])
  }

  /** Outcomes arriving after the first are discarded. */
  lemma RaceIgnoresLater(events: seq<Outcome>, later: seq<Outcome>)
    requires events != []
    ensures RaceSettlement(events + later) == RaceSettlement(events)
  {
    assert (events + later)[0] == events[0];
  }

  /**
   * `race(promises)` over the outcomes reported by its inputs, in arrival
   * order: a root promise and a flag read and set by get-then-set.
   */
  method Race(events: seq<Outcome>) returns (p: Promise)
    ensures fresh(p) && p.Valid() && Exhibits(p.Data(), RaceSettlement(events))
  {
    p := new Promise.Root();
    var send := false;
    for k := 0 to |events|
      invariant p.Valid() && p.handlers == []
      invariant send <==> k > 0
      invariant Exhibits(p.Data(), RaceSettlement(events[..k]))
    {
      if k > 0 {
        RaceIgnoresLater(events[..k], [events[k]]);
        assert events[..k + 1] == events[..k] + [events[k]];
      }
      var sent := send;
      send := true;
      if !sent {
        match events[k] {
          case Success(v) => p.Resolve(Some(v));
          case Failure(e) => p.Reject(e);
        }
      }
    }
    assert events[..|events|] == events;
  }
}
