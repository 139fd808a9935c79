/**
 * The pure state machine of one promise (Promise.kt, class Promise).
 *
 * A promise's mutable fields are gathered in a PromiseData value, and each
 * operation of the class is a step function on it. The class in
 * PromiseCore is proved to perform exactly these steps; the lemmas here
 * state what the steps promise: settlement at most once, the queue
 * discipline, and when an uncaught error is reported.
 *
 * The type parameter T stands for the promises that handlers settle (the
 * class Promise in PromiseCore); nothing here looks inside it.
 */
module PromiseSpec {
  import opened Wrappers
  import opened PromiseStates

  /** An abstract value a promise may be fulfilled with; Items models `Array<Any>`. */
  datatype Value = Unit | Atom(tag: nat) | Items(elems: seq<Value>)

  /** An abstract Throwable. Interrupted is the InterruptedException a cancel raises. */
  datatype Error = Interrupted | Thrown(tag: nat)

  /** The code a `then` runs: user code, or thenChain's `{ outer.resolve(it) }`. */
  datatype ThenCode<T> = UserThen(action: nat) | ResolveOuter(outer: T)

  /** The code a `catch` runs: user code, or thenChain's `{ outer.reject(it) }`. */
  datatype CatchCode<T> = UserCatch(action: nat) | RejectOuter(outer: T)

  /** Which derivation operator registered a handler, with the code it was given. */
  datatype Derivation<T> =
    | ThenOp(thenCode: ThenCode<T>)
    | ThenChainOp(chainAction: nat)
    | CatchOp(catchCode: CatchCode<T>)

  /**
   * `PromiseHandler(thenAction, failHandler)`: the closures a derivation
   * operator registers, as the operator that built them and the derived
   * promise they settle. Every operator passes a failHandler; only `catch`
   * passes no thenAction.
   */
  datatype Handler<T> = Handler(kind: Derivation<T>, target: T) {
    predicate HasThenAction() { !kind.CatchOp? }
  }

  /** What a handler is called with: the stored value or the stored error. */
  datatype Outcome = Success(value: Value) | Failure(error: Error)

  /** One invocation of a handler's closure, as recorded by `handle`. */
  datatype Call<T> = Call(handler: Handler<T>, outcome: Outcome)

  /** The `Future` of a promise built with a body; only such root promises have one. */
  datatype FutureStatus = NoFuture | Submitted(done: bool, cancelled: bool)

  /**
   * The mutable fields of one promise. `dispatched` is the log of handler
   * invocations; `uncaughtPending` is true while the uncaught-error check
   * submitted by `reject` has not run; `timeouts` holds the throwError flag
   * of every timeout check submitted and not yet run.
   */
  datatype PromiseData<T> = PromiseData(
    state: PromiseState,
    value: Option<Value>,
    error: Option<Error>,
    handlers: seq<Handler<T>>,
    dispatched: seq<Call<T>>,
    shouldThrowErrorOnCancel: bool,
    shouldThrowUncaughtError: bool,
    errorCatched: bool,
    uncaughtPending: bool,
    future: FutureStatus,
    timeouts: seq<bool>)

  /** A freshly constructed promise: Pending, nothing stored, nothing queued. */
  function Fresh<T>(future: FutureStatus): (d: PromiseData<T>)
    ensures Wf(d) && d.state == Pending && d.handlers == []
  {
    PromiseData(Pending, None, None, [], [], false, true, false, false, future, [])
  }

  /** The field invariants that hold at every point, even while handlers are dispatched. */
  predicate Consistent<T>(d: PromiseData<T>) {
    && (d.error.Some? <==> d.state == Rejected || d.state == RejectedOnCancel)
    && (d.value.Some? ==> d.state == Fulfilled)
    && (d.state == RejectedOnCancel ==> d.shouldThrowErrorOnCancel)
    && (d.errorCatched ==> d.error.Some?)
    && (d.uncaughtPending ==> d.error.Some?)
  }

  /**
   * The handler queue holds entries only while Pending or Canceled: a settling
   * transition empties it, and cancel leaves it in place for a later reject.
   */
  predicate QueueHeld<T>(d: PromiseData<T>) {
    d.handlers != [] ==> d.state == Pending || d.state == Canceled
  }

  predicate Wf<T>(d: PromiseData<T>) {
    Consistent(d) && QueueHeld(d)
  }

  /**
   * The state diagram, closed under composition: nothing returns to Pending,
   * Fulfilled, Rejected and RejectedOnCancel are final, and Canceled can only
   * move on to RejectedOnCancel.
   */
  predicate MayFollow(a: PromiseState, b: PromiseState) {
    a == b || a == Pending || (a == Canceled && b == RejectedOnCancel)
  }

  /** Whether `handle` runs a closure of h for outcome o. */
  predicate Reacts<T>(h: Handler<T>, o: Outcome) {
    o.Success? ==> h.HasThenAction()
  }

  /** The calls `handlers.forEach(::handle)` makes once the promise has settled with o. */
  function Calls<T>(hs: seq<Handler<T>>, o: Outcome): (cs: seq<Call<T>>)
    ensures |cs| <= |hs|
    ensures forall c :: c in cs ==> c.outcome == o && Reacts(c.handler, o)
  {
    if hs == [] then []
    else Calls(hs[..|hs| - 1], o) + Reaction(hs[|hs| - 1], o)
  }

  /** The calls made by a fulfilment with `v`: none at all when v is null (`value!!` throws). */
  function SuccessCalls<T>(hs: seq<Handler<T>>, v: Option<Value>): seq<Call<T>> {
    if v.Some? then Calls(hs, Success(v.value)) else []
  }

  /** `handle(handler)` (Promise.kt:228-252). */
  function HandleStep<T>(d: PromiseData<T>, h: Handler<T>): (r: PromiseData<T>)
    requires Consistent(d)
    ensures Consistent(r) && (QueueHeld(d) ==> QueueHeld(r))
    ensures r.state == d.state
    ensures d.state == Pending ==> r.handlers == d.handlers + [h]
    ensures d.state != Pending ==> r.handlers == d.handlers
    ensures d.state == Canceled ==> r == d
    ensures d.state == Fulfilled && (d.value.None? || !h.HasThenAction()) ==> r == d
  {
    match d.state
    case Pending => d.(handlers := d.handlers + [h])
    case Fulfilled =>
      // with a null value, `value!!` throws; handle passes that to reject,
      // which ignores it because the promise is Fulfilled
      if h.HasThenAction() && d.value.Some? then d.(dispatched := d.dispatched + [Call(h, Success(d.value.value))])
      else d
    case Rejected => d.(errorCatched := true, dispatched := d.dispatched + [Call(h, Failure(d.error.value))])
    case RejectedOnCancel => d.(errorCatched := true, dispatched := d.dispatched + [Call(h, Failure(d.error.value))])
    case Canceled => d
  }

  /** The calls `handle` makes for one handler of a promise settled with o. */
  function Reaction<T>(h: Handler<T>, o: Outcome): seq<Call<T>> {
    if Reacts(h, o) then [Call(h, o)] else []
  }

  /** The outcome a settled (and not merely Canceled) promise hands to its handlers. */
  predicate SettledWith<T>(d: PromiseData<T>, o: Outcome) {
    match o
    case Success(v) => d.state == Fulfilled && d.value == Some(v)
    case Failure(e) => (d.state == Rejected || d.state == RejectedOnCancel) && d.error == Some(e)
  }

  /** On a promise settled with o, `handle(h)` records the handler's reaction to o. */
  lemma HandleSettled<T>(d: PromiseData<T>, h: Handler<T>, o: Outcome)
    requires Consistent(d) && SettledWith(d, o)
    ensures HandleStep(d, h) == d.(dispatched := d.dispatched + Reaction(h, o),
                                   errorCatched := d.errorCatched || o.Failure?)
  {
  }

  /** Queueing one more handler appends that handler's reaction to the log. */
  lemma CallsSnoc<T>(log: seq<Call<T>>, hs: seq<Handler<T>>, h: Handler<T>, o: Outcome)
    ensures log + Calls(hs + [h], o) == (log + Calls(hs, o)) + Reaction(h, o)
  {
    assert (hs + [h])[..|hs|] == hs;
  }

  /** Extending a queue prefix by one handler appends that handler's reaction to the log. */
  lemma CallsExtend<T>(log: seq<Call<T>>, hs: seq<Handler<T>>, i: nat, o: Outcome)
    requires i < |hs|
    ensures log + Calls(hs[..i + 1], o) == (log + Calls(hs[..i], o)) + Reaction(hs[i], o)
  {
    assert hs[..i + 1] == hs[..i] + [hs[i]];
    CallsSnoc(log, hs[..i], hs[i], o);
  }

  /** `resolve(v)` (Promise.kt:181-192). */
  function ResolveStep<T>(d: PromiseData<T>, v: Option<Value>): (r: PromiseData<T>)
    requires Wf(d)
    ensures Wf(r) && MayFollow(d.state, r.state)
    ensures d.state == Pending <==> r.state == Fulfilled && r != d
    ensures d.dispatched <= r.dispatched
  {
    if d.state != Pending then d
    else d.(value := v, state := Fulfilled, handlers := [],
            dispatched := d.dispatched + SuccessCalls(d.handlers, v))
  }

  /** `reject(e)` (Promise.kt:194-226). */
  function RejectStep<T>(d: PromiseData<T>, e: Error): (r: PromiseData<T>)
    requires Wf(d)
    ensures Wf(r) && MayFollow(d.state, r.state)
    ensures r != d <==> d.state == Pending || (d.state == Canceled && d.shouldThrowErrorOnCancel)
    ensures d.dispatched <= r.dispatched
  {
    if d.state == Canceled && !d.shouldThrowErrorOnCancel then d
    else if d.state != Canceled && d.state != Pending then d
    else
      var settled := d.(state := if d.state == Canceled then RejectedOnCancel else Rejected, error := Some(e));
      if d.handlers == [] then settled.(uncaughtPending := d.shouldThrowUncaughtError)
      else settled.(errorCatched := true, handlers := [], dispatched := d.dispatched + Calls(d.handlers, Failure(e)))
  }

  /** `Future.cancel(true)`: succeeds only on a future that has not completed. */
  function CancelFuture(f: FutureStatus): FutureStatus {
    match f
    case NoFuture => NoFuture
    case Submitted(done, cancelled) => if done then f else Submitted(true, true)
  }

  /**
   * The `future?.also { ... }` block of `cancel` (Promise.kt:303-315), run
   * once the promise is Canceled: a future not both done and cancelled
   * is cancelled, and the promise rejected with an InterruptedException
   * when shouldThrowErrorOnCancel is set.
   */
  function InterruptStep<T>(c: PromiseData<T>): (r: PromiseData<T>)
    requires Wf(c) && c.state == Canceled
    ensures Wf(r) && (r.state == Canceled || r.state == RejectedOnCancel)
    ensures r.shouldThrowErrorOnCancel == c.shouldThrowErrorOnCancel
    ensures !c.shouldThrowErrorOnCancel ==> r.state == Canceled
    ensures r.state == RejectedOnCancel ==> r.error == Some(Interrupted)
  {
    match c.future
    case NoFuture => c
    case Submitted(done, cancelled) =>
      if !done || !cancelled then
        var c2 := c.(future := CancelFuture(c.future));
        if c2.shouldThrowErrorOnCancel then RejectStep(c2, Interrupted) else c2
      else c
  }

  /**
   * What `cancel(throwError)` does to the promise it is called on
   * (Promise.kt:293-316): Canceled, the flag recorded, then InterruptStep.
   * The recursive calls on other promises leave this one alone, as it is no
   * longer Pending when they run.
   */
  function CancelOwn<T>(d: PromiseData<T>, throwError: bool): (r: PromiseData<T>)
    requires Wf(d)
    ensures Wf(r) && MayFollow(d.state, r.state)
    ensures d.state == Pending ==> r.state == Canceled || r.state == RejectedOnCancel
    ensures d.state != Pending ==> r == d
    ensures d.state == Pending ==> r.shouldThrowErrorOnCancel == throwError
    ensures d.state == Pending && !throwError ==> r.state == Canceled
    ensures d.state == Pending && r.state == RejectedOnCancel ==> r.error == Some(Interrupted)
  {
    if d.state != Pending then d
    else InterruptStep(d.(shouldThrowErrorOnCancel := throwError, state := Canceled))
  }

  /** On a Pending promise, cancel marks it Canceled with the flag and then runs InterruptStep. */
  lemma CancelOwnMarks<T>(d: PromiseData<T>, throwError: bool)
    requires Wf(d) && d.state == Pending
    ensures CancelOwn(d, throwError) == InterruptStep(d.(shouldThrowErrorOnCancel := throwError, state := Canceled))
  {
  }

  /** `timeout(ms, throwError)` (Promise.kt:325-342): schedules a check only while Pending. */
  function TimeoutStep<T>(d: PromiseData<T>, throwError: bool): (r: PromiseData<T>)
    requires Wf(d)
    ensures Wf(r) && r.state == d.state
    ensures d.state != Pending ==> r == d
    ensures d.state == Pending ==> r.timeouts == d.timeouts + [throwError]
  {
    if d.state != Pending then d else d.(timeouts := d.timeouts + [throwError])
  }

  /**
   * The uncaught-error check submitted by `reject` reports the error when it
   * runs while the promise's own `errorCatched` is still false
   * (Promise.kt:254-271).
   */
  function ReportDue<T>(d: PromiseData<T>): (due: bool)
    ensures due && Consistent(d) ==> d.error.Some?
  {
    d.uncaughtPending && !d.errorCatched
  }

  // ---------------------------------------------------------------------
  // Settlement at most once
  // ---------------------------------------------------------------------

  /** Once settled, resolve changes nothing, and reject changes something only on a raising cancel. */
  lemma SettledIgnoresResolveAndReject<T>(d: PromiseData<T>, v: Option<Value>, e: Error)
    requires Wf(d) && d.state != Pending
    ensures ResolveStep(d, v) == d
    ensures RejectStep(d, e) == d <==> d.state != Canceled || !d.shouldThrowErrorOnCancel
  {
  }

  /** resolve then reject: the fulfilment stands and the reject is a no-op. */
  lemma ResolveThenReject<T>(d: PromiseData<T>, v: Option<Value>, e: Error)
    requires Wf(d) && d.state == Pending
    ensures RejectStep(ResolveStep(d, v), e) == ResolveStep(d, v)
    ensures ResolveStep(d, v).value == v
  {
  }

  /** reject then resolve: the rejection stands and the resolve is a no-op. */
  lemma RejectThenResolve<T>(d: PromiseData<T>, e: Error, v: Option<Value>)
    requires Wf(d) && d.state == Pending
    ensures ResolveStep(RejectStep(d, e), v) == RejectStep(d, e)
    ensures RejectStep(d, e).state == Rejected && RejectStep(d, e).error == Some(e)
  {
  }

  /** A second reject never changes anything: RejectedOnCancel is reached at most once. */
  lemma RejectTwice<T>(d: PromiseData<T>, e1: Error, e2: Error)
    requires Wf(d)
    ensures RejectStep(RejectStep(d, e1), e2) == RejectStep(d, e1)
  {
  }

  /** Cancelling without throwError makes every later reject a no-op. */
  lemma CancelQuietlyThenReject<T>(d: PromiseData<T>, e: Error)
    requires Wf(d) && d.state == Pending
    ensures CancelOwn(d, false).state == Canceled
    ensures RejectStep(CancelOwn(d, false), e) == CancelOwn(d, false)
  {
  }

  /**
   * Cancelling with throwError a promise without a future leaves it Canceled;
   * the first later reject moves it to RejectedOnCancel, and any further one
   * changes nothing.
   */
  lemma CancelRaisingThenReject<T>(d: PromiseData<T>, e1: Error, e2: Error)
    requires Wf(d) && d.state == Pending && d.future == NoFuture
    ensures CancelOwn(d, true).state == Canceled
    ensures RejectStep(CancelOwn(d, true), e1).state == RejectedOnCancel
    ensures RejectStep(CancelOwn(d, true), e1).error == Some(e1)
    ensures RejectStep(RejectStep(CancelOwn(d, true), e1), e2) == RejectStep(CancelOwn(d, true), e1)
  {
  }

  /** A promise with a running future, cancelled with throwError, ends RejectedOnCancel with an InterruptedException. */
  lemma CancelRaisingWithFuture<T>(d: PromiseData<T>)
    requires Wf(d) && d.state == Pending && d.future == Submitted(false, false)
    ensures CancelOwn(d, true).state == RejectedOnCancel
    ensures CancelOwn(d, true).error == Some(Interrupted)
    ensures CancelOwn(d, true).future == Submitted(true, true)
  {
  }

  // ---------------------------------------------------------------------
  // The handler queue
  // ---------------------------------------------------------------------

  /** The handlers a sequence of calls goes to, in call order. */
  function Callees<T>(cs: seq<Call<T>>): (hs: seq<Handler<T>>)
    ensures |hs| == |cs| && forall i :: 0 <= i < |cs| ==> hs[i] == cs[i].handler
  {
    seq(|cs|, i requires 0 <= i < |cs| => cs[i].handler)
  }

  /**
   * Dispatching a queue calls each handler that reacts to the outcome exactly
   * as many times as it is queued, with that outcome, and no other handler.
   */
  lemma {:induction false} CallsFromQueue<T>(hs: seq<Handler<T>>, o: Outcome)
    ensures forall c :: c in Calls(hs, o) ==> c.outcome == o && c.handler in hs && Reacts(c.handler, o)
    ensures forall h :: multiset(Callees(Calls(hs, o)))[h] == (if Reacts(h, o) then multiset(hs)[h] else 0)
  {
    if hs != [] {
      var init, last := hs[..|hs| - 1], hs[|hs| - 1];
      assert hs == init + [last];
      CallsFromQueue(init, o);
      var a, b := Calls(init, o), Reaction(last, o);
      assert Callees(a + b) == Callees(a) + Callees(b);
    }
  }

  /** When every queued handler reacts to o, the i-th call is for the i-th handler. */
  lemma {:induction false} CallsInOrder<T>(hs: seq<Handler<T>>, o: Outcome)
    requires forall i :: 0 <= i < |hs| ==> Reacts(hs[i], o)
    ensures |Calls(hs, o)| == |hs|
    ensures forall i :: 0 <= i < |hs| ==> Calls(hs, o)[i] == Call(hs[i], o)
  {
    if hs != [] {
      var init := hs[..|hs| - 1];
      assert forall i :: 0 <= i < |init| ==> init[i] == hs[i];
      CallsInOrder(init, o);
    }
  }

  /** Calls of a queue split over concatenation. */
  lemma {:induction false} CallsAppend<T>(hs: seq<Handler<T>>, ks: seq<Handler<T>>, o: Outcome)
    ensures Calls(hs + ks, o) == Calls(hs, o) + Calls(ks, o)
    decreases |ks|
  {
    if ks == [] {
      assert hs + ks == hs;
    } else {
      var ks' := ks[..|ks| - 1];
      assert (hs + ks)[..|hs + ks| - 1] == hs + ks';
      assert (hs + ks)[|hs + ks| - 1] == ks[|ks| - 1];
      CallsAppend(hs, ks', o);
    }
  }

  /** A failure reaches every queued handler, in registration order. */
  lemma FailureReachesEveryHandler<T>(hs: seq<Handler<T>>, e: Error)
    ensures |Calls(hs, Failure(e))| == |hs|
    ensures forall i :: 0 <= i < |hs| ==> Calls(hs, Failure(e))[i] == Call(hs[i], Failure(e))
  {
    CallsInOrder(hs, Failure(e));
  }

  /**
   * Resolving a Pending promise whose queue holds only then-handlers calls
   * each of them once with the value, in registration order, and empties the
   * queue.
   */
  lemma ResolveDispatchesQueue<T>(d: PromiseData<T>, v: Value)
    requires Wf(d) && d.state == Pending
    requires forall i :: 0 <= i < |d.handlers| ==> d.handlers[i].HasThenAction()
    ensures var r := ResolveStep(d, Some(v));
      && r.handlers == []
      && r.dispatched[..|d.dispatched|] == d.dispatched
      && |r.dispatched| == |d.dispatched| + |d.handlers|
      && forall i :: 0 <= i < |d.handlers| ==> r.dispatched[|d.dispatched| + i] == Call(d.handlers[i], Success(v))
  {
    CallsInOrder(d.handlers, Success(v));
  }

  /**
   * A null fulfilment calls none of the queued handlers: `value!!` fails
   * before any thenAction runs, and the queue is emptied all the same.
   */
  lemma ResolveNullCallsNobody<T>(d: PromiseData<T>)
    requires Wf(d) && d.state == Pending
    ensures var r := ResolveStep(d, None);
      && r.state == Fulfilled && r.value == None
      && r.dispatched == d.dispatched && r.handlers == []
  {
  }

  /** A catch handler has no thenAction: a fulfilment makes no call for it. */
  lemma CatchIgnoresFulfilment<T>(d: PromiseData<T>, code: CatchCode<T>, target: T)
    requires Wf(d) && d.state == Fulfilled
    ensures HandleStep(d, Handler(CatchOp(code), target)) == d
  {
  }

  /** A rejected promise calls a then-handler's failure closure only: the action never runs. */
  lemma RejectedCallsFailureOnly<T>(d: PromiseData<T>, h: Handler<T>)
    requires Wf(d) && (d.state == Rejected || d.state == RejectedOnCancel)
    ensures HandleStep(d, h).dispatched == d.dispatched + [Call(h, Failure(d.error.value))]
    ensures HandleStep(d, h).errorCatched
  {
  }

  /**
   * Registering a handler just before or just after a resolve leads to the
   * same state: the handler is called exactly once, by whichever of the two
   * paths runs second.
   */
  lemma RegisterAroundResolve<T>(d: PromiseData<T>, h: Handler<T>, v: Option<Value>)
    requires Wf(d) && d.state == Pending
    ensures ResolveStep(HandleStep(d, h), v) == HandleStep(ResolveStep(d, v), h)
  {
    if v.Some? {
      CallsSnoc(d.dispatched, d.handlers, h, Success(v.value));
    }
  }

  /**
   * Registering a handler just before or just after a reject: the same calls
   * are made, the error counts as caught, and no uncaught report is due in
   * either order.
   */
  lemma RegisterAroundReject<T>(d: PromiseData<T>, h: Handler<T>, e: Error)
    requires Wf(d) && d.state == Pending
    ensures RejectStep(HandleStep(d, h), e).dispatched == HandleStep(RejectStep(d, e), h).dispatched
    ensures RejectStep(HandleStep(d, h), e).dispatched == d.dispatched + Calls(d.handlers, Failure(e)) + [Call(h, Failure(e))]
    ensures !ReportDue(RejectStep(HandleStep(d, h), e)) && !ReportDue(HandleStep(RejectStep(d, e), h))
  {
    CallsSnoc(d.dispatched, d.handlers, h, Failure(e));
  }

  // ---------------------------------------------------------------------
  // Uncaught errors
  // ---------------------------------------------------------------------

  /**
   * A reject that finds the queue empty leaves a report due exactly when
   * uncaught reporting is switched on; one that finds handlers leaves none.
   */
  lemma RejectReportsOnlyUnhandled<T>(d: PromiseData<T>, e: Error)
    requires Wf(d) && d.state == Pending
    ensures ReportDue(RejectStep(d, e)) <==> d.handlers == [] && d.shouldThrowUncaughtError
  {
  }

  /** Any handler registered on a rejected promise before its check runs cancels the report. */
  lemma HandlerSuppressesReport<T>(d: PromiseData<T>, h: Handler<T>)
    requires Wf(d) && (d.state == Rejected || d.state == RejectedOnCancel)
    ensures !ReportDue(HandleStep(d, h))
  {
  }

  // ---------------------------------------------------------------------
  // isDone
  // ---------------------------------------------------------------------

  /** Once done, every operation leaves the promise done: `isDone` never goes back to false. */
  lemma DoneIsStable<T>(d: PromiseData<T>, h: Handler<T>, v: Option<Value>, e: Error, throwError: bool)
    requires Wf(d) && d.state != Pending
    ensures HandleStep(d, h).state != Pending && ResolveStep(d, v).state != Pending
    ensures RejectStep(d, e).state != Pending && CancelOwn(d, throwError).state != Pending
    ensures TimeoutStep(d, throwError) == d
  {
  }
}
