/**
 * The class Promise of Promise.kt, run sequentially: its fields, `resolve`,
 * `reject`, `handle`, `cancel`, `timeout`, `isDone`, the derivation
 * operators and the closures they register, and the companion `resolve` and
 * `reject`.
 *
 * Each method is proved to perform the corresponding step function of
 * PromiseSpec on Data(), the tuple of the mutable fields. A handler's
 * closure is not run inside `handle`: `handle` appends a Call to
 * `dispatched`, and running the closure is a separate method on the child
 * promise the closure settles, given what the user's code did.
 */
module PromiseCore {
  import opened Wrappers
  import opened PromiseStates
  import opened PromiseSpec

  /** What a user then-action did: returned a value (possibly null) or threw. */
  datatype ActionResult = Returned(result: Option<Value>) | Threw(thrown: Error)

  /** What a user thenChain-action did: returned a promise or threw. */
  datatype ChainResult = ReturnedPromise(promise: Promise) | ChainThrew(thrown: Error)

  /** What a user fail handler did: returned normally or threw. */
  datatype HandlerResult = Completed | HandlerThrew(thrown: Error)

  class Promise {
    var state: PromiseState
    var value: Option<Value>
    var error: Option<Error>
    var handlers: seq<Handler<Promise>>
    var dispatched: seq<Call<Promise>>
    var shouldThrowErrorOnCancel: bool
    var shouldThrowUncaughtError: bool
    var errorCatched: bool
    var uncaughtPending: bool
    var future: FutureStatus
    var timeouts: seq<bool>
    const parent: Promise?
    var thenChainPromise: Promise?

    /** The mutable fields other than thenChainPromise, as one value. */
    function Data(): PromiseData<Promise>
      reads this
    {
      PromiseData(state, value, error, handlers, dispatched, shouldThrowErrorOnCancel,
                  shouldThrowUncaughtError, errorCatched, uncaughtPending, future, timeouts)
    }

    ghost predicate Valid()
      reads this
    {
      Wf(Data())
    }

    /** `Promise()`: no parent and no body, as used by the companion `resolve`. */
    constructor Detached()
      ensures Valid() && Data() == Fresh(NoFuture)
      ensures parent == null && thenChainPromise == null
    {
      state, value, error := Pending, None, None;
      handlers, dispatched := [], [];
      shouldThrowErrorOnCancel, shouldThrowUncaughtError, errorCatched := false, true, false;
      uncaughtPending, future, timeouts := false, NoFuture, [];
      parent, thenChainPromise := null, null;
    }

    /**
     * `Promise(executor)`: a root promise whose body has been submitted to
     * the executor; the body itself is the caller's later resolve or reject.
     */
    constructor Root()
      ensures Valid() && Data() == Fresh(Submitted(false, false))
      ensures parent == null && thenChainPromise == null
    {
      state, value, error := Pending, None, None;
      handlers, dispatched := [], [];
      shouldThrowErrorOnCancel, shouldThrowUncaughtError, errorCatched := false, true, false;
      uncaughtPending, future, timeouts := false, Submitted(false, false), [];
      parent, thenChainPromise := null, null;
    }

    /** `Promise(options, parent)`: a promise derived from `parent`. */
    constructor Derived(parent: Promise)
      ensures Valid() && Data() == Fresh(NoFuture)
      ensures this.parent == parent && thenChainPromise == null
    {
      state, value, error := Pending, None, None;
      handlers, dispatched := [], [];
      shouldThrowErrorOnCancel, shouldThrowUncaughtError, errorCatched := false, true, false;
      uncaughtPending, future, timeouts := false, NoFuture, [];
      this.parent, thenChainPromise := parent, null;
    }

    /** `isDone`: the promise has left Pending. */
    function IsDone(): (r: bool)
      reads this
      ensures r <==> state != Pending
    {
      state != Pending
    }

    /** `handle(handler)`: queue while Pending, otherwise call the closure for the stored outcome. */
    method Handle(h: Handler<Promise>)
      requires Consistent(Data())
      modifies this
      ensures Data() == HandleStep(old(Data()), h)
      ensures thenChainPromise == old(thenChainPromise)
    {
      match state
      case Pending =>
        handlers := handlers + [h];
      case Fulfilled =>
        if h.HasThenAction() && value.Some? {
          dispatched := dispatched + [Call(h, Success(value.value))];
        }
      case Rejected =>
        errorCatched := true;
        dispatched := dispatched + [Call(h, Failure(error.value))];
      case RejectedOnCancel =>
        errorCatched := true;
        dispatched := dispatched + [Call(h, Failure(error.value))];
      case Canceled =>
    }

    /** `handlers.forEach(::handle)` on a settled promise. */
    method DispatchQueue(ghost o: Outcome)
      requires Consistent(Data()) && SettledWith(Data(), o)
      modifies this
      ensures Data() == old(Data()).(dispatched := old(dispatched) + Calls(old(handlers), o),
                                     errorCatched := old(errorCatched) || (o.Failure? && old(handlers) != []))
      ensures thenChainPromise == old(thenChainPromise)
    {
      ghost var d0 := Data();
      var i := 0;
      while i < |handlers|
        invariant 0 <= i <= |handlers| && handlers == d0.handlers
        invariant Data() == d0.(dispatched := d0.dispatched + Calls(d0.handlers[..i], o),
                                errorCatched := d0.errorCatched || (o.Failure? && i > 0))
        invariant thenChainPromise == old(thenChainPromise)
      {
        CallsExtend(d0.dispatched, d0.handlers, i, o);
        HandleSettled(Data(), handlers[i], o);
        Handle(handlers[i]);
        i := i + 1;
      }
      assert d0.handlers[..i] == d0.handlers;
    }

    /** `resolve(v)`: from Pending only; store, mark Fulfilled, dispatch the queue, clear it. */
    method Resolve(v: Option<Value>)
      requires Valid()
      modifies this
      ensures Valid() && Data() == ResolveStep(old(Data()), v)
      ensures thenChainPromise == old(thenChainPromise)
    {
      if state != Pending {
        return;
      }
      value := v;
      state := Fulfilled;
      if v.Some? {
        DispatchQueue(Success(v.value));
      }
      handlers := [];
    }

    /**
     * `reject(e)`: Pending becomes Rejected, Canceled becomes RejectedOnCancel
     * when the cancel asked for an error; otherwise nothing happens. With an
     * empty queue the uncaught-error check is submitted (if enabled),
     * otherwise the queue is dispatched and cleared.
     */
    method Reject(e: Error)
      requires Valid()
      modifies this
      ensures Valid() && Data() == RejectStep(old(Data()), e)
      ensures thenChainPromise == old(thenChainPromise)
    {
      match state {
        case Canceled =>
          if !shouldThrowErrorOnCancel {
            return;
          }
          state := RejectedOnCancel;
        case Pending =>
          state := Rejected;
        case _ =>
          return;
      }
      error := Some(e);
      if |handlers| == 0 {
        if shouldThrowUncaughtError {
          uncaughtPending := true;
        }
      } else {
        DispatchQueue(Failure(e));
        handlers := [];
      }
    }

    /**
     * The uncaught-error check `reject` submitted, run: it reports the error
     * unless a handler caught it on this promise in the meantime. Without
     * other threads `errorCatched` cannot change between its five polls, so
     * one look decides.
     */
    method RunUncaughtCheck() returns (report: Option<Error>)
      requires Valid()
      modifies this
      ensures Valid() && Data() == old(Data()).(uncaughtPending := false)
      ensures report.Some? <==> ReportDue(old(Data()))
      ensures report.Some? ==> report == error
      ensures thenChainPromise == old(thenChainPromise)
    {
      report := None;
      if uncaughtPending {
        uncaughtPending := false;
        if !errorCatched {
          report := error;
        }
      }
    }

    /** U holds valid promises and is closed under `parent` and `thenChainPromise`. */
    static ghost predicate Closed(U: set<Promise>)
      reads U
    {
      forall p :: p in U ==>
        && p.Valid()
        && (p.parent != null ==> p.parent in U)
        && (p.thenChainPromise != null ==> p.thenChainPromise in U)
    }

    /** The data of every promise in U, as one value. */
    static ghost function Snap(U: set<Promise>): map<Promise, PromiseData<Promise>>
      reads U
    {
      map p | p in U :: p.Data()
    }

    /** The thenChainPromise link of every promise in U. */
    static ghost function Links(U: set<Promise>): map<Promise, Promise?>
      reads U
    {
      map p | p in U :: p.thenChainPromise
    }

    /**
     * `cancel(throwError)`: from Pending only; record the flag, mark
     * Canceled, cancel the chained promise, cancel the future (rejecting with
     * an InterruptedException when throwError is set), then cancel the parent.
     * U is any set of promises closed under both links; only promises in it
     * change, each at most once and by CancelOwn.
     */
    method Cancel(throwError: bool, ghost U: set<Promise>)
      requires this in U && Closed(U)
      modifies U
      ensures Closed(U) && Links(U) == old(Links(U))
      ensures CancelledFrom(old(Snap(U)), Snap(U), throwError)
      ensures Data() == CancelOwn(old(Data()), throwError)
      ensures old(state) != Pending ==> Snap(U) == old(Snap(U))
      ensures old(state) == Pending && thenChainPromise != null ==> thenChainPromise.state != Pending
      ensures old(state) == Pending && parent != null ==> parent.state != Pending
      decreases PendingOf(Snap(U)), 2
    {
      ClosedSnapWf(U);
      if state != Pending {
        return;
      }
      ghost var S0 := Snap(U);
      ghost var d0 := Data();
      MarkAndChain(throwError, U);
      ghost var S1 := Snap(U);
      ghost var marked := Data();
      assert S1[this] == marked;
      StopFuture(U);
      ghost var S2 := Snap(U);
      assert Data() == InterruptStep(marked);
      CancelOwnMarks(d0, throwError);
      CancelFirstStep(S0, S0[this := marked], S1, S2, this, throwError);
      ghost var link := thenChainPromise;
      if link != null {
        assert S1[link].state != Pending;
        if link != this {
          assert S2[link] == S1[link];
        }
      }
      CancelDropsPending(S0, S2, throwError, this);
      Cascade(parent, throwError, U, PendingOf(S0));
      CancelledTrans(S0, S2, Snap(U), throwError);
      CancelKeepsSettled(S2, Snap(U), throwError, this);
      if thenChainPromise != null {
        CancelKeepsSettled(S2, Snap(U), throwError, thenChainPromise);
      }
    }

    /**
     * The first statements of `cancel` on a Pending promise: record the
     * flag, mark Canceled, cancel the chained promise.
     */
    method MarkAndChain(throwError: bool, ghost U: set<Promise>)
      requires this in U && Closed(U) && state == Pending
      modifies U
      ensures Closed(U) && Links(U) == old(Links(U))
      ensures Data() == old(Data()).(shouldThrowErrorOnCancel := throwError, state := Canceled)
      ensures CancelledFrom(old(Snap(U))[this := Data()], Snap(U), throwError)
      ensures thenChainPromise != null ==> thenChainPromise.state != Pending
      decreases PendingOf(Snap(U)), 1
    {
      ghost var S0 := Snap(U);
      Mark(throwError, U);
      ghost var marked := Data();
      ghost var S1 := Snap(U);
      MarkDropsPending(S0, this, marked);
      ghost var L1 := Links(U);
      var chain := thenChainPromise;
      Cascade(chain, throwError, U, PendingOf(S0));
      assert thenChainPromise == chain by {
        assert Links(U)[this] == L1[this];
      }
      CancelKeepsSettled(S1, Snap(U), throwError, this);
      assert Data() == marked by {
        assert Snap(U)[this] == Data() && S1[this] == marked;
      }
    }

    /** The first two statements of `cancel`: record the flag and mark Canceled. */
    method Mark(throwError: bool, ghost U: set<Promise>)
      requires this in U && Closed(U) && state == Pending
      modifies this
      ensures Data() == old(Data()).(shouldThrowErrorOnCancel := throwError, state := Canceled)
      ensures Closed(U) && Links(U) == old(Links(U)) && Snap(U) == old(Snap(U))[this := Data()]
    {
      shouldThrowErrorOnCancel := throwError;
      state := Canceled;
      OnlyChanged(this, U);
    }

    /**
     * `q?.cancel(throwError)`, as `cancel` calls it on its chained promise
     * and its parent while this promise is no longer Pending. The bound is
     * the set of promises that were Pending when the outer cancel began.
     */
    method Cascade(q: Promise?, throwError: bool, ghost U: set<Promise>, ghost bound: set<Promise>)
      requires (q != null ==> q in U) && Closed(U) && PendingOf(Snap(U)) < bound
      modifies U
      ensures Closed(U) && Links(U) == old(Links(U))
      ensures CancelledFrom(old(Snap(U)), Snap(U), throwError)
      ensures q != null ==> q.state != Pending
      decreases bound, 0
    {
      ClosedSnapWf(U);
      if q != null {
        q.Cancel(throwError, U);
      } else {
        assert CancelledFrom(Snap(U), Snap(U), throwError);
      }
    }

    /** The future-cancelling block of `cancel`, on a promise already marked Canceled. */
    method StopFuture(ghost U: set<Promise>)
      requires this in U && Closed(U) && state == Canceled
      modifies this
      ensures Valid() && Data() == InterruptStep(old(Data()))
      ensures thenChainPromise == old(thenChainPromise)
      ensures Closed(U) && Links(U) == old(Links(U)) && Snap(U) == old(Snap(U))[this := Data()]
    {
      match future {
        case Submitted(done, cancelled) =>
          if !done || !cancelled {
            future := CancelFuture(future);
            if shouldThrowErrorOnCancel {
              Reject(Interrupted);
            }
          }
        case NoFuture =>
      }
      OnlyChanged(this, U);
    }

    /**
     * `timeout(ms, throwError)`: returns this; while Pending, submits a check
     * that will cancel the promise if it is still Pending when it runs.
     */
    method Timeout(throwError: bool) returns (p: Promise)
      requires Valid()
      modifies this
      ensures p == this
      ensures Valid() && Data() == TimeoutStep(old(Data()), throwError)
      ensures thenChainPromise == old(thenChainPromise)
    {
      if state != Pending {
        return this;
      }
      timeouts := timeouts + [throwError];
      return this;
    }

    /** The i-th submitted timeout check, run after its delay. */
    method RunTimeout(i: nat, ghost U: set<Promise>)
      requires this in U && Closed(U) && i < |timeouts|
      modifies U
      ensures Closed(U) && Links(U) == old(Links(U))
      ensures timeouts == old(timeouts[..i] + timeouts[i + 1..])
      ensures old(state) == Pending ==> Data() == CancelOwn(old(Data()).(timeouts := timeouts), old(timeouts[i]))
      ensures old(state) != Pending ==> Data() == old(Data()).(timeouts := timeouts)
      ensures old(state) != Pending ==> Snap(U) == old(Snap(U))[this := Data()]
      ensures CancelledFrom(old(Snap(U))[this := old(Data()).(timeouts := timeouts)], Snap(U), old(timeouts[i]))
    {
      var throwError := timeouts[i];
      timeouts := timeouts[..i] + timeouts[i + 1..];
      OnlyChanged(this, U);
      ClosedSnapWf(U);
      if state == Pending {
        Cancel(throwError, U);
      } else {
        assert CancelledFrom(Snap(U), Snap(U), throwError);
      }
    }

    /** `thenInternal(code)`: a child promise settled by the then-closures registered here. */
    method ThenInternal(code: ThenCode<Promise>) returns (child: Promise)
      requires Valid()
      modifies this
      ensures fresh(child) && child.Valid() && child.Data() == Fresh(NoFuture)
      ensures child.parent == this && child.thenChainPromise == null
      ensures Valid() && Data() == HandleStep(old(Data()), Handler(ThenOp(code), child))
      ensures thenChainPromise == old(thenChainPromise)
    {
      child := new Promise.Derived(this);
      Handle(Handler(ThenOp(code), child));
    }

    /** `thenChainInternal(action)`: a child promise settled through the promise the action returns. */
    method ThenChainInternal(action: nat) returns (child: Promise)
      requires Valid()
      modifies this
      ensures fresh(child) && child.Valid() && child.Data() == Fresh(NoFuture)
      ensures child.parent == this && child.thenChainPromise == null
      ensures Valid() && Data() == HandleStep(old(Data()), Handler(ThenChainOp(action), child))
      ensures thenChainPromise == old(thenChainPromise)
    {
      child := new Promise.Derived(this);
      Handle(Handler(ThenChainOp(action), child));
    }

    /** `catchInternal(code)`: a child promise settled by the fail closure registered here. */
    method CatchInternal(code: CatchCode<Promise>) returns (child: Promise)
      requires Valid()
      modifies this
      ensures fresh(child) && child.Valid() && child.Data() == Fresh(NoFuture)
      ensures child.parent == this && child.thenChainPromise == null
      ensures Valid() && Data() == HandleStep(old(Data()), Handler(CatchOp(code), child))
      ensures thenChainPromise == old(thenChainPromise)
    {
      child := new Promise.Derived(this);
      Handle(Handler(CatchOp(code), child));
    }

    /**
     * The success closure of `then` on this child, after the user action ran
     * on the parent's value: its result resolves the child, its exception
     * rejects it.
     */
    method RunThenAction(r: ActionResult, ghost code: ThenCode<Promise>, ghost v: Value)
      requires Valid()
      requires parent != null && Call(Handler(ThenOp(code), this), Success(v)) in parent.dispatched
      requires code.ResolveOuter? ==> r == Returned(Some(Unit))
      modifies this
      ensures Valid()
      ensures r.Returned? ==> Data() == ResolveStep(old(Data()), r.result)
      ensures r.Threw? ==> Data() == RejectStep(old(Data()), r.thrown)
      ensures thenChainPromise == old(thenChainPromise)
    {
      match r
      case Returned(x) => Resolve(x);
      case Threw(e) => Reject(e);
    }

    /**
     * The fail closure of `then` and `thenChain` on this child: the parent's
     * error rejects the child unchanged, and no action runs.
     */
    method ForwardRejection(e: Error, ghost k: Derivation<Promise>)
      requires Valid()
      requires !k.CatchOp? && parent != null && Call(Handler(k, this), Failure(e)) in parent.dispatched
      modifies this
      ensures Valid() && Data() == RejectStep(old(Data()), e)
      ensures old(state) == Pending ==> state == Rejected && error == Some(e)
      ensures thenChainPromise == old(thenChainPromise)
    {
      Reject(e);
    }

    /**
     * The success closure of `thenChain` on this child, after the user action
     * ran: a returned promise cp becomes the chained promise and is wired by
     * `cp.then { this.resolve(it) }.catch { this.reject(it) }`; an exception
     * rejects the child.
     */
    method RunChainAction(r: ChainResult, ghost action: nat, ghost v: Value) returns (wiredThen: Promise?, wiredCatch: Promise?)
      requires Valid()
      requires parent != null && Call(Handler(ThenChainOp(action), this), Success(v)) in parent.dispatched
      requires r.ReturnedPromise? ==> r.promise.Valid()
      modifies this, if r.ReturnedPromise? then {r.promise} else {}
      ensures Valid()
      ensures thenChainPromise == (if r.ReturnedPromise? then r.promise else old(thenChainPromise))
      ensures r.ChainThrew? ==> Data() == RejectStep(old(Data()), r.thrown) && wiredThen == null && wiredCatch == null
      ensures r.ReturnedPromise? ==>
        var cp := r.promise;
        && wiredThen != null && wiredCatch != null
        && fresh(wiredThen) && fresh(wiredCatch)
        && wiredThen.parent == cp && wiredCatch.parent == wiredThen
        && wiredThen.thenChainPromise == null && wiredCatch.thenChainPromise == null
        && (cp != this ==> cp.thenChainPromise == old(cp.thenChainPromise))
        && cp.Valid() && cp.Data() == HandleStep(old(cp.Data()), Handler(ThenOp(ResolveOuter(this)), wiredThen))
        && wiredThen.Valid() && wiredThen.Data() == Fresh(NoFuture).(handlers := [Handler(CatchOp(RejectOuter(this)), wiredCatch as Promise)])
        && wiredCatch.Valid() && wiredCatch.Data() == Fresh(NoFuture)
        && (cp != this ==> Data() == old(Data()))
    {
      match r
      case ChainThrew(e) =>
        Reject(e);
        wiredThen, wiredCatch := null, null;
      case ReturnedPromise(cp) =>
        thenChainPromise := cp;
        var t := cp.ThenInternal(ResolveOuter(this));
        var c := t.CatchInternal(RejectOuter(this));
        wiredThen, wiredCatch := t, c;
    }

    /**
     * The fail closure of `catch` on this child, after the user handler ran
     * on the parent's error: returning normally rejects the child with the
     * same error and switches off its uncaught reporting; throwing rejects it
     * with the new error.
     */
    method RunCatchHandler(e: Error, r: HandlerResult, ghost code: CatchCode<Promise>)
      requires Valid()
      requires parent != null && Call(Handler(CatchOp(code), this), Failure(e)) in parent.dispatched
      requires code.RejectOuter? ==> r == Completed
      modifies this
      ensures Valid()
      ensures r.Completed? ==> Data() == RejectStep(old(Data()).(shouldThrowUncaughtError := false), e)
      ensures r.HandlerThrew? ==> Data() == RejectStep(old(Data()), r.thrown)
      ensures r.Completed? && old(state) == Pending ==> !ReportDue(Data())
      ensures thenChainPromise == old(thenChainPromise)
    {
      match r
      case Completed =>
        shouldThrowUncaughtError := false;
        Reject(e);
      case HandlerThrew(e2) =>
        Reject(e2);
    }

    /**
     * The then-closure thenChain wires on the inner promise, run on this
     * (the inner `then` child) with the inner value: it resolves the outer
     * child with the value, then this child with Unit.
     */
    method RunResolveOuter(outer: Promise, v: Value)
      requires Valid() && outer.Valid() && outer != this
      requires parent != null && Call(Handler(ThenOp(ResolveOuter(outer)), this), Success(v)) in parent.dispatched
      modifies this, outer
      ensures outer.Valid() && outer.Data() == ResolveStep(old(outer.Data()), Some(v))
      ensures Valid() && Data() == ResolveStep(old(Data()), Some(Unit))
      ensures thenChainPromise == old(thenChainPromise)
      ensures outer.thenChainPromise == old(outer.thenChainPromise)
    {
      outer.Resolve(Some(v));
      RunThenAction(Returned(Some(Unit)), ResolveOuter(outer), v);
    }

    /**
     * The catch-closure thenChain wires, run on this (the inner `catch`
     * child) with the error: it rejects the outer child, then, having
     * returned normally, rejects this child quietly.
     */
    method RunRejectOuter(outer: Promise, e: Error)
      requires Valid() && outer.Valid() && outer != this
      requires parent != null && Call(Handler(CatchOp(RejectOuter(outer)), this), Failure(e)) in parent.dispatched
      modifies this, outer
      ensures outer.Valid() && outer.Data() == RejectStep(old(outer.Data()), e)
      ensures Valid() && Data() == RejectStep(old(Data()).(shouldThrowUncaughtError := false), e)
      ensures thenChainPromise == old(thenChainPromise)
      ensures outer.thenChainPromise == old(outer.thenChainPromise)
    {
      outer.Reject(e);
      RunCatchHandler(e, Completed, RejectOuter(outer));
    }
  }

  /**
   * S1 is S0 after cancelling some of its promises: each either unchanged or
   * moved on by CancelOwn.
   */
  ghost predicate CancelledFrom(S0: map<Promise, PromiseData<Promise>>, S1: map<Promise, PromiseData<Promise>>, t: bool) {
    && S0.Keys == S1.Keys
    && forall p :: p in S0 ==> Wf(S0[p]) && (S1[p] == S0[p] || S1[p] == CancelOwn(S0[p], t))
  }

  /** Under Closed(U), every promise in U holds well-formed data. */
  lemma ClosedSnapWf(U: set<Promise>)
    requires Promise.Closed(U)
    ensures forall p :: p in Promise.Snap(U) ==> Wf(Promise.Snap(U)[p])
  {
  }

  /**
   * When only `me` has changed since the old state, and is still valid with
   * the same link, U stays closed and its snapshot differs only at me.
   */
  twostate lemma OnlyChanged(me: Promise, new U: set<Promise>)
    requires old(allocated(U)) && me in U && old(Promise.Closed(U)) && me.Valid()
    requires me.thenChainPromise == old(me.thenChainPromise)
    requires forall p :: p in U && p != me ==> unchanged(p)
    ensures Promise.Closed(U) && Promise.Links(U) == old(Promise.Links(U))
    ensures Promise.Snap(U) == old(Promise.Snap(U))[me := me.Data()]
  {
  }

  /**
   * The promise's own part of a cancel, around the cascade to its chained
   * promise: S0 before, S1 once Canceled, S2 after the cascade, S3 after the
   * future is cancelled.
   */
  lemma CancelFirstStep(S0: map<Promise, PromiseData<Promise>>, S1: map<Promise, PromiseData<Promise>>,
                        S2: map<Promise, PromiseData<Promise>>, S3: map<Promise, PromiseData<Promise>>,
                        me: Promise, t: bool)
    requires me in S0 && me in S1 && forall p :: p in S0 ==> Wf(S0[p])
    requires S1 == S0[me := S1[me]] && S1[me].state == Canceled
    requires CancelledFrom(S1, S2, t) && S2[me] == S1[me]
    requires me in S3 && S3 == S2[me := S3[me]] && S3[me] == CancelOwn(S0[me], t)
    ensures CancelledFrom(S0, S3, t)
  {
    forall p | p in S0
      ensures S3[p] == S0[p] || S3[p] == CancelOwn(S0[p], t)
    {
      if p != me {
        assert S1[p] == S0[p];
      }
    }
  }

  /** The promises of a snapshot that are still Pending. */
  ghost function PendingOf(S: map<Promise, PromiseData<Promise>>): set<Promise> {
    set p | p in S && S[p].state == Pending
  }

  /** A promise that is no longer Pending is left alone by a cancel cascade. */
  lemma CancelKeepsSettled(S0: map<Promise, PromiseData<Promise>>, S1: map<Promise, PromiseData<Promise>>,
                           t: bool, p: Promise)
    requires CancelledFrom(S0, S1, t) && p in S0 && S0[p].state != Pending
    ensures S1[p] == S0[p]
  {
  }

  /** A cancel cascade never makes a promise Pending again. */
  lemma CancelShrinksPending(S0: map<Promise, PromiseData<Promise>>, S1: map<Promise, PromiseData<Promise>>, t: bool)
    requires CancelledFrom(S0, S1, t)
    ensures PendingOf(S1) <= PendingOf(S0)
  {
    forall p | p in PendingOf(S1)
      ensures p in PendingOf(S0)
    {
      if S1[p] != S0[p] {
        assert S0[p].state == Pending;
      }
    }
  }

  /** Marking a Pending promise settled or Canceled removes it from the Pending set. */
  lemma MarkDropsPending(S0: map<Promise, PromiseData<Promise>>, me: Promise, d: PromiseData<Promise>)
    requires me in S0 && S0[me].state == Pending && d.state != Pending
    ensures PendingOf(S0[me := d]) < PendingOf(S0)
  {
    assert me in PendingOf(S0) && me !in PendingOf(S0[me := d]);
  }

  /** A cascade that cancels a Pending promise strictly shrinks the Pending set. */
  lemma CancelDropsPending(S0: map<Promise, PromiseData<Promise>>, S1: map<Promise, PromiseData<Promise>>,
                           t: bool, me: Promise)
    requires CancelledFrom(S0, S1, t) && me in S0 && S0[me].state == Pending && S1[me].state != Pending
    ensures PendingOf(S1) < PendingOf(S0)
  {
    CancelShrinksPending(S0, S1, t);
    assert me in PendingOf(S0) && me !in PendingOf(S1);
  }

  /** Two cascades of cancellation compose into one: CancelOwn acts at most once. */
  lemma CancelledTrans(S0: map<Promise, PromiseData<Promise>>, S1: map<Promise, PromiseData<Promise>>,
                       S2: map<Promise, PromiseData<Promise>>, t: bool)
    requires CancelledFrom(S0, S1, t) && CancelledFrom(S1, S2, t)
    ensures CancelledFrom(S0, S2, t)
  {
    forall p | p in S0
      ensures S2[p] == S0[p] || S2[p] == CancelOwn(S0[p], t)
    {
      if S1[p] != S0[p] && S2[p] != S1[p] {
        assert S1[p].state != Pending;
      }
    }
  }

  /** Companion `resolve(v)`: a new promise fulfilled with v at once. */
  method ResolvedWith(v: Option<Value>) returns (p: Promise)
    ensures fresh(p) && p.Valid() && p.parent == null && p.thenChainPromise == null
    ensures p.state == Fulfilled && p.value == v && p.handlers == [] && p.dispatched == []
  {
    p := new Promise.Detached();
    p.Resolve(v);
  }

  /**
   * Companion `reject(e)`: a root promise whose body switches off uncaught
   * reporting and rejects with e. The body, which runs on the executor, is
   * run here at once.
   */
  method RejectedWith(e: Error) returns (p: Promise)
    ensures fresh(p) && p.Valid() && p.parent == null && p.thenChainPromise == null
    ensures p.state == Rejected && p.error == Some(e) && !p.uncaughtPending && p.handlers == [] && p.dispatched == []
  {
    p := new Promise.Root();
    p.shouldThrowUncaughtError := false;
    p.Reject(e);
  }
}
