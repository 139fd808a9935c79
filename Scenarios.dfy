/**
 * Whole-chain runs of the promise model, following the scenarios the
 * repository's tests exercise (PromiseKtTest.kt). The Kotlin code runs each
 * closure synchronously inside `handle` (the internal operators pass no
 * executor); here each call `handle` logs is played right after the
 * operation that logged it, in log order, which is that same schedule.
 */
module PromiseScenarios {
  import opened Wrappers
  import opened PromiseStates
  import opened PromiseSpec
  import opened PromiseCore

  /**
   * `Promise.reject(error).then { .. }.catch { .. }.catch { .. }`: the
   * then-child is rejected with the error without running its action, and
   * both catch handlers are called with that same error.
   */
  method TwoCatches(e: Error) returns (root: Promise, t: Promise, c1: Promise, c2: Promise)
    ensures root.dispatched == [Call(Handler(ThenOp(UserThen(0)), t), Failure(e))]
    ensures t.state == Rejected && t.error == Some(e)
    ensures t.dispatched == [Call(Handler(CatchOp(UserCatch(1)), c1), Failure(e))]
    ensures c1.state == Rejected && c1.error == Some(e)
    ensures c1.dispatched == [Call(Handler(CatchOp(UserCatch(2)), c2), Failure(e))]
    ensures !ReportDue(root.Data()) && !ReportDue(t.Data()) && !ReportDue(c1.Data())
  {
    root := RejectedWith(e);
    t := root.ThenInternal(UserThen(0));
    t.ForwardRejection(e, ThenOp(UserThen(0)));
    c1 := t.CatchInternal(UserCatch(1));
    c1.RunCatchHandler(e, Completed, UserCatch(1));
    c2 := c1.CatchInternal(UserCatch(2));
  }

  /**
   * `Promise.reject(e1).catch { throw e2 }.catch { .. }`: the second catch
   * handler is called with the error the first one threw.
   */
  method CatchRethrows(e1: Error, e2: Error) returns (root: Promise, c1: Promise, c2: Promise)
    ensures root.dispatched == [Call(Handler(CatchOp(UserCatch(0)), c1), Failure(e1))]
    ensures c1.state == Rejected && c1.error == Some(e2)
    ensures c1.dispatched == [Call(Handler(CatchOp(UserCatch(1)), c2), Failure(e2))]
  {
    root := RejectedWith(e1);
    c1 := root.CatchInternal(UserCatch(0));
    c1.RunCatchHandler(e1, HandlerThrew(e2), UserCatch(0));
    c2 := c1.CatchInternal(UserCatch(1));
  }

  /**
   * A root promise whose body is still running, with a then-child, cancelled
   * with throwError: it ends RejectedOnCancel with an InterruptedException,
   * which its handler receives, so no uncaught error is reported for it; the
   * child's fail closure then rejects the child with that exception.
   */
  method CancelRootRaising() returns (root: Promise, child: Promise)
    ensures root.state == RejectedOnCancel && root.error == Some(Interrupted)
    ensures root.dispatched == [Call(Handler(ThenOp(UserThen(0)), child), Failure(Interrupted))]
    ensures root.handlers == [] && !ReportDue(root.Data())
    ensures child.state == Rejected && child.error == Some(Interrupted)
  {
    root := new Promise.Root();
    child := root.ThenInternal(UserThen(0));
    ghost var h := Handler(ThenOp(UserThen(0)), child);
    assert [h][..0] == [];
    assert Calls([h], Failure(Interrupted)) == [Call(h, Failure(Interrupted))];
    root.Cancel(true, {root});
    child.ForwardRejection(Interrupted, ThenOp(UserThen(0)));
  }

  /**
   * `a.thenChain { cp }` after `a` is fulfilled, with cp a root promise
   * whose body is still running: the chain action's closure makes cp the
   * chained promise and wires a then-child t and a catch-child c onto it.
   */
  method WireChain() returns (a: Promise, outer: Promise, cp: Promise, t: Promise, c: Promise)
    ensures fresh(a) && fresh(outer) && fresh(cp) && fresh(t) && fresh(c)
    ensures Promise.Closed({a, outer, cp})
    ensures outer != a && outer != cp && a != cp && t != outer && c != outer && t != c
    ensures t != a && t != cp && c != a && c != cp
    ensures outer.parent == a && outer.thenChainPromise == cp && outer.Data() == Fresh(NoFuture)
    ensures cp.Data() == Fresh(Submitted(false, false)).(handlers := [Handler(ThenOp(ResolveOuter(outer)), t)])
    ensures t.Valid() && t.parent == cp && t.Data() == Fresh(NoFuture).(handlers := [Handler(CatchOp(RejectOuter(outer)), c)])
    ensures c.Valid() && c.parent == t && c.Data() == Fresh(NoFuture)
  {
    a := new Promise.Detached();
    outer := a.ThenChainInternal(7);
    ghost var h0 := Handler(ThenChainOp(7), outer);
    assert Calls([h0], Success(Unit)) == [Call(h0, Success(Unit))];
    a.Resolve(Some(Unit));
    cp := new Promise.Root();
    t, c := outer.RunChainAction(ReturnedPromise(cp), 7, Unit);
  }

  /**
   * `cancel(true)` on the thenChain child wired by WireChain: the child is
   * marked Canceled with the flag, and the cancel reaches cp through
   * `thenChainPromise`, which ends RejectedOnCancel and logs the failure
   * call to t.
   */
  method CancelChained(a: Promise, outer: Promise, cp: Promise, t: Promise)
    requires Promise.Closed({a, outer, cp})
    requires outer != a && outer != cp && a != cp
    requires outer.thenChainPromise == cp && outer.Data() == Fresh(NoFuture)
    requires cp.Data() == Fresh(Submitted(false, false)).(handlers := [Handler(ThenOp(ResolveOuter(outer)), t)])
    modifies a, outer, cp
    ensures outer.Valid() && outer.state == Canceled && outer.shouldThrowErrorOnCancel
    ensures cp.state == RejectedOnCancel && cp.error == Some(Interrupted)
    ensures cp.dispatched == [Call(Handler(ThenOp(ResolveOuter(outer)), t), Failure(Interrupted))]
  {
    ghost var h1 := Handler(ThenOp(ResolveOuter(outer)), t);
    assert Calls([h1], Failure(Interrupted)) == [Call(h1, Failure(Interrupted))];
    ghost var U := {a, outer, cp};
    ghost var S0 := Promise.Snap(U);
    assert S0[cp] == cp.Data();
    outer.Cancel(true, U);
    assert Promise.Links(U)[outer] == cp;
    assert Promise.Snap(U)[cp] == cp.Data();
    assert cp.Data() == CancelOwn(S0[cp], true);
  }

  /**
   * The calls the cancel of CancelChained logged, played in log order: t's
   * fail closure rejects t, whose dispatch calls c's catch closure, which
   * rejects the thenChain child with the InterruptedException and c quietly.
   */
  method PlayChainWiring(outer: Promise, cp: Promise, t: Promise, c: Promise)
    requires outer.Valid() && outer.state == Canceled && outer.shouldThrowErrorOnCancel
    requires t.Valid() && t.parent == cp && t.Data() == Fresh(NoFuture).(handlers := [Handler(CatchOp(RejectOuter(outer)), c)])
    requires c.Valid() && c.parent == t && c.Data() == Fresh(NoFuture)
    requires cp.dispatched == [Call(Handler(ThenOp(ResolveOuter(outer)), t), Failure(Interrupted))]
    requires t != outer && c != outer && t != c && cp != t && cp != c
    modifies outer, t, c
    ensures t.state == Rejected && t.error == Some(Interrupted)
    ensures c.state == Rejected && !ReportDue(c.Data())
    ensures outer.state == RejectedOnCancel && outer.error == Some(Interrupted)
  {
    t.ForwardRejection(Interrupted, ThenOp(ResolveOuter(outer)));
    ghost var h2 := Handler(CatchOp(RejectOuter(outer)), c);
    assert Calls([h2], Failure(Interrupted)) == [Call(h2, Failure(Interrupted))];
    c.RunRejectOuter(outer, Interrupted);
  }

  /**
   * `a.thenChain { cp }`, then `cancel(true)` on the thenChain child, with
   * the logged calls played in log order: the cancel reaches cp through
   * `thenChainPromise`, and the closures wired by thenChain carry cp's
   * InterruptedException back, so the child itself ends RejectedOnCancel.
   */
  method CancelThroughChain() returns (a: Promise, outer: Promise, cp: Promise, t: Promise, c: Promise)
    ensures cp.state == RejectedOnCancel && cp.error == Some(Interrupted)
    ensures t.state == Rejected && t.error == Some(Interrupted)
    ensures c.state == Rejected && !ReportDue(c.Data())
    ensures outer.state == RejectedOnCancel && outer.error == Some(Interrupted)
  {
    a, outer, cp, t, c := WireChain();
    CancelChained(a, outer, cp, t);
    PlayChainWiring(outer, cp, t, c);
  }

  /**
   * `Promise.resolve("abc").catch { .. }.then { .. }`: the catch child never
   * settles, since its handler has no thenAction, so the then-action is never
   * called and the value does not reach it.
   */
  method CatchThen() returns (root: Promise, c: Promise, t: Promise)
    ensures root.state == Fulfilled && root.dispatched == []
    ensures c.state == Pending && c.dispatched == [] && c.handlers == [Handler(ThenOp(UserThen(1)), t)]
    ensures t.state == Pending && t.dispatched == []
  {
    root := ResolvedWith(Some(Atom(0)));
    c := root.CatchInternal(UserCatch(0));
    t := c.ThenInternal(UserThen(1));
  }

  /**
   * A root promise rejected with e, with a catch-child and a then-child: the
   * catch handler is called once, and the then-child, rejected with e and
   * with no handler of its own, still has an uncaught report due, since the
   * check looks only at its own errorCatched.
   */
  method CatchFork(e: Error) returns (root: Promise, c: Promise, t: Promise)
    ensures root.dispatched == [Call(Handler(CatchOp(UserCatch(0)), c), Failure(e)), Call(Handler(ThenOp(UserThen(1)), t), Failure(e))]
    ensures !ReportDue(root.Data()) && !ReportDue(c.Data())
    ensures t.state == Rejected && t.error == Some(e) && ReportDue(t.Data())
  {
    root := new Promise.Root();
    c := root.CatchInternal(UserCatch(0));
    t := root.ThenInternal(UserThen(1));
    ghost var hc := Handler(CatchOp(UserCatch(0)), c);
    ghost var ht := Handler(ThenOp(UserThen(1)), t);
    assert Calls([hc, ht], Failure(e)) == [Call(hc, Failure(e)), Call(ht, Failure(e))] by {
      assert [hc, ht][..1] == [hc];
      assert [hc][..0] == [];
    }
    assert root.handlers == [hc, ht];
    root.Reject(e);
    assert root.dispatched == [Call(hc, Failure(e)), Call(ht, Failure(e))];
    c.RunCatchHandler(e, Completed, UserCatch(0));
    t.ForwardRejection(e, ThenOp(UserThen(1)));
  }
}
