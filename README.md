# PromiseKt in Dafny

A model of the core of PromiseKt, a small Kotlin promise library, with proofs about it. The model covers:

- the `Promise` class: its five-state life cycle, `resolve`, `reject`, `handle`, `cancel`, `timeout` and `isDone`;
- the derivation operators `then`, `thenChain` and `catch`, and the closures they register;
- the companion `resolve`, `reject`, `all` and `race`;
- the `PromiseState` enumeration with its `valueOf` lookup;
- the `ReadWriteLazy` property delegate.

The project is split into these modules:

- `PromiseStates` (PromiseState.dfy): the enumeration, ordinals, and `valueOf` as a lookup in the map that `associateBy` builds.
- `PromiseSpec` (PromiseSpec.dfy): the pure state machine of one promise. Its mutable fields are gathered in a `PromiseData` value, and each operation is a step function on it: `HandleStep`, `ResolveStep`, `RejectStep`, `CancelOwn`, `TimeoutStep`. The lemmas cover three things:
  - settlement happens at most once;
  - the queue discipline: who is called, with what, and in which order;
  - when the uncaught-error check reports.
- `PromiseCore` (Promise.dfy): `class Promise`, with one field per mutable field of the Kotlin class. Each method is proved to perform its step function on `Data()`.
  - `handle` does not run a handler's closure. It appends a `Call(handler, outcome)` to the promise's `dispatched` log.
  - Running a closure is a separate method on the child promise it settles (`RunThenAction`, `ForwardRejection`, `RunChainAction`, `RunCatchHandler`, `RunResolveOuter`, `RunRejectOuter`). What the user's code did (returned, returned null, threw) is a parameter. In the Kotlin code the closure runs at once inside `handle`; see "Synchronous closures" under "## Left out".
  - `cancel` recurses over the chained promise and the parent. It is proved over a ghost set `U` of promises closed under both links, and it terminates because the set of Pending promises in `U` shrinks.
- `PromiseCombinators` (Combinators.dfy): `all` and `race`. The inputs' outcomes arrive as a sequence of events in completion order. Each combinator is an imperative loop over those events, proved against a fold or a first-event function, and the lemmas are about that function.
- `ReadWriteLazyCell` (ReadWriteLazy.dfy): the lazily initialised, overwritable cell.
- `PromiseScenarios` (Scenarios.dfy): whole-chain runs taken from the repository's tests. Three follow tests the code satisfies, one is a cancel through a `thenChain` wiring, and two show what the code does where a test expects something else (below).

In several places this code behaves differently from what a reader used to Promises/A+-style libraries would expect. The model follows the code:

- **Uncaught-error check.** The check that `reject` schedules looks only at the rejected promise's own `errorCatched` flag. It does not walk up the parent chain. `handle` sets that flag only on the promise it is called on.
- **`catch` on a fulfilled parent.** A `catch` child of a fulfilled parent is never settled. `catchInternal` registers no `thenAction`, so the value is not passed through (`CatchIgnoresFulfilment`).
- **Queue after `cancel`.** `cancel` does not clear the handler queue. A Canceled promise keeps its queue and dispatches it if a later `reject` moves it to RejectedOnCancel. While Canceled, `handle` drops new handlers: they are neither queued nor called.
- **A throwing success closure.** If a success closure throws inside `handle`, the exception goes to `reject` of the promise that is already Fulfilled, which ignores it. The only case is `value!!` on a null value, since user code is wrapped by the closure itself. So a promise fulfilled with null calls none of its then-handlers (`ResolveNullCallsNobody` for the queued ones, `HandleStep` for later ones).

For the first two of these, the repository's own tests expect the opposite of what the code does. There the model follows the code, and a scenario shows the code's behaviour:

- `catchThenTest` (PromiseKtTest.kt:795-811) expects `Promise.resolve("abc").catch { .. }.then { .. }` to deliver "abc" to the then-action. In the code the catch child never settles, because `catchInternal` registers `PromiseHandler(null)` (Promise.kt:435). So the test's `latch.await()` would not return. `CatchThen` shows the then-action is never called.
- `catchForkTest` (PromiseKtTest.kt:814-837) expects the counter to be 1. In the code the then-child, rejected with the parent's error and with no handler of its own, still has its uncaught check due. So `uncaughtError` is called as well as the catch handler, and the counter reaches 2. `CatchFork` shows the report is due.

The test file also uses members this `Promise.kt` does not have: `mState` at line 594, and `done` at lines 878 and 896. So it was written against a different revision of the class. The model follows `Promise.kt` as it stands.

## Model

| member | source | states |
|---|---|---|
| PromiseStates.Ordinal | promisekt/src/main/java/com/swarmnyc/promisekt/PromiseState.kt:3-8 | the ordinal of a state is its position in the declaration order |
| PromiseStates.OrdinalInjective | promisekt/src/main/java/com/swarmnyc/promisekt/PromiseState.kt:3-8 | no two states share an ordinal |
| PromiseStates.ByOrdinal | promisekt/src/main/java/com/swarmnyc/promisekt/PromiseState.kt:11 | the `associateBy` map sends each state's ordinal to that state, and every key is the ordinal of its entry |
| PromiseStates.ByOrdinalShape | promisekt/src/main/java/com/swarmnyc/promisekt/PromiseState.kt:11 | the map has exactly the keys 0 to 4 |
| PromiseStates.ValueOf | promisekt/src/main/java/com/swarmnyc/promisekt/PromiseState.kt:13 | `valueOf(n)` is non-null exactly for 0 <= n < 5, and then it is the state with ordinal n |
| PromiseStates.ValueOfOrdinal | promisekt/src/main/java/com/swarmnyc/promisekt/PromiseState.kt:11-13 | `valueOf(s.ordinal) == s` for every state |
| PromiseStates.OrdinalOfValueOf | promisekt/src/main/java/com/swarmnyc/promisekt/PromiseState.kt:11-13 | the inverse round trip: every valid ordinal maps to a state with that ordinal |
| PromiseSpec.Fresh | promisekt/src/main/java/com/swarmnyc/promisekt/Promise.kt:137-154 | a new promise is Pending with an empty queue, and the field invariants hold |
| PromiseSpec.HandleStep | promisekt/src/main/java/com/swarmnyc/promisekt/Promise.kt:228-252 | `handle` keeps the state; the queue grows by the handler exactly when Pending and is otherwise left alone; a Canceled promise, and a fulfilled one whose value is null or whose handler has no then-action, is left entirely unchanged; the invariants are kept |
| PromiseSpec.HandleSettled | promisekt/src/main/java/com/swarmnyc/promisekt/Promise.kt:234-250 | on a promise settled with an outcome, `handle` records exactly that handler's reaction to it; a failure marks the error caught |
| PromiseSpec.ResolveStep | promisekt/src/main/java/com/swarmnyc/promisekt/Promise.kt:181-192 | `resolve` changes the promise exactly when it was Pending, and then it becomes Fulfilled; the state only moves forward and the invariants are kept |
| PromiseSpec.RejectStep | promisekt/src/main/java/com/swarmnyc/promisekt/Promise.kt:194-226 | `reject` changes the promise exactly when it is Pending, or Canceled with shouldThrowErrorOnCancel; the state only moves forward and the invariants are kept |
| PromiseSpec.InterruptStep | promisekt/src/main/java/com/swarmnyc/promisekt/Promise.kt:303-316 | the future block of `cancel` leaves a Canceled promise Canceled or RejectedOnCancel and keeps the recorded flag; without the flag the promise stays Canceled, and RejectedOnCancel always carries an InterruptedException; the invariants are kept |
| PromiseSpec.CancelOwn | promisekt/src/main/java/com/swarmnyc/promisekt/Promise.kt:293-316 | `cancel` leaves a non-Pending promise as it is, and moves a Pending one to Canceled or RejectedOnCancel, recording throwError; with throwError unset it stays Canceled, and RejectedOnCancel carries an InterruptedException |
| PromiseSpec.TimeoutStep | promisekt/src/main/java/com/swarmnyc/promisekt/Promise.kt:325-342 | `timeout` schedules a check carrying its throwError flag only while Pending, and otherwise changes nothing |
| PromiseSpec.SettledIgnoresResolveAndReject | promisekt/src/main/java/com/swarmnyc/promisekt/Promise.kt:184-212 | a settled promise ignores `resolve`, and ignores `reject` unless it is Canceled with throwError (both directions) |
| PromiseSpec.ResolveThenReject | promisekt/src/main/java/com/swarmnyc/promisekt/Promise.kt:181-226 | after a resolve, a reject is a no-op and the value stays |
| PromiseSpec.RejectThenResolve | promisekt/src/main/java/com/swarmnyc/promisekt/Promise.kt:181-226 | after a reject, a resolve is a no-op; the promise is Rejected with that error |
| PromiseSpec.RejectTwice | promisekt/src/main/java/com/swarmnyc/promisekt/Promise.kt:194-226 | a second reject never changes anything, so RejectedOnCancel is reached at most once |
| PromiseSpec.CancelQuietlyThenReject | promisekt/src/main/java/com/swarmnyc/promisekt/Promise.kt:202-205 | after `cancel(false)` the promise is Canceled and every reject is a no-op |
| PromiseSpec.CancelRaisingThenReject | promisekt/src/main/java/com/swarmnyc/promisekt/Promise.kt:202-208 | after `cancel(true)` without a future, the first reject moves the promise to RejectedOnCancel with its error, and later rejects change nothing |
| PromiseSpec.CancelRaisingWithFuture | promisekt/src/main/java/com/swarmnyc/promisekt/Promise.kt:303-316 | `cancel(true)` on a promise with a running body cancels the future and ends RejectedOnCancel with an InterruptedException |
| PromiseSpec.CallsFromQueue | promisekt/src/main/java/com/swarmnyc/promisekt/Promise.kt:181-226 | dispatching a queue calls each handler that reacts to the outcome exactly as many times as it is queued, with that outcome, and calls no other handler |
| PromiseSpec.Calls | promisekt/src/main/java/com/swarmnyc/promisekt/Promise.kt:181-226 | dispatching makes no more calls than there are queued handlers, each with the outcome and to a handler that reacts to it |
| PromiseSpec.CallsInOrder | promisekt/src/main/java/com/swarmnyc/promisekt/Promise.kt:181-226 | when every queued handler reacts, the i-th call is to the i-th handler, in registration order |
| PromiseSpec.CallsAppend | promisekt/src/main/java/com/swarmnyc/promisekt/Promise.kt:181-226 | dispatching a concatenated queue makes the calls of the first part, then those of the second |
| PromiseSpec.FailureReachesEveryHandler | promisekt/src/main/java/com/swarmnyc/promisekt/Promise.kt:222-225 | a rejection calls every queued handler exactly once, in order, with the error |
| PromiseSpec.ResolveDispatchesQueue | promisekt/src/main/java/com/swarmnyc/promisekt/Promise.kt:186-191 | resolving a queue of then-handlers extends the log by one call per handler, in order, with the value, and empties the queue |
| PromiseSpec.ResolveNullCallsNobody | promisekt/src/main/java/com/swarmnyc/promisekt/Promise.kt:181-192 | resolving a Pending promise with null fulfils it, empties its queue and calls none of the queued handlers |
| PromiseSpec.CatchIgnoresFulfilment | promisekt/src/main/java/com/swarmnyc/promisekt/Promise.kt:431-455 | a catch handler on a fulfilled promise is not called at all |
| PromiseSpec.RejectedCallsFailureOnly | promisekt/src/main/java/com/swarmnyc/promisekt/Promise.kt:244-250 | a handler on a rejected promise gets exactly one failure call, and the error is marked caught |
| PromiseSpec.RegisterAroundResolve | promisekt/src/main/java/com/swarmnyc/promisekt/Promise.kt:181-233 | registering a handler just before or just after a resolve gives the same final state: exactly one of the two paths calls it |
| PromiseSpec.RegisterAroundReject | promisekt/src/main/java/com/swarmnyc/promisekt/Promise.kt:194-233 | registering a handler just before or just after a reject makes the same calls, ending with that handler's failure call, and leaves no uncaught report due in either order |
| PromiseSpec.RejectReportsOnlyUnhandled | promisekt/src/main/java/com/swarmnyc/promisekt/Promise.kt:217-225 | after a reject, an uncaught report is due exactly when the queue was empty and uncaught reporting is on |
| PromiseSpec.ReportDue | promisekt/src/main/java/com/swarmnyc/promisekt/Promise.kt:254-271 | a report is due only when there is an error to report, so the `error!!` of the check cannot fail |
| PromiseSpec.HandlerSuppressesReport | promisekt/src/main/java/com/swarmnyc/promisekt/Promise.kt:244-262 | a handler registered on a rejected promise before its check runs cancels the report |
| PromiseSpec.DoneIsStable | promisekt/src/main/java/com/swarmnyc/promisekt/Promise.kt:178-179 | once done, no operation makes a promise Pending again, and `timeout` does nothing |
| PromiseCore.Promise.Detached | promisekt/src/main/java/com/swarmnyc/promisekt/Promise.kt:133 | `Promise()` is fresh, with no parent and no future |
| PromiseCore.Promise.Root | promisekt/src/main/java/com/swarmnyc/promisekt/Promise.kt:119-131 | `Promise(executor)` is fresh and its body has been submitted (a running future) |
| PromiseCore.Promise.Derived | promisekt/src/main/java/com/swarmnyc/promisekt/Promise.kt:108-117 | `Promise(options, parent)` is fresh and remembers its parent |
| PromiseCore.Promise.IsDone | promisekt/src/main/java/com/swarmnyc/promisekt/Promise.kt:178-179 | `isDone` is true exactly when the state is not Pending |
| PromiseCore.Promise.Handle | promisekt/src/main/java/com/swarmnyc/promisekt/Promise.kt:228-252 | the fields after `handle` are `HandleStep` of the fields before |
| PromiseCore.Promise.DispatchQueue | promisekt/src/main/java/com/swarmnyc/promisekt/Promise.kt:189-191 | the `forEach(::handle)` loop over the queue of a settled promise appends the queue's calls to the log and marks a failure caught |
| PromiseCore.Promise.Resolve | promisekt/src/main/java/com/swarmnyc/promisekt/Promise.kt:181-192 | the fields after `resolve` are `ResolveStep` of the fields before |
| PromiseCore.Promise.Reject | promisekt/src/main/java/com/swarmnyc/promisekt/Promise.kt:194-226 | the fields after `reject` are `RejectStep` of the fields before |
| PromiseCore.Promise.RunUncaughtCheck | promisekt/src/main/java/com/swarmnyc/promisekt/Promise.kt:254-271 | the scheduled check reports the error exactly when a report was due, and is then spent |
| PromiseCore.Promise.Cancel | promisekt/src/main/java/com/swarmnyc/promisekt/Promise.kt:278-319 | this promise ends as `CancelOwn` of its old fields. Every other promise reachable by the links either is unchanged or is cancelled by `CancelOwn`. A Pending promise's chained promise and parent end non-Pending. On a non-Pending promise nothing changes |
| PromiseCore.Promise.MarkAndChain | promisekt/src/main/java/com/swarmnyc/promisekt/Promise.kt:295-301 | records the flag, marks Canceled and cancels the chained promise, which ends non-Pending |
| PromiseCore.Promise.Mark | promisekt/src/main/java/com/swarmnyc/promisekt/Promise.kt:295-296 | records the flag and marks Canceled, changing nothing else |
| PromiseCore.Promise.Cascade | promisekt/src/main/java/com/swarmnyc/promisekt/Promise.kt:299-318 | `q?.cancel(throwError)` leaves q non-Pending, and cancels other promises only by `CancelOwn` |
| PromiseCore.Promise.StopFuture | promisekt/src/main/java/com/swarmnyc/promisekt/Promise.kt:303-316 | the future block of `cancel` performs `InterruptStep` and changes no other promise |
| PromiseCore.Promise.Timeout | promisekt/src/main/java/com/swarmnyc/promisekt/Promise.kt:325-342 | `timeout` returns this, and its fields after are `TimeoutStep` of the fields before |
| PromiseCore.Promise.RunTimeout | promisekt/src/main/java/com/swarmnyc/promisekt/Promise.kt:329-339 | a scheduled timeout check, run, cancels with its flag if the promise is still Pending, and otherwise only spends itself and leaves every other promise alone; either way every promise reachable by the links is unchanged or cancelled by `CancelOwn` with that flag, and the links are kept |
| PromiseCore.Promise.ThenInternal | promisekt/src/main/java/com/swarmnyc/promisekt/Promise.kt:353-377 | returns a fresh child of this promise and registers the then-handler for it |
| PromiseCore.Promise.ThenChainInternal | promisekt/src/main/java/com/swarmnyc/promisekt/Promise.kt:387-421 | returns a fresh child of this promise and registers the thenChain handler for it |
| PromiseCore.Promise.CatchInternal | promisekt/src/main/java/com/swarmnyc/promisekt/Promise.kt:431-455 | returns a fresh child of this promise and registers the catch handler for it |
| PromiseCore.Promise.RunThenAction | promisekt/src/main/java/com/swarmnyc/promisekt/Promise.kt:357-365 | run only for a then-call the parent has dispatched to this child with its value: the action's result resolves the child and its exception rejects it |
| PromiseCore.Promise.ForwardRejection | promisekt/src/main/java/com/swarmnyc/promisekt/Promise.kt:372-375 | run only for a failure call the parent has dispatched to this then- or thenChain-child: the parent's error rejects a Pending child with that same error |
| PromiseCore.Promise.RunChainAction | promisekt/src/main/java/com/swarmnyc/promisekt/Promise.kt:392-409 | run only for a thenChain call the parent has dispatched to this child with its value: a returned promise becomes the chained promise, with a then-child resolving this one and a catch-child rejecting it; the two wired children have no chained promise, and the returned promise keeps its own link; a thrown error rejects this one |
| PromiseCore.Promise.RunCatchHandler | promisekt/src/main/java/com/swarmnyc/promisekt/Promise.kt:436-446 | run only for a catch call the parent has dispatched to this child with that error: a handler that returns rejects the child quietly with the original error, so no report is due; one that throws rejects it with the new error |
| PromiseCore.Promise.RunResolveOuter | promisekt/src/main/java/com/swarmnyc/promisekt/Promise.kt:399-400 | run only for the call the inner promise has dispatched to this then-child with its value: the value resolves the outer child, and this child with Unit |
| PromiseCore.Promise.RunRejectOuter | promisekt/src/main/java/com/swarmnyc/promisekt/Promise.kt:401-402 | run only for the call the inner `then` child has dispatched to this catch-child with the error: the error rejects the outer child, and this child quietly |
| PromiseCore.CancelKeepsSettled | promisekt/src/main/java/com/swarmnyc/promisekt/Promise.kt:293 | a cancellation cascade leaves any promise that is not Pending unchanged |
| PromiseCore.CancelShrinksPending | promisekt/src/main/java/com/swarmnyc/promisekt/Promise.kt:293-318 | a cancellation cascade never makes a promise Pending again |
| PromiseCore.CancelledTrans | promisekt/src/main/java/com/swarmnyc/promisekt/Promise.kt:299-318 | two cascades compose into one: each promise is cancelled at most once |
| PromiseCore.ResolvedWith | promisekt/src/main/java/com/swarmnyc/promisekt/Promise.kt:46-50 | companion `resolve(v)` returns a fresh promise, Fulfilled with v, that has called nobody |
| PromiseCore.RejectedWith | promisekt/src/main/java/com/swarmnyc/promisekt/Promise.kt:52-57 | companion `reject(e)` returns a fresh promise, Rejected with e, with no uncaught report pending |
| PromiseCombinators.AllStep | promisekt/src/main/java/com/swarmnyc/promisekt/Promise.kt:72-81 | a fulfilment stores its value in its slot and counts once, a rejection does neither; a settled result stays; the first rejection rejects, and the fulfilment that brings the count to the number of inputs fulfils with the array |
| PromiseCombinators.AllCounts | promisekt/src/main/java/com/swarmnyc/promisekt/Promise.kt:69-76 | the counter of `all` equals the number of fulfilments so far |
| PromiseCombinators.AllFulfilsAtCount | promisekt/src/main/java/com/swarmnyc/promisekt/Promise.kt:76-78 | the result is fulfilled only once the counter has reached the number of inputs, and with the array as it stood then |
| PromiseCombinators.AllSlots | promisekt/src/main/java/com/swarmnyc/promisekt/Promise.kt:74 | slot i of the array holds the value of input i's fulfilment |
| PromiseCombinators.AllSettledStays | promisekt/src/main/java/com/swarmnyc/promisekt/Promise.kt:76-81 | once settled, the result of `all` stays as it is whatever events follow |
| PromiseCombinators.AllUnsettledBelow | promisekt/src/main/java/com/swarmnyc/promisekt/Promise.kt:76 | fewer fulfilments than inputs, and no rejection, leave the result Pending |
| PromiseCombinators.EventsBound | promisekt/src/main/java/com/swarmnyc/promisekt/Promise.kt:72-82 | with one report per input, there are no more events than inputs |
| PromiseCombinators.EventsCover | promisekt/src/main/java/com/swarmnyc/promisekt/Promise.kt:72-82 | once as many events as inputs have arrived, every input has reported |
| PromiseCombinators.AllInputOrder | promisekt/src/main/java/com/swarmnyc/promisekt/Promise.kt:67-84 | a fulfilled result holds n values, every input was fulfilled, and slot i holds input i's value whatever the completion order |
| PromiseCombinators.AllFirstRejectionWins | promisekt/src/main/java/com/swarmnyc/promisekt/Promise.kt:79-81 | the first rejection, arriving before the result is fulfilled, rejects it with that error |
| PromiseCombinators.AllFulfilsWhenEveryInputDoes | promisekt/src/main/java/com/swarmnyc/promisekt/Promise.kt:72-78 | with at least one input, all inputs fulfilled fulfil the result |
| PromiseCombinators.AllEmptyNeverSettles | promisekt/src/main/java/com/swarmnyc/promisekt/Promise.kt:67-84 | as written, `all()` of no promises never settles, though no input failed |
| PromiseCombinators.AllFulfilsCorrected | promisekt/src/main/java/com/swarmnyc/promisekt/Promise.kt:67-84 | corrected, all inputs fulfilled fulfil the result for any number of inputs, and the empty case gives an empty array |
| PromiseCombinators.AllAsWritten | promisekt/src/main/java/com/swarmnyc/promisekt/Promise.kt:67-84 | the loop over the events leaves the result promise where `AllFold` says |
| PromiseCombinators.All | promisekt/src/main/java/com/swarmnyc/promisekt/Promise.kt:67-84 | `all` with the empty case fixed leaves its result where the corrected settlement says |
| PromiseCombinators.RaceSettlement | promisekt/src/main/java/com/swarmnyc/promisekt/Promise.kt:94-101 | `race` stays Pending exactly when no outcome has arrived, and otherwise settles with the first outcome's value or error |
| PromiseCombinators.RaceIgnoresLater | promisekt/src/main/java/com/swarmnyc/promisekt/Promise.kt:94-101 | outcomes arriving after the first do not change the result of `race` |
| PromiseCombinators.Race | promisekt/src/main/java/com/swarmnyc/promisekt/Promise.kt:90-105 | the get-then-set flag lets exactly the first outcome settle the result: Pending with no outcomes, otherwise the first one's value or error |
| ReadWriteLazyCell.ReadWriteLazy.constructor | promisekt/src/main/java/com/swarmnyc/promisekt/util/ReadWriteLazy.kt:8-10 | a new cell is empty and has not run its initializer |
| ReadWriteLazyCell.ReadWriteLazy.GetValue | promisekt/src/main/java/com/swarmnyc/promisekt/util/ReadWriteLazy.kt:12-19 | a filled cell returns its value without running the initializer; an empty one runs it once, keeping a non-null result and returning it; a null result raises IllegalStateException and leaves the cell empty |
| ReadWriteLazyCell.ReadWriteLazy.SetValue | promisekt/src/main/java/com/swarmnyc/promisekt/util/ReadWriteLazy.kt:21-23 | `setValue` stores the value, null included |
| ReadWriteLazyCell.NewReadWriteLazy | promisekt/src/main/java/com/swarmnyc/promisekt/util/ReadWriteLazy.kt:6 | `readWriteLazy` returns a new empty cell over the initializer |
| ReadWriteLazyCell.ReadTwice | promisekt/src/main/java/com/swarmnyc/promisekt/util/ReadWriteLazy.kt:12-19 | after a successful read, a second read returns the same value, and the initializer has run at most once |
| ReadWriteLazyCell.SetThenRead | promisekt/src/main/java/com/swarmnyc/promisekt/util/ReadWriteLazy.kt:12-23 | after setting a non-null value, a read returns it without running the initializer |
| ReadWriteLazyCell.ClearThenRead | promisekt/src/main/java/com/swarmnyc/promisekt/util/ReadWriteLazy.kt:12-23 | after setting null, a read runs the initializer again |
| PromiseScenarios.TwoCatches | promisekt/src/test/java/com/swarmnyc/promisekt/PromiseKtTest.kt:245-267 | `reject(e).then{..}.catch{..}.catch{..}`: the then-action never runs, and both catch handlers are called with e |
| PromiseScenarios.CatchRethrows | promisekt/src/test/java/com/swarmnyc/promisekt/PromiseKtTest.kt:270-288 | `reject(e1).catch{ throw e2 }.catch{..}`: the second handler gets e2 |
| PromiseScenarios.CancelThroughChain | promisekt/src/test/java/com/swarmnyc/promisekt/PromiseKtTest.kt:740-765 | the part of timeout5Test's cascade that starts at the `thenChain` child: `cancel(true)` on it reaches the chained root cp, which ends RejectedOnCancel with an InterruptedException; the closures the chain wired then reject the `then` child t and quietly reject the `catch` child c; the thenChain child itself ends RejectedOnCancel with the same exception |
| PromiseScenarios.CatchThen | promisekt/src/test/java/com/swarmnyc/promisekt/PromiseKtTest.kt:795-811 | as the code is written, `resolve(v).catch{..}.then{..}` calls neither handler: the catch child and the then child stay Pending |
| PromiseScenarios.CatchFork | promisekt/src/test/java/com/swarmnyc/promisekt/PromiseKtTest.kt:814-837 | as the code is written, a rejected root with a catch child and a then child calls each with the error, and the then child still has an uncaught report due, so the test's counter reaches 2 |
| PromiseScenarios.CancelRootRaising | promisekt/src/test/java/com/swarmnyc/promisekt/PromiseKtTest.kt:598-623 | `cancel(true)` on a running root with a then-child ends RejectedOnCancel with an InterruptedException, which its handler receives; no uncaught report is due for the root, and the child's fail closure rejects the child with that exception |

## Left out

- Threads and executors. Each task the code submits is a method the caller runs when it chooses: the body of a root promise, the uncaught-error check (`RunUncaughtCheck`) and the timeout checks (`RunTimeout`). The atomic state field and every interleaving between threads are not modelled.
- PromiseCore.Promise.RunUncaughtCheck: the five 10 ms polls collapse to one look, since nothing changes `errorCatched` between polls without other threads. The global `uncaughtError` handler, which by default logs and rethrows, is modelled only as the returned report.
- The body of a root promise is not run inside the constructor. The caller plays it with `Resolve` and `Reject`. An InterruptedException the body swallows after `Future.cancel(true)` is not modelled.
- The future is kept abstractly as "not submitted", or "submitted" with its done and cancelled flags. Thread interruption and a body completing on its own are not modelled.
- `PromiseOptions`, `defaultOptions` (built through reflection by `readWriteLazy`), logging (`log`, `id`, `debugMode`) and `executedAt` do nothing to the state machine.
- `thenUi`, `thenChainUi` and `catchUi` differ from `then`, `thenChain` and `catch` only in the executor that runs the closure. The model names the internal operators, which all the public ones call.
- User values are the abstract datatype `Value`, with `Items` for `Array<Any>`. User errors are the abstract datatype `Error`. A null fulfilment is `None`.
- all and race:
  - The intermediate then- and catch-promises that `all` and `race` register on each input are not modelled as promise objects. Each input's outcome is an event.
  - A null fulfilment produces no event, because `handle` fails on `value!!` before the closure runs.
  - The overloads taking a collection, varargs or default options are the same operation.
- Synchronous closures. `then`, `thenChain` and `catch` pass no executor, so the Kotlin code runs each closure at once, inside `handle` (`action.run()` at Promise.kt:367-368, 411-412 and 448-449). The model logs the call in `dispatched` instead, and the closure is run afterwards by a `Run...` method. So the contracts of `Resolve`, `Reject`, `Cancel`, `ThenInternal`, `ThenChainInternal` and `CatchInternal` describe the state before the logged closures run. For example:
  - In Kotlin, `Promise.resolve(v).then { .. }` returns a child that is already settled. `ThenInternal` returns it Pending, with the call logged on the parent.
  - A `cancel` whose cascade rejects a promise wired by `thenChain` also settles the outer promise through those closures, possibly the cancelled promise itself, before it returns. `Cancel` states only the fields `CancelOwn` sets.
  The Kotlin behaviour is the schedule in which the caller plays each logged call immediately, in log order, as the scenarios in Scenarios.dfy do.
- PromiseCore.Promise.RunChainAction and the other `Run...` methods require the call they play to be in the parent's `dispatched` log, but they do not consume it. The model does not rule out playing one logged call twice, for example wiring a second chained promise. The Kotlin code runs each closure exactly once per dispatched call.
- PromiseCore.Promise.Cancel: the postcondition states only the immediate chained promise and parent as non-Pending, not the full cascade up every ancestor. Every promise the cascade touches is shown to change only by `CancelOwn`, at most once.
- PromiseCore.Promise.RunTimeout: the delay in milliseconds is not modelled. The caller chooses which scheduled check runs.
- ReadWriteLazyCell.ReadWriteLazy: the initializer may return something different on each run, so it is modelled as a function of the number of runs so far (`runs`). The `thisRef` and `property` arguments, and the exception message, are not modelled.
- PromiseCore.RejectedWith: the companion `reject` runs its body on the executor. The model runs it before returning, so a handler can only be registered after the reject. `RegisterAroundReject` shows that registering before the reject leads to the same calls and no report.
- ReadWriteLazyCell.ReadWriteLazy.GetValue: an initializer that throws is not modelled. The exception would leave the cell empty, just like the null case at ReadWriteLazy.kt:14.
- `Await.kt` and the Android options are not part of this model.

## Findings

| source | as written | input that shows it | evidently intended | confidence | as-written member | corrected member |
|---|---|---|---|---|---|---|
| promisekt/src/main/java/com/swarmnyc/promisekt/Promise.kt:67-84 | `all` resolves only inside an input's then-closure, when the incremented counter equals the number of inputs | `Promise.all()` with no promises: no closure ever runs, so the result stays Pending for ever | fulfil at once with an empty array | not executed | PromiseCombinators.AllEmptyNeverSettles | PromiseCombinators.AllFulfilsCorrected |
