# ReactiveCascade core, modelled in Dafny

ReactiveCascade is an Android library for chaining asynchronous work.

**Alt-futures (`IAltFuture`).** An alt-future is one step of a chain.
- It has one atomic state cell: `ZEN`, `FORKED`, a value, an error state, or a cancelled state.
- It has a set-once link to the future upchain from it.
- It has an append-only list of downstream futures.

**What the model proves about alt-futures.**
- `fork()` climbs the chain and submits one step to its execution context.
- `cancel` and `doOnError` move states one way only.
- The error and cancellation cascades of `doOnError` and `doOnCancelled` reach the downstream futures, with three exceptions:
  - `cancel(StateError)` as written reaches no downstream future (see "## Findings");
  - `doOnError` cascades only while `USE_FORKED_STATE` is off: with it on, its second compare-and-set fails and it stops at the future itself;
  - the `doOnCancelled` override of `OnCancelledAltFuture` never cascades.
- The combinators `then`, `on`, `await`, `onError` and `onCancelled` link the steps they build below the future they are called on. Two do not:
  - `filter` as written returns a step linked to nothing (see "## Findings");
  - the varargs `map` as written throws for every number of actions, and even with the intended arity check its steps are linked to nothing.
- A `CompoundAltFuture` wraps a head-to-tail chain and forwards each call to one of its members.

**Reactive values.**
- `ReactiveValue` is an atomic cell that fires each new value to its subscribers.
- `ReactiveInteger` adds 32-bit atomic arithmetic done in a compare-and-set retry loop.

**Persistence and networking.**
- `PersistentValue` keeps arrays in a `SharedPreferences` string with small codecs, and files each value under a key built from a class's package name.
- `NetUtil` picks the number of connections allowed at once from whether wifi is connected and from the radio technology.

**Data model.**
- All futures of a program live in one arena, `AltFutureState.World`. A future is its index in the arena.
- Each arena holds the links of every future (`Node`), every state cell, the log of work handed to executors, the counters of `await(IAltFuture...)`, and the log of values set on settable futures.
- The arena's invariant `WF` keeps both kinds of link acyclic: an upchain link always points to an older future, and a downstream link always points to a younger one. So `then(f)` and `setUpchain` on two futures that already exist need f to be the younger one (see "## Left out").

**Two layers.**
- `AbstractAltFuture` states each transition as a function on the arena. `AbstractAltFutureProps` proves what those transitions promise.
- `AltFutureGraph.FutureGraph` is the same arena as an object whose fields the Java methods update in place. Each of its methods is proved to leave exactly the state its transition function gives.
- `ReactiveValue.ReactiveValue` is a class with the cell and the log of fired values as fields.
- The `PersistentValue` codecs are methods over arrays. They are proved against the functions `Join` and `Decode`, and the round trips are proved about those functions.

**Configuration and inputs.**
- `Async.USE_FORKED_STATE` and `BuildConfig.DEBUG` are fields of `AltFutureState.Config`. So is the set of thread types whose executor refuses work.
- `isWifi()` and the telephony network type are inputs of `NetUtil`.

## Model

Each source cell gives the file's path in the repository and the lines the member models.

| member | source | states |
|---|---|---|
| Common.Wrap32 | ReactiveCascade/cascade/src/main/java/com/futurice/cascade/reactive/ReactiveInteger.java:81-91 | Java `int` arithmetic wraps around: the result is in the 32-bit range, equal to the exact value when that fits, and congruent to it modulo 2^32 |
| AltFutureState.Get | ReactiveCascade/cascade/src/main/java/com/futurice/cascade/functional/AbstractAltFuture.java:281-292 | `get()` yields the state itself exactly when the future is done and not cancelled, and throws `IllegalStateException` otherwise |
| AltFutureState.SafeGet | ReactiveCascade/cascade/src/main/java/com/futurice/cascade/functional/AbstractAltFuture.java:297-306 | `safeGet()` yields `VALUE_NOT_AVAILABLE` exactly when the future is pending or cancelled, and otherwise the state |
| AltFutureState.SafeGetMatchesGet | ReactiveCascade/cascade/src/main/java/com/futurice/cascade/functional/AbstractAltFuture.java:281-306 | `safeGet` yields nothing exactly where `get` throws, and elsewhere the same state |
| AltFutureState.StateErrorText | ReactiveCascade/cascade/src/main/java/com/futurice/cascade/functional/AbstractAltFuture.java:725-729 | definition of the text `StateError.toString()` gives: "ERROR: reason=", the reason, " error=", then the exception's own text; it is the tail of the reason `UpchainCancellation` builds, which `CompoundAltFuture.CancelByError` states |
| AltFutureState.LinkedFresh | ReactiveCascade/cascade/src/main/java/com/futurice/cascade/functional/AbstractAltFuture.java:113-128 | a newly constructed future, with no links, keeps the link graph acyclic |
| AltFutureState.LinkedSetUpchain | ReactiveCascade/cascade/src/main/java/com/futurice/cascade/functional/AbstractAltFuture.java:270-276 | linking a future to an older upchain future keeps the graph acyclic |
| AltFutureState.LinkedAppend | ReactiveCascade/cascade/src/main/java/com/futurice/cascade/functional/AbstractAltFuture.java:492-504 | listing a younger future downstream keeps the graph acyclic |
| AltFutureState.StepFrameTransitive | ReactiveCascade/cascade/src/main/java/com/futurice/cascade/functional/AbstractAltFuture.java:194-218 | the one-way state machine (no done future becomes pending again; the submission log only grows) composes over several steps |
| AltFutureState.SetState | ReactiveCascade/cascade/src/main/java/com/futurice/cascade/functional/AbstractAltFuture.java:113 | a write of one state cell changes that cell and no other part of the arena |
| AltFutureState.SetStateFrame | ReactiveCascade/cascade/src/main/java/com/futurice/cascade/functional/AbstractAltFuture.java:194-218 | a write that keeps a done future done keeps the arena well formed and respects the one-way state machine |
| AltFutureState.EmptyWorld | ReactiveCascade/cascade/src/main/java/com/futurice/cascade/functional/AbstractAltFuture.java:113-128 | the empty arena is well formed |
| AbstractAltFuture.ForkTarget | ReactiveCascade/cascade/src/main/java/com/futurice/cascade/functional/AbstractAltFuture.java:222-229 | the climb of `fork()` stops at a future no younger than the start whose upchain future is absent or done |
| AbstractAltFuture.ForkW | ReactiveCascade/cascade/src/main/java/com/futurice/cascade/functional/AbstractAltFuture.java:222-246 | `fork()` keeps the arena well formed and moves states only one way |
| AbstractAltFuture.CancelW | ReactiveCascade/cascade/src/main/java/com/futurice/cascade/functional/AbstractAltFuture.java:133-150 | `cancel(String)` keeps the arena well formed and moves states only one way |
| AbstractAltFuture.UpchainCancellation | ReactiveCascade/cascade/src/main/java/com/futurice/cascade/functional/AbstractAltFuture.java:155-175 | definition of the cancelled state `cancel(StateError)` installs: reason "Cancelled by upchain error=" followed by the error's text, and the error as its cause; the install is stated by `CompoundAltFuture.CancelByError` and `AbstractAltFutureProps.CancelWithErrorDoesNotCascade` |
| AbstractAltFuture.ForEachThenW | ReactiveCascade/cascade/src/main/java/com/futurice/cascade/functional/AbstractAltFuture.java:320-336 | `forEachThen` over a downstream list keeps the arena well formed and moves states only one way |
| AbstractAltFuture.ForEachThenStep | ReactiveCascade/cascade/src/main/java/com/futurice/cascade/functional/AbstractAltFuture.java:320-336 | one turn of the loop applies the action to entry i and keeps the first exception |
| AbstractAltFuture.ApplyHook | ReactiveCascade/cascade/src/main/java/com/futurice/cascade/functional/AbstractAltFuture.java:320-336 | the action on one entry keeps the arena well formed and moves states only one way |
| AbstractAltFuture.DoOnCancelledW | ReactiveCascade/cascade/src/main/java/com/futurice/cascade/functional/AbstractAltFuture.java:374-388 | `doOnCancelled` keeps the arena well formed and moves states only one way |
| AbstractAltFuture.DoOnErrorW | ReactiveCascade/cascade/src/main/java/com/futurice/cascade/functional/AbstractAltFuture.java:356-371 | `doOnError` keeps the arena well formed and moves states only one way |
| AbstractAltFuture.CancelWithErrorW | ReactiveCascade/cascade/src/main/java/com/futurice/cascade/functional/AbstractAltFuture.java:153-191 | `cancel(StateError)` as written keeps the arena well formed and moves states only one way |
| AbstractAltFuture.CancelWithErrorCascadingW | ReactiveCascade/cascade/src/main/java/com/futurice/cascade/functional/AbstractAltFuture.java:153-191 | the cascading `cancel(StateError)` keeps the arena well formed and moves states only one way |
| AbstractAltFuture.DoThenW | ReactiveCascade/cascade/src/main/java/com/futurice/cascade/functional/AbstractAltFuture.java:391-398 | `doThen()` keeps the arena well formed and moves states only one way |
| AbstractAltFuture.SetUpchainW | ReactiveCascade/cascade/src/main/java/com/futurice/cascade/functional/AbstractAltFuture.java:270-276 | `setUpchain` sets the link only if none was set, and changes no other future and no state |
| AbstractAltFuture.ClearUpchainW | ReactiveCascade/cascade/src/main/java/com/futurice/cascade/functional/AbstractAltFuture.java:258-261 | `clearPreviousAltFuture` changes only links and keeps the arena well formed |
| AbstractAltFuture.AppendDownstream | ReactiveCascade/cascade/src/main/java/com/futurice/cascade/functional/AbstractAltFuture.java:117 | appending to the downstream list adds exactly one entry at the end and changes no other future |
| AbstractAltFuture.LinkBelow | ReactiveCascade/cascade/src/main/java/com/futurice/cascade/functional/AbstractAltFuture.java:492-504 | the links `then(f)` adds: f listed at the end of x's list, f's upchain set to x if it had none, and nothing else changed |
| AbstractAltFuture.ThenW | ReactiveCascade/cascade/src/main/java/com/futurice/cascade/functional/AbstractAltFuture.java:492-504 | `then(f)` adds exactly those links, keeps the counters and the set log, and returns f when it does not throw |
| AbstractAltFuture.NewFuture | ReactiveCascade/cascade/src/main/java/com/futurice/cascade/functional/AbstractAltFuture.java:126-128 | a constructed future is `ZEN` with no links, appended at the next id, and nothing else changes |
| AbstractAltFuture.ThenNewW | ReactiveCascade/cascade/src/main/java/com/futurice/cascade/functional/AbstractAltFuture.java:419-487 | every one-step combinator adds one future of the given class and thread type, linked below x and listed last in x's list, and returns it |
| AbstractAltFuture.ThenNewKeepsNode | ReactiveCascade/cascade/src/main/java/com/futurice/cascade/functional/AbstractAltFuture.java:419-504 | chaining a step changes no older future's class, thread type or upchain link |
| AbstractAltFuture.OnW | ReactiveCascade/cascade/src/main/java/com/futurice/cascade/functional/AbstractAltFuture.java:409-415 | `on(threadType)` keeps the arena well formed |
| AbstractAltFuture.FilterW | ReactiveCascade/cascade/src/main/java/com/futurice/cascade/functional/AbstractAltFuture.java:604-612 | `filter` as written keeps the arena well formed |
| AbstractAltFuture.FilterChainedW | ReactiveCascade/cascade/src/main/java/com/futurice/cascade/functional/AbstractAltFuture.java:604-612 | the chained `filter` keeps the arena well formed |
| AbstractAltFuture.FilterRunW | ReactiveCascade/cascade/src/main/java/com/futurice/cascade/functional/AbstractAltFuture.java:605-610 | the body of the filter step keeps the arena well formed and moves states only one way; its properties are proved in `FilterRunPassesValue`, `FilterRejectionCancelsEnclosing` and `FilterRejectionOnDoneChangesNothing` |
| AbstractAltFuture.AttachEachW | ReactiveCascade/cascade/src/main/java/com/futurice/cascade/functional/AbstractAltFuture.java:582-599 | the loop of `await(IAltFuture...)` only adds futures, one for each listed future when nothing throws, and keeps the counters |
| AbstractAltFuture.AttachEachStep | ReactiveCascade/cascade/src/main/java/com/futurice/cascade/functional/AbstractAltFuture.java:582-599 | one turn of that loop chains a step below entry i and stops at the first exception |
| AbstractAltFuture.AwaitOneW | ReactiveCascade/cascade/src/main/java/com/futurice/cascade/functional/AbstractAltFuture.java:569-578 | `await(f)` adds exactly two futures and keeps the arena well formed |
| AbstractAltFuture.AwaitAllW | ReactiveCascade/cascade/src/main/java/com/futurice/cascade/functional/AbstractAltFuture.java:582-599 | `await(fs...)` keeps the arena well formed and, for two or more futures, adds futures |
| AbstractAltFuture.FreshIds | ReactiveCascade/cascade/src/main/java/com/futurice/cascade/functional/AbstractAltFuture.java:534-547 | the n consecutive ids from lo, which are the steps `map(...)` builds |
| AbstractAltFuture.FreshIdsSnoc | ReactiveCascade/cascade/src/main/java/com/futurice/cascade/functional/AbstractAltFuture.java:534-547 | one more turn of the loop extends the list by the next id |
| AbstractAltFuture.FreshIdsIn | ReactiveCascade/cascade/src/main/java/com/futurice/cascade/functional/AbstractAltFuture.java:534-547 | the ids built are in the arena |
| AbstractAltFuture.Repeat | ReactiveCascade/cascade/src/main/java/com/futurice/cascade/functional/AbstractAltFuture.java:466-480 | `then(IActionOne...)` chains each of its n steps to this future |
| AbstractAltFuture.ThenAllW | ReactiveCascade/cascade/src/main/java/com/futurice/cascade/functional/AbstractAltFuture.java:466-480 | `then(IActionOne...)` keeps the arena well formed |
| AbstractAltFuture.ThenEachAwaitW | ReactiveCascade/cascade/src/main/java/com/futurice/cascade/functional/AbstractAltFuture.java:513-521 | the index loop and `await` of the varargs `then` build at least one future whenever there is an action |
| AbstractAltFuture.AssertThen | ReactiveCascade/cascade/src/main/java/com/futurice/cascade/functional/AbstractAltFuture.java:509-511 | definition of `AssertUtil.assertTrue(c)` in front of a computation: a false c is the exception `AssertionFailed` with nothing changed; `ThenActionsAsWrittenW` and `MapAllAsWrittenW` are proved to fail through it for every n |
| AbstractAltFuture.ThenActionsAsWrittenW | ReactiveCascade/cascade/src/main/java/com/futurice/cascade/functional/AbstractAltFuture.java:509-522 | `then(IAction...)` as written tests `length == 0` and then `length == 1` before its loop; the result is proved to be the assertion failure for every n, with nothing changed |
| AbstractAltFuture.MapAllAsWrittenW | ReactiveCascade/cascade/src/main/java/com/futurice/cascade/functional/AbstractAltFuture.java:534-547 | `map(IActionOneR...)` as written tests the same two assertions before its loop; the result is proved to be the assertion failure for every n, with nothing changed |
| AbstractAltFuture.NewStepsW | ReactiveCascade/cascade/src/main/java/com/futurice/cascade/functional/AbstractAltFuture.java:537-546 | the construction loop of `map(...)` adds exactly n futures |
| AbstractAltFuture.NewStepsShape | ReactiveCascade/cascade/src/main/java/com/futurice/cascade/functional/AbstractAltFuture.java:537-546 | the loop leaves the older futures alone and adds n unlinked `ZEN` steps on x's thread type |
| AbstractAltFuture.NewStepsStep | ReactiveCascade/cascade/src/main/java/com/futurice/cascade/functional/AbstractAltFuture.java:537-546 | one turn of that loop adds one step and leaves n - 1 to go |
| AbstractAltFuture.MapAllW | ReactiveCascade/cascade/src/main/java/com/futurice/cascade/functional/AbstractAltFuture.java:534-547 | the corrected `map(...)` keeps the arena well formed |
| AbstractAltFuture.ArriveW | ReactiveCascade/cascade/src/main/java/com/futurice/cascade/functional/AbstractAltFuture.java:582-599 | one arrival decrements its own counter by one, and changes no link and no state |
| AbstractAltFuture.ArriveN | ReactiveCascade/cascade/src/main/java/com/futurice/cascade/functional/AbstractAltFuture.java:582-599 | m arrivals decrement the counter by m, and change no link and no state |
| AbstractAltFutureProps.ForkTargetStable | ReactiveCascade/cascade/src/main/java/com/futurice/cascade/functional/AbstractAltFuture.java:222-229 | the future the climb reaches depends only on the links and on which futures are done |
| AbstractAltFutureProps.ForkWithPendingUpchainForksUpchain | ReactiveCascade/cascade/src/main/java/com/futurice/cascade/functional/AbstractAltFuture.java:222-229 | with a pending upchain future, `fork()` is `fork()` of that future |
| AbstractAltFutureProps.ForkSubmitsOnlyItsTarget | ReactiveCascade/cascade/src/main/java/com/futurice/cascade/functional/AbstractAltFuture.java:222-246 | `fork()` submits work exactly when the target is `ZEN` and its executor accepts, throws exactly when the executor refuses, changes no link and no other future's state, and may move the target only to `FORKED` |
| AbstractAltFutureProps.ForkIsIdempotentWithForkedState | ReactiveCascade/cascade/src/main/java/com/futurice/cascade/functional/AbstractAltFuture.java:232 | with `USE_FORKED_STATE`, a second `fork()` changes nothing and throws nothing |
| AbstractAltFutureProps.ForkWithoutForkedStateResubmits | ReactiveCascade/cascade/src/main/java/com/futurice/cascade/functional/AbstractAltFuture.java:232 | without `USE_FORKED_STATE`, forking a pending future twice submits its work twice |
| AbstractAltFutureProps.ForkSubmitsPendingTarget | ReactiveCascade/cascade/src/main/java/com/futurice/cascade/functional/AbstractAltFuture.java:232-246 | a `ZEN` target on an accepting executor is submitted and nothing else changes |
| AbstractAltFutureProps.SubmitKeepsForkTarget | ReactiveCascade/cascade/src/main/java/com/futurice/cascade/functional/AbstractAltFuture.java:222-246 | submitting work does not change which future `fork()` climbs to |
| AbstractAltFutureProps.ForkOfDoneIsNoop | ReactiveCascade/cascade/src/main/java/com/futurice/cascade/functional/AbstractAltFuture.java:222-246 | forking a done future whose upchain is absent or done changes nothing |
| AbstractAltFutureProps.CancelIsLocalAndOneShot | ReactiveCascade/cascade/src/main/java/com/futurice/cascade/functional/AbstractAltFuture.java:133-150 | `cancel(String)` throws `IllegalArgumentException` exactly for an empty reason in debug builds; otherwise it succeeds exactly from `ZEN` or `FORKED`, and then writes only that future's state and cancels no downstream future |
| AbstractAltFutureProps.CancelIsIdempotent | ReactiveCascade/cascade/src/main/java/com/futurice/cascade/functional/AbstractAltFuture.java:133-150 | a second cancel answers false and keeps the first reason |
| AbstractAltFutureProps.ForEachThenKeepsFirstException | ReactiveCascade/cascade/src/main/java/com/futurice/cascade/functional/AbstractAltFuture.java:320-336 | once an exception is caught it is the one `forEachThen` reports |
| AbstractAltFutureProps.ForEachThenIgnoresFailures | ReactiveCascade/cascade/src/main/java/com/futurice/cascade/functional/AbstractAltFuture.java:320-336 | the loop goes on after a failure: the arena it leaves does not depend on earlier exceptions |
| AbstractAltFutureProps.ForEachThenSplits | ReactiveCascade/cascade/src/main/java/com/futurice/cascade/functional/AbstractAltFuture.java:320-336 | walking a list is walking its first part, then the rest |
| AbstractAltFutureProps.CancelFrameAt | ReactiveCascade/cascade/src/main/java/com/futurice/cascade/functional/AbstractAltFuture.java:374-388 | under the cancellation frame every cell is unchanged or the given cancelled state |
| AbstractAltFutureProps.CancelFrameTransitive | ReactiveCascade/cascade/src/main/java/com/futurice/cascade/functional/AbstractAltFuture.java:374-388 | the cancellation frame composes |
| AbstractAltFutureProps.DoOnCancelledFrame | ReactiveCascade/cascade/src/main/java/com/futurice/cascade/functional/AbstractAltFuture.java:374-388 | `doOnCancelled` never throws, and its cascade writes nothing but the given cancelled state, and only from `ZEN`/`FORKED` or on an `OnCancelledAltFuture` |
| AbstractAltFutureProps.ForEachCancelFrame | ReactiveCascade/cascade/src/main/java/com/futurice/cascade/functional/AbstractAltFuture.java:374-388 | the cancellation loop keeps its accumulator and the cancellation frame |
| AbstractAltFutureProps.DoOnCancelledReachesSelf | ReactiveCascade/cascade/src/main/java/com/futurice/cascade/functional/AbstractAltFuture.java:374-388 | a live future (or an `OnCancelledAltFuture`) ends in the cancelled state |
| AbstractAltFutureProps.ForEachCancelReaches | ReactiveCascade/cascade/src/main/java/com/futurice/cascade/functional/AbstractAltFuture.java:374-388 | every listed entry that was live, or overrides `doOnCancelled`, ends cancelled, whatever earlier entries did |
| AbstractAltFutureProps.CancelCascadeReachesChildren | ReactiveCascade/cascade/src/main/java/com/futurice/cascade/functional/AbstractAltFuture.java:374-388 | `doOnCancelled` on a live future cancels it and every live downstream entry, writes only that state, and never throws |
| AbstractAltFutureProps.DoOnCancelledOfDoneIsNoop | ReactiveCascade/cascade/src/main/java/com/futurice/cascade/functional/AbstractAltFuture.java:374-388 | a done future of the base class ignores `doOnCancelled` |
| AbstractAltFutureProps.ErrorFrameAt | ReactiveCascade/cascade/src/main/java/com/futurice/cascade/functional/AbstractAltFuture.java:356-371 | under the error frame every cell is unchanged or moved from `ZEN` to the error |
| AbstractAltFutureProps.ErrorFrameTransitive | ReactiveCascade/cascade/src/main/java/com/futurice/cascade/functional/AbstractAltFuture.java:356-371 | the error frame composes |
| AbstractAltFutureProps.DoOnErrorFrame | ReactiveCascade/cascade/src/main/java/com/futurice/cascade/functional/AbstractAltFuture.java:356-371 | `doOnError` never throws and only moves `ZEN` futures to the error |
| AbstractAltFutureProps.ForEachErrorFrame | ReactiveCascade/cascade/src/main/java/com/futurice/cascade/functional/AbstractAltFuture.java:356-371 | the error loop keeps its accumulator and the error frame |
| AbstractAltFutureProps.DoOnErrorReachesSelf | ReactiveCascade/cascade/src/main/java/com/futurice/cascade/functional/AbstractAltFuture.java:356-371 | a `ZEN` future ends in the error |
| AbstractAltFutureProps.ForEachErrorReaches | ReactiveCascade/cascade/src/main/java/com/futurice/cascade/functional/AbstractAltFuture.java:356-371 | every listed `ZEN` entry ends in the error, whatever earlier entries did |
| AbstractAltFutureProps.ErrorCascadeReachesChildren | ReactiveCascade/cascade/src/main/java/com/futurice/cascade/functional/AbstractAltFuture.java:356-371 | without `USE_FORKED_STATE`, `doOnError` on a `ZEN` future errors it and every `ZEN` downstream entry, and never throws |
| AbstractAltFutureProps.ErrorWithForkedStateStopsAtSelf | ReactiveCascade/cascade/src/main/java/com/futurice/cascade/functional/AbstractAltFuture.java:359 | with `USE_FORKED_STATE`, the second compare-and-set fails: only a `ZEN` future is errored, and nothing downstream changes |
| AbstractAltFutureProps.CancelSelfChangesNothing | ReactiveCascade/cascade/src/main/java/com/futurice/cascade/functional/AbstractAltFuture.java:179-180 | the lambda of `cancel(StateError)` calls the owner's own `doOnCancelled`, which then changes nothing |
| AbstractAltFutureProps.CancelWithErrorDoesNotCascade | ReactiveCascade/cascade/src/main/java/com/futurice/cascade/functional/AbstractAltFuture.java:153-191 | `cancel(StateError)` as written cancels this future from `ZEN`/`FORKED` and no other future, or answers false and changes nothing |
| AbstractAltFutureProps.TwoChain | ReactiveCascade/cascade/src/main/java/com/futurice/cascade/functional/AbstractAltFuture.java:492-504 | a well-formed arena with a future and one pending downstream future |
| AbstractAltFutureProps.CancelWithErrorLeavesChildPending | ReactiveCascade/cascade/src/main/java/com/futurice/cascade/functional/AbstractAltFuture.java:177-186 | on that arena the downstream future stays `ZEN` as written, and is cancelled by the cascading form |
| AbstractAltFutureProps.CancelWithErrorCascades | ReactiveCascade/cascade/src/main/java/com/futurice/cascade/functional/AbstractAltFuture.java:153-191 | the cascading form answers true exactly from `ZEN`/`FORKED`, never throws, and cancels this future and every live downstream entry with a state naming the error |
| AbstractAltFutureProps.DoThenChecksDone | ReactiveCascade/cascade/src/main/java/com/futurice/cascade/functional/AbstractAltFuture.java:391-398 | `doThen()` on a pending future fails its assertion and changes nothing; otherwise any exception is the wrapped first one |
| AbstractAltFutureProps.SetUpchainIsSetOnce | ReactiveCascade/cascade/src/main/java/com/futurice/cascade/functional/AbstractAltFuture.java:270-276 | the first `setUpchain` wins and later ones change nothing |
| AbstractAltFutureProps.ClearUpchainRequiresDone | ReactiveCascade/cascade/src/main/java/com/futurice/cascade/functional/AbstractAltFuture.java:258-261 | `clearPreviousAltFuture` succeeds exactly on a done future and then drops its link; on a pending one it fails its assertion and changes nothing |
| AbstractAltFutureProps.ThenOnPendingOnlyLinks | ReactiveCascade/cascade/src/main/java/com/futurice/cascade/functional/AbstractAltFuture.java:492-504 | `then(f)` on a pending future only links f: no state changes and nothing is submitted |
| AbstractAltFutureProps.ThenOnDoneForks | ReactiveCascade/cascade/src/main/java/com/futurice/cascade/functional/AbstractAltFuture.java:492-504 | `then(f)` on a done future submits f at once (`FORKED` under `USE_FORKED_STATE`) or reports the refusal |
| AbstractAltFutureProps.OnSwitchesThreadType | ReactiveCascade/cascade/src/main/java/com/futurice/cascade/functional/AbstractAltFuture.java:409-415 | `on(t)` returns this future unchanged on its own thread type, and otherwise a fresh settable relay on t linked below it |
| AbstractAltFutureProps.FilterIsDetached | ReactiveCascade/cascade/src/main/java/com/futurice/cascade/functional/AbstractAltFuture.java:604-612 | `filter` as written returns a new step with no upchain that this future does not list, and changes no older future |
| AbstractAltFutureProps.FilterChainedIsLinked | ReactiveCascade/cascade/src/main/java/com/futurice/cascade/functional/AbstractAltFuture.java:604-612 | the chained filter step is linked below this future and listed by it |
| AbstractAltFutureProps.FilterRunPassesValue | ReactiveCascade/cascade/src/main/java/com/futurice/cascade/functional/AbstractAltFuture.java:605-610 | the filter step never fails and always yields its input value; an accepted value changes nothing |
| AbstractAltFutureProps.FilterRejectionCancelsEnclosing | ReactiveCascade/cascade/src/main/java/com/futurice/cascade/functional/AbstractAltFuture.java:606-608 | a rejected value cancels the future `filter` was called on (not the filter step), when that future is `ZEN` or `FORKED`, with the reason "Filtered: " and the value's text; no other state cell and no link changes |
| AbstractAltFutureProps.FilterRejectionOnDoneChangesNothing | ReactiveCascade/cascade/src/main/java/com/futurice/cascade/functional/AbstractAltFuture.java:606-608 | a rejected value on a future that is already done changes nothing, so a filter step chained below it (which runs only after it is done) cancels nothing |
| AbstractAltFutureProps.AwaitOneShape | ReactiveCascade/cascade/src/main/java/com/futurice/cascade/functional/AbstractAltFuture.java:569-578 | `await(f)` returns a fresh settable future linked below this one, and f gains a step that sets it |
| AbstractAltFutureProps.AwaitOneOutput | ReactiveCascade/cascade/src/main/java/com/futurice/cascade/functional/AbstractAltFuture.java:569-578 | the output of `await(f)` is settable, linked below this future, and f is untouched |
| AbstractAltFutureProps.AwaitOneStep | ReactiveCascade/cascade/src/main/java/com/futurice/cascade/functional/AbstractAltFuture.java:569-578 | the step chained on f sets the output and leaves the output's link alone |
| AbstractAltFutureProps.AwaitAllShape | ReactiveCascade/cascade/src/main/java/com/futurice/cascade/functional/AbstractAltFuture.java:582-599 | `await(fs...)` refuses fewer than two futures and changes nothing; otherwise it returns a fresh settable output linked below this future, with a counter of \|fs\| and one arrival step per future |
| AbstractAltFutureProps.AttachEachKeepsNode | ReactiveCascade/cascade/src/main/java/com/futurice/cascade/functional/AbstractAltFuture.java:582-599 | the arrival steps change no older future's class, thread type or upchain link |
| AbstractAltFutureProps.AttachEachBuildsFirst | ReactiveCascade/cascade/src/main/java/com/futurice/cascade/functional/AbstractAltFuture.java:582-599 | the first arrival step has the loop's action and the first entry's thread type, and is linked below that entry |
| AbstractAltFutureProps.ArrivalsSetOutputOnce | ReactiveCascade/cascade/src/main/java/com/futurice/cascade/functional/AbstractAltFuture.java:582-599 | n arrivals on a counter of n set the output exactly once, on the last arrival, with the anchor's state, when that state can be read; otherwise nothing is ever set |
| AbstractAltFutureProps.ArrivalPassesErrorStateOn | ReactiveCascade/cascade/src/main/java/com/futurice/cascade/functional/AbstractAltFuture.java:582-599 | an errored anchor's error state is passed on as the value that is set |
| AbstractAltFutureProps.ThenAllArity | ReactiveCascade/cascade/src/main/java/com/futurice/cascade/functional/AbstractAltFuture.java:466-480 | `then(IActionOne...)` refuses fewer than two actions and changes nothing; otherwise it returns a settable `await` output |
| AbstractAltFutureProps.ThenActionsAsWrittenAgreesOnlyBelowTwo | ReactiveCascade/cascade/src/main/java/com/futurice/cascade/functional/AbstractAltFuture.java:509-522 | `then(IAction...)` as written gives the same outcome as the form with the intended arity checks exactly when fewer than two actions are given |
| AbstractAltFutureProps.MapAllBuildsUnlinkedSteps | ReactiveCascade/cascade/src/main/java/com/futurice/cascade/functional/AbstractAltFuture.java:534-547 | the corrected `map(...)` returns n fresh steps, none linked, and leaves this future as it was |
| AbstractAltFutureProps.MapAllAsWrittenAgreesOnlyBelowTwo | ReactiveCascade/cascade/src/main/java/com/futurice/cascade/functional/AbstractAltFuture.java:534-547 | `map(IActionOneR...)` as written gives the same outcome as the form with the intended arity checks exactly when fewer than two actions are given |
| OnCancelledAltFuture.OverrideOverwritesAnyState | ReactiveCascade/cascade/src/main/java/com/futurice/cascade/util/OnCancelledAltFuture.java:26-28 | the override writes the cancelled state whatever the state was, done or not |
| OnCancelledAltFuture.OverrideLeavesFutureCancelled | ReactiveCascade/cascade/src/main/java/com/futurice/cascade/util/OnCancelledAltFuture.java:26-28 | afterwards the future is cancelled and done: `get()` throws and `safeGet()` yields nothing |
| OnCancelledAltFuture.OverrideTouchesOnlyItsState | ReactiveCascade/cascade/src/main/java/com/futurice/cascade/util/OnCancelledAltFuture.java:26-37 | the override changes only its own state cell and does not cascade |
| AltFutureGraph.FutureGraph.constructor | ReactiveCascade/cascade/src/main/java/com/futurice/cascade/functional/AbstractAltFuture.java:113-128 | a new graph is the empty arena with the given configuration |
| AltFutureGraph.FutureGraph.Create | ReactiveCascade/cascade/src/main/java/com/futurice/cascade/functional/AbstractAltFuture.java:126-128 | constructing a future appends it at the next id, `ZEN` with no links |
| AltFutureGraph.FutureGraph.DoFork | ReactiveCascade/cascade/src/main/java/com/futurice/cascade/functional/AbstractAltFuture.java:243-248 | `doFork()` updates the graph as `DoFork` says |
| AltFutureGraph.FutureGraph.Fork | ReactiveCascade/cascade/src/main/java/com/futurice/cascade/functional/AbstractAltFuture.java:222-246 | `fork()` leaves the graph and the exception `ForkW` gives |
| AltFutureGraph.FutureGraph.Cancel | ReactiveCascade/cascade/src/main/java/com/futurice/cascade/functional/AbstractAltFuture.java:133-150 | `cancel(String)` leaves the graph and answer `CancelW` gives |
| AltFutureGraph.FutureGraph.ForEachThen | ReactiveCascade/cascade/src/main/java/com/futurice/cascade/functional/AbstractAltFuture.java:320-336 | the loop over the list as it was when the loop began leaves what `ForEachThenW` gives |
| AltFutureGraph.FutureGraph.CallAction | ReactiveCascade/cascade/src/main/java/com/futurice/cascade/functional/AbstractAltFuture.java:324-330 | the action on one entry leaves what `ApplyHook` gives |
| AltFutureGraph.FutureGraph.DoOnCancelledOverride | ReactiveCascade/cascade/src/main/java/com/futurice/cascade/util/OnCancelledAltFuture.java:26-28 | the override leaves what `OnCancelledAltFuture.DoOnCancelledOverride` gives |
| AltFutureGraph.FutureGraph.DoOnCancelled | ReactiveCascade/cascade/src/main/java/com/futurice/cascade/functional/AbstractAltFuture.java:374-388 | `doOnCancelled`, dispatched on the future's class, leaves what `DoOnCancelledW` gives |
| AltFutureGraph.FutureGraph.DoOnError | ReactiveCascade/cascade/src/main/java/com/futurice/cascade/functional/AbstractAltFuture.java:356-371 | `doOnError` leaves what `DoOnErrorW` gives |
| AltFutureGraph.FutureGraph.CancelWithError | ReactiveCascade/cascade/src/main/java/com/futurice/cascade/functional/AbstractAltFuture.java:153-191 | `cancel(StateError)` as written leaves what `CancelWithErrorW` gives |
| AltFutureGraph.FutureGraph.CancelWithErrorCascading | ReactiveCascade/cascade/src/main/java/com/futurice/cascade/functional/AbstractAltFuture.java:153-191 | the corrected `cancel(StateError)` leaves what `CancelWithErrorCascadingW` gives |
| AltFutureGraph.FutureGraph.DoThen | ReactiveCascade/cascade/src/main/java/com/futurice/cascade/functional/AbstractAltFuture.java:391-398 | `doThen()` leaves what `DoThenW` gives |
| AltFutureGraph.FutureGraph.SetUpchain | ReactiveCascade/cascade/src/main/java/com/futurice/cascade/functional/AbstractAltFuture.java:270-276 | `setUpchain` leaves what `SetUpchainW` gives |
| AltFutureGraph.FutureGraph.ClearUpchain | ReactiveCascade/cascade/src/main/java/com/futurice/cascade/functional/AbstractAltFuture.java:258-261 | `clearPreviousAltFuture` leaves what `ClearUpchainW` gives |
| AltFutureGraph.FutureGraph.Then | ReactiveCascade/cascade/src/main/java/com/futurice/cascade/functional/AbstractAltFuture.java:492-504 | `then(IAltFuture)` leaves what `ThenW` gives |
| AltFutureGraph.FutureGraph.ThenNew | ReactiveCascade/cascade/src/main/java/com/futurice/cascade/functional/AbstractAltFuture.java:419-504 | chaining a new future leaves what `ThenNewW` gives, one future more, and returns the new id |
| AltFutureGraph.FutureGraph.ThenStep | ReactiveCascade/cascade/src/main/java/com/futurice/cascade/functional/AbstractAltFuture.java:419-487 | `then(IAction)`, `then(IActionOne)`, `then(IActionR)`, `map` and `set` chain one step on this thread type |
| AltFutureGraph.FutureGraph.OnCancelled | ReactiveCascade/cascade/src/main/java/com/futurice/cascade/functional/AbstractAltFuture.java:350-352 | `onCancelled` chains an `OnCancelledAltFuture` on this thread type |
| AltFutureGraph.FutureGraph.OnError | ReactiveCascade/cascade/src/main/java/com/futurice/cascade/functional/AbstractAltFuture.java:342-344 | `onError` chains an error step on this thread type |
| AltFutureGraph.FutureGraph.On | ReactiveCascade/cascade/src/main/java/com/futurice/cascade/functional/AbstractAltFuture.java:409-415 | `on` leaves what `OnW` gives |
| AltFutureGraph.FutureGraph.Filter | ReactiveCascade/cascade/src/main/java/com/futurice/cascade/functional/AbstractAltFuture.java:604-612 | `filter` as written leaves what `FilterW` gives |
| AltFutureGraph.FutureGraph.FilterChained | ReactiveCascade/cascade/src/main/java/com/futurice/cascade/functional/AbstractAltFuture.java:604-612 | the corrected `filter` leaves what `FilterChainedW` gives |
| AltFutureGraph.FutureGraph.FilterRun | ReactiveCascade/cascade/src/main/java/com/futurice/cascade/functional/AbstractAltFuture.java:605-610 | running the filter step leaves what `FilterRunW` gives: `cancel("Filtered: " + in)` on the enclosing future for a rejected value, and the value passed on |
| AltFutureGraph.FutureGraph.Await | ReactiveCascade/cascade/src/main/java/com/futurice/cascade/functional/AbstractAltFuture.java:569-578 | `await(f)` leaves what `AwaitOneW` gives |
| AltFutureGraph.FutureGraph.AwaitAll | ReactiveCascade/cascade/src/main/java/com/futurice/cascade/functional/AbstractAltFuture.java:582-599 | `await(fs...)` leaves what `AwaitAllW` gives |
| AltFutureGraph.FutureGraph.AttachEach | ReactiveCascade/cascade/src/main/java/com/futurice/cascade/functional/AbstractAltFuture.java:588-596 | the loop that chains one step below each listed future leaves what `AttachEachW` gives |
| AltFutureGraph.FutureGraph.Arrive | ReactiveCascade/cascade/src/main/java/com/futurice/cascade/functional/AbstractAltFuture.java:590-594 | one arrival step leaves what `ArriveW` gives |
| AltFutureGraph.FutureGraph.ThenAll | ReactiveCascade/cascade/src/main/java/com/futurice/cascade/functional/AbstractAltFuture.java:466-480 | `then(IActionOne...)` leaves what `ThenAllW` gives |
| AltFutureGraph.FutureGraph.ThenActionsAsWritten | ReactiveCascade/cascade/src/main/java/com/futurice/cascade/functional/AbstractAltFuture.java:509-511 | the two assertions of `then(IAction...)` in order give the result `ThenActionsAsWrittenW` gives; the code behind them is proved unreachable |
| AltFutureGraph.FutureGraph.MapAllAsWritten | ReactiveCascade/cascade/src/main/java/com/futurice/cascade/functional/AbstractAltFuture.java:534-536 | the two assertions of `map(IActionOneR...)` in order give the result `MapAllAsWrittenW` gives; the code behind them is proved unreachable |
| AltFutureGraph.FutureGraph.MapAll | ReactiveCascade/cascade/src/main/java/com/futurice/cascade/functional/AbstractAltFuture.java:534-547 | the corrected `map(...)` leaves what `MapAllW` gives |
| AltFutureGraph.FutureGraph.NewSteps | ReactiveCascade/cascade/src/main/java/com/futurice/cascade/functional/AbstractAltFuture.java:537-546 | the construction loop adds n steps and returns their consecutive ids |
| CompoundAltFuture.Walk | ReactiveCascade/cascade/src/main/java/com/futurice/cascade/active/CompoundAltFuture.java:41-47 | the do-while loop collects futures no younger than its start and ends with the start |
| CompoundAltFuture.BuildW | ReactiveCascade/cascade/src/main/java/com/futurice/cascade/active/CompoundAltFuture.java:33-52 | definition of the constructor: the two assertions, the walk and the second insertion of head; its properties are proved in `BuildSucceedsExactly` and `BuildShape` |
| CompoundAltFuture.WalkFindsHead | ReactiveCascade/cascade/src/main/java/com/futurice/cascade/active/CompoundAltFuture.java:41-47 | the walk meets the head exactly when the head is on the tail's upchain path |
| CompoundAltFuture.WalkIsChain | ReactiveCascade/cascade/src/main/java/com/futurice/cascade/active/CompoundAltFuture.java:41-47 | once it meets the head, what the walk collected starts at the head, meets it nowhere else, and follows the upchain links |
| CompoundAltFuture.BuildSucceedsExactly | ReactiveCascade/cascade/src/main/java/com/futurice/cascade/active/CompoundAltFuture.java:33-52 | construction succeeds exactly when the head has no upchain, is not the tail and is upchain from the tail; a failed walk throws `IllegalArgumentException`, a failed assertion is reported first |
| CompoundAltFuture.BuildShape | ReactiveCascade/cascade/src/main/java/com/futurice/cascade/active/CompoundAltFuture.java:33-52 | the subchain holds the head twice at its start, ends with the tail, and runs down the upchain links between them |
| CompoundAltFuture.Build | ReactiveCascade/cascade/src/main/java/com/futurice/cascade/active/CompoundAltFuture.java:33-52 | the constructor on a graph gives what `BuildW` gives |
| CompoundAltFuture.CancelMemberW | ReactiveCascade/cascade/src/main/java/com/futurice/cascade/active/CompoundAltFuture.java:73-84 | a request on one member is that member's `cancel(String)` or its non-cascading `cancel(StateError)`, keeps the arena well formed and moves states only one way |
| CompoundAltFuture.CancelFirstW | ReactiveCascade/cascade/src/main/java/com/futurice/cascade/active/CompoundAltFuture.java:71-91 | the loop over the members keeps the arena well formed and moves states only one way |
| CompoundAltFuture.CancelFirstStep | ReactiveCascade/cascade/src/main/java/com/futurice/cascade/active/CompoundAltFuture.java:71-91 | each turn stops at an exception or at a member that answers true, and otherwise goes on to the next one |
| CompoundAltFuture.FirstLive | ReactiveCascade/cascade/src/main/java/com/futurice/cascade/active/CompoundAltFuture.java:71-91 | the position of the first member still `ZEN` or `FORKED`, or nothing when none is |
| CompoundAltFuture.CancelMemberAnswers | ReactiveCascade/cascade/src/main/java/com/futurice/cascade/active/CompoundAltFuture.java:73 | a done member refuses without change; a live member never answers false |
| CompoundAltFuture.CancelFirstTriesInOrder | ReactiveCascade/cascade/src/main/java/com/futurice/cascade/active/CompoundAltFuture.java:71-91 | the loop skips done members without change and answers what the first live member answers, or false when there is none |
| CompoundAltFuture.CancelByReason | ReactiveCascade/cascade/src/main/java/com/futurice/cascade/active/CompoundAltFuture.java:71-79 | `cancel(String)` answers true exactly when some member was live, and then cancels only the first such member; a debug build refuses an empty reason first |
| CompoundAltFuture.CancelByError | ReactiveCascade/cascade/src/main/java/com/futurice/cascade/active/CompoundAltFuture.java:82-91 | `cancel(StateError)` answers true exactly when some member was live, and then cancels only the first such member, with a state naming the error and no downstream future touched |
| CompoundAltFuture.Cancel | ReactiveCascade/cascade/src/main/java/com/futurice/cascade/active/CompoundAltFuture.java:71-91 | both `cancel` methods leave what `CancelFirstW` gives: the first live member cancelled, by reason or by its non-cascading `cancel(StateError)` |
| CompoundAltFuture.CancelMember | ReactiveCascade/cascade/src/main/java/com/futurice/cascade/active/CompoundAltFuture.java:73-84 | one member's `cancel(String)` or non-cascading `cancel(StateError)` leaves what `CancelMemberW` gives |
| CompoundAltFuture.IsCancelledAny | ReactiveCascade/cascade/src/main/java/com/futurice/cascade/active/CompoundAltFuture.java:94-103 | `isCancelled()` is true exactly when some member is cancelled |
| CompoundAltFuture.ThreadTypeOf | ReactiveCascade/cascade/src/main/java/com/futurice/cascade/active/CompoundAltFuture.java:54-58 | definition: `getThreadType()` is the head's; `GettersReadTheEnds` proves what each reads on a built compound |
| CompoundAltFuture.IsForkedOf | ReactiveCascade/cascade/src/main/java/com/futurice/cascade/active/CompoundAltFuture.java:64-68 | definition: `isForked()` is the head's; `GettersReadTheEnds` proves what each reads on a built compound |
| CompoundAltFuture.UpchainOf | ReactiveCascade/cascade/src/main/java/com/futurice/cascade/active/CompoundAltFuture.java:112-116 | definition: `getUpchain()` is the head's; `GettersReadTheEnds` proves what each reads on a built compound |
| CompoundAltFuture.IsDoneOf | ReactiveCascade/cascade/src/main/java/com/futurice/cascade/active/CompoundAltFuture.java:59-63 | definition: `isDone()` is the tail's; `GettersReadTheEnds` proves what each reads on a built compound |
| CompoundAltFuture.GetOf | ReactiveCascade/cascade/src/main/java/com/futurice/cascade/active/CompoundAltFuture.java:255-259 | definition: `get()` is the tail's; `GettersReadTheEnds` proves what each reads on a built compound |
| CompoundAltFuture.SafeGetOf | ReactiveCascade/cascade/src/main/java/com/futurice/cascade/active/CompoundAltFuture.java:249-253 | definition: `safeGet()` is the tail's; `GettersReadTheEnds` proves what each reads on a built compound |
| CompoundAltFuture.GettersReadTheEnds | ReactiveCascade/cascade/src/main/java/com/futurice/cascade/active/CompoundAltFuture.java:54-68 | on a built compound, the thread type, `isForked` and `getUpchain` (which is absent) are the first member's, and `isDone`, `get` and `safeGet` are the last member's |
| CompoundAltFuture.This | ReactiveCascade/cascade/src/main/java/com/futurice/cascade/active/CompoundAltFuture.java:107-110 | a forwarding method returns the compound exactly when nothing was thrown |
| CompoundAltFuture.ThisUnless | ReactiveCascade/cascade/src/main/java/com/futurice/cascade/active/CompoundAltFuture.java:138-141 | a forwarding method returns the compound exactly when the call on the tail succeeded |
| CompoundAltFuture.Fork | ReactiveCascade/cascade/src/main/java/com/futurice/cascade/active/CompoundAltFuture.java:105-110 | `fork()` forks the head and returns the compound |
| CompoundAltFuture.SetUpchain | ReactiveCascade/cascade/src/main/java/com/futurice/cascade/active/CompoundAltFuture.java:118-123 | `setUpchain` links the head and returns the compound |
| CompoundAltFuture.DoOnError | ReactiveCascade/cascade/src/main/java/com/futurice/cascade/active/CompoundAltFuture.java:125-128 | `doOnError` is the head's |
| CompoundAltFuture.DoOnCancelled | ReactiveCascade/cascade/src/main/java/com/futurice/cascade/active/CompoundAltFuture.java:130-133 | `doOnCancelled` is the head's |
| CompoundAltFuture.Filter | ReactiveCascade/cascade/src/main/java/com/futurice/cascade/active/CompoundAltFuture.java:227-232 | `filter` is the head's `filter` as written: a new step on the head's thread type that nothing is chained to |
| CompoundAltFuture.ThenAtTail | ReactiveCascade/cascade/src/main/java/com/futurice/cascade/active/CompoundAltFuture.java:135-158 | `then(IAction)`, `then(IActionOne)` and `set` chain one step below the tail and return the compound |
| CompoundAltFuture.ThenFromTail | ReactiveCascade/cascade/src/main/java/com/futurice/cascade/active/CompoundAltFuture.java:169-188 | `then(IActionR)` and `map` return the tail's new step |
| CompoundAltFuture.ThenFuture | ReactiveCascade/cascade/src/main/java/com/futurice/cascade/active/CompoundAltFuture.java:176-181 | `then(IAltFuture)` is the tail's |
| CompoundAltFuture.ThenAllAtTail | ReactiveCascade/cascade/src/main/java/com/futurice/cascade/active/CompoundAltFuture.java:160-167 | `then(IActionOne...)` is the tail's varargs `then`: the arena is what `ThenAllW` gives on the tail, and the compound is returned unless that throws |
| CompoundAltFuture.ThenActionsAtTail | ReactiveCascade/cascade/src/main/java/com/futurice/cascade/active/CompoundAltFuture.java:143-150 | `then(IAction...)` reaches the tail's `then(IAction...)` as written, so it throws `AssertionFailed` for every number of actions and changes nothing |
| CompoundAltFuture.MapAllFromTail | ReactiveCascade/cascade/src/main/java/com/futurice/cascade/active/CompoundAltFuture.java:190-196 | `map(IActionOneR...)` reaches the tail's `map(IActionOneR...)` as written, so it throws `AssertionFailed` for every number of actions and changes nothing |
| CompoundAltFuture.AwaitAtTail | ReactiveCascade/cascade/src/main/java/com/futurice/cascade/active/CompoundAltFuture.java:198-204 | `await(f)` is the tail's, and the compound is returned |
| CompoundAltFuture.AwaitAllAtTail | ReactiveCascade/cascade/src/main/java/com/futurice/cascade/active/CompoundAltFuture.java:206-213 | `await(fs...)` is the tail's, and the compound is returned |
| CompoundAltFuture.OnErrorAtTail | ReactiveCascade/cascade/src/main/java/com/futurice/cascade/active/CompoundAltFuture.java:242-247 | `onError` is the tail's, and the compound is returned |
| CompoundAltFuture.OnW | ReactiveCascade/cascade/src/main/java/com/futurice/cascade/active/CompoundAltFuture.java:215-225 | `on(t)` changes nothing when the tail runs on t, and otherwise chains one no-op step below the tail on the tail's own thread type; the compound is returned either way |
| CompoundAltFuture.On | ReactiveCascade/cascade/src/main/java/com/futurice/cascade/active/CompoundAltFuture.java:215-225 | `on(t)` on a graph leaves what `OnW` gives |
| ReactiveValue.Initial | ReactiveCascade/cascade/src/main/java/com/futurice/cascade/reactive/ReactiveValue.java:81-89 | a new value holds the sentinel, which has been fired once |
| ReactiveValue.GetSpec | ReactiveCascade/cascade/src/main/java/com/futurice/cascade/reactive/ReactiveValue.java:127-135 | `get()` throws `IllegalStateException` exactly while the sentinel is stored, and otherwise returns the stored value |
| ReactiveValue.FireSpec | ReactiveCascade/cascade/src/main/java/com/futurice/cascade/reactive/ReactiveValue.java:120-122 | `fire()` delivers the stored value again and keeps it |
| ReactiveValue.SetSpec | ReactiveCascade/cascade/src/main/java/com/futurice/cascade/reactive/ReactiveValue.java:154-167 | `set(v)` always stores v; it fails its assertion exactly when the previous value was `null`; it fires v exactly once when the previous value was not `null` and differs from v, and fires nothing otherwise |
| ReactiveValue.CompareAndSetSpec | ReactiveCascade/cascade/src/main/java/com/futurice/cascade/reactive/ReactiveValue.java:171-188 | `compareAndSet` succeeds exactly when the stored value is the expected one, and then stores the update and fires it unless it is `null`; on failure nothing changes, and it throws exactly while the sentinel is stored |
| ReactiveValue.GetAndSetSpec | ReactiveCascade/cascade/src/main/java/com/futurice/cascade/reactive/ReactiveValue.java:192-200 | `getAndSet(v)` stores v and fires nothing; it returns the previous value, or throws when that was `null` |
| ReactiveValue.SetTwiceFiresOnce | ReactiveCascade/cascade/src/main/java/com/futurice/cascade/reactive/ReactiveValue.java:154-167 | setting the same value twice fires at most once, and the second call changes nothing |
| ReactiveValue.FirstSetFires | ReactiveCascade/cascade/src/main/java/com/futurice/cascade/reactive/ReactiveValue.java:81-89 | the first `set` after construction stores and fires the value |
| ReactiveValue.CompareAndSetWithCurrentIsSet | ReactiveCascade/cascade/src/main/java/com/futurice/cascade/reactive/ReactiveValue.java:154-188 | a `compareAndSet` that expects the current value does what `set` does to a changed value |
| ReactiveValue.GetAfterGetAndSet | ReactiveCascade/cascade/src/main/java/com/futurice/cascade/reactive/ReactiveValue.java:127-200 | after `getAndSet(v)`, `get()` returns v |
| ReactiveValue.InitialWith | ReactiveCascade/cascade/src/main/java/com/futurice/cascade/reactive/ReactiveValue.java:60-70 | the intended result of the two-argument constructor is construction followed by `set(initialValue)` |
| ReactiveValue.InitialValueIsDropped | ReactiveCascade/cascade/src/main/java/com/futurice/cascade/reactive/ReactiveValue.java:60-70 | as written `get()` after the two-argument constructor throws whatever the initial value; in the intended state it returns that value |
| ReactiveValue.ReactiveValue.constructor | ReactiveCascade/cascade/src/main/java/com/futurice/cascade/reactive/ReactiveValue.java:55-58 | the named constructor leaves the initial state |
| ReactiveValue.ReactiveValue.WithInitialValue | ReactiveCascade/cascade/src/main/java/com/futurice/cascade/reactive/ReactiveValue.java:66-70 | the constructor with an initial value ignores that value and leaves the initial state |
| ReactiveValue.ReactiveValue.WithInitialValueSet | ReactiveCascade/cascade/src/main/java/com/futurice/cascade/reactive/ReactiveValue.java:60-70 | the corrected two-argument constructor leaves `InitialWith(initialValue)` |
| ReactiveValue.ReactiveValue.Fire | ReactiveCascade/cascade/src/main/java/com/futurice/cascade/reactive/ReactiveValue.java:120-122 | `fire()` leaves what `FireSpec` gives |
| ReactiveValue.ReactiveValue.Get | ReactiveCascade/cascade/src/main/java/com/futurice/cascade/reactive/ReactiveValue.java:127-135 | `get()` is `GetSpec` of the object's state |
| ReactiveValue.ReactiveValue.SafeGet | ReactiveCascade/cascade/src/main/java/com/futurice/cascade/reactive/ReactiveValue.java:140-142 | `safeGet()` never throws: it yields the sentinel exactly where `get()` throws, and otherwise what `get()` returns |
| ReactiveValue.ReactiveValue.Set | ReactiveCascade/cascade/src/main/java/com/futurice/cascade/reactive/ReactiveValue.java:154-167 | `set` leaves what `SetSpec` gives |
| ReactiveValue.ReactiveValue.CompareAndSet | ReactiveCascade/cascade/src/main/java/com/futurice/cascade/reactive/ReactiveValue.java:171-188 | `compareAndSet` leaves what `CompareAndSetSpec` gives |
| ReactiveValue.ReactiveValue.GetAndSet | ReactiveCascade/cascade/src/main/java/com/futurice/cascade/reactive/ReactiveValue.java:192-200 | `getAndSet` leaves what `GetAndSetSpec` gives |
| ReactiveInteger.Plus | ReactiveCascade/cascade/src/main/java/com/futurice/cascade/reactive/ReactiveInteger.java:86 | `currentValue + i` is the exact sum when it fits in an `int`, and congruent to it modulo 2^32 always |
| ReactiveInteger.Times | ReactiveCascade/cascade/src/main/java/com/futurice/cascade/reactive/ReactiveInteger.java:104 | `currentValue * i` is the exact product when it fits in an `int`, and congruent to it modulo 2^32 always |
| ReactiveInteger.UpdateSpec | ReactiveCascade/cascade/src/main/java/com/futurice/cascade/reactive/ReactiveInteger.java:81-109 | with the sentinel stored the update throws `IllegalStateException`, and with `null` stored a `NullPointerException`, changing nothing; otherwise it stores and fires the new value and returns the value read |
| ReactiveInteger.AddAndGetSpec | ReactiveCascade/cascade/src/main/java/com/futurice/cascade/reactive/ReactiveInteger.java:81-91 | definition of `addAndGet(i)` as `UpdateSpec` with the 32-bit sum; its properties are proved in `AddTwiceAddsTheSum`, `IncrementWrapsAtMax` and `AddAndGetLoopsOutsideCache` |
| ReactiveInteger.MultiplyAndGetSpec | ReactiveCascade/cascade/src/main/java/com/futurice/cascade/reactive/ReactiveInteger.java:99-109 | definition of `multiplyAndGet(i)` as `UpdateSpec` with the 32-bit product; `UpdateSpec`'s contract states what it returns, stores and fires |
| ReactiveInteger.IncrementAndGetSpec | ReactiveCascade/cascade/src/main/java/com/futurice/cascade/reactive/ReactiveInteger.java:116-119 | definition of `incrementAndGet()` as `addAndGet(1)`; properties proved in `IncrementThenDecrementRestores` and `IncrementWrapsAtMax` |
| ReactiveInteger.DecrementAndGetSpec | ReactiveCascade/cascade/src/main/java/com/futurice/cascade/reactive/ReactiveInteger.java:126-128 | definition of `decrementAndGet()` as `addAndGet(-1)`; properties proved in `IncrementThenDecrementRestores` |
| ReactiveInteger.Int32Congruent | ReactiveCascade/cascade/src/main/java/com/futurice/cascade/reactive/ReactiveInteger.java:81-109 | two `int` values congruent modulo 2^32 are equal |
| ReactiveInteger.WrapRespectsCongruence | ReactiveCascade/cascade/src/main/java/com/futurice/cascade/reactive/ReactiveInteger.java:81-109 | the wrapped result depends only on the value modulo 2^32 |
| ReactiveInteger.AddTwiceAddsTheSum | ReactiveCascade/cascade/src/main/java/com/futurice/cascade/reactive/ReactiveInteger.java:81-91 | two `addAndGet` calls leave the wrapped total in either order and fire both new values |
| ReactiveInteger.PlusAssociates | ReactiveCascade/cascade/src/main/java/com/futurice/cascade/reactive/ReactiveInteger.java:86 | adding i and then j wraps to the same value as adding both at once |
| ReactiveInteger.IncrementThenDecrementRestores | ReactiveCascade/cascade/src/main/java/com/futurice/cascade/reactive/ReactiveInteger.java:116-128 | `incrementAndGet` then `decrementAndGet` restores the value, also across the wrap at the maximum, and fires both values |
| ReactiveInteger.PlusOneMinusOne | ReactiveCascade/cascade/src/main/java/com/futurice/cascade/reactive/ReactiveInteger.java:116-128 | adding 1 and then -1 in `int` arithmetic gives back the start, across the wrap-around too |
| ReactiveInteger.IncrementWrapsAtMax | ReactiveCascade/cascade/src/main/java/com/futurice/cascade/reactive/ReactiveInteger.java:116-118 | incrementing `Integer.MAX_VALUE` gives `Integer.MIN_VALUE` |
| ReactiveInteger.NeutralUpdateStillFires | ReactiveCascade/cascade/src/main/java/com/futurice/cascade/reactive/ReactiveInteger.java:81-109 | adding 0 or multiplying by 1 still fires the value, unlike `set` of the same value |
| ReactiveInteger.ValueOf | ReactiveCascade/cascade/src/main/java/com/futurice/cascade/reactive/ReactiveInteger.java:86 | boxing an `int` argument keeps its value and yields the shared box exactly for values of the small-integer cache |
| ReactiveInteger.UpdateAsWritten | ReactiveCascade/cascade/src/main/java/com/futurice/cascade/reactive/ReactiveInteger.java:81-109 | definition of the retry loop as written, with boxes compared by identity; properties proved in `UpdateAsWrittenNeedsSharedBox` and `AddAndGetLoopsOutsideCache` |
| ReactiveInteger.UpdateAsWrittenNeedsSharedBox | ReactiveCascade/cascade/src/main/java/com/futurice/cascade/reactive/ReactiveInteger.java:81-109 | the retry loop as written, comparing references, succeeds on some turn exactly when the stored box is the shared one, and then on the first |
| ReactiveInteger.AddAndGetLoopsOutsideCache | ReactiveCascade/cascade/src/main/java/com/futurice/cascade/reactive/ReactiveInteger.java:81-91 | as written `addAndGet` on a value outside the cache fails every turn, while the value-comparing model returns the old value |
| ReactiveInteger.Update | ReactiveCascade/cascade/src/main/java/com/futurice/cascade/reactive/ReactiveInteger.java:81-109 | the retry loop leaves the value and the exception or result `UpdateSpec` gives |
| ReactiveInteger.AddAndGet | ReactiveCascade/cascade/src/main/java/com/futurice/cascade/reactive/ReactiveInteger.java:81-91 | `addAndGet` leaves what `AddAndGetSpec` gives |
| ReactiveInteger.MultiplyAndGet | ReactiveCascade/cascade/src/main/java/com/futurice/cascade/reactive/ReactiveInteger.java:99-109 | `multiplyAndGet` leaves what `MultiplyAndGetSpec` gives |
| ReactiveInteger.IncrementAndGet | ReactiveCascade/cascade/src/main/java/com/futurice/cascade/reactive/ReactiveInteger.java:116-118 | `incrementAndGet` is an add of 1 |
| ReactiveInteger.DecrementAndGet | ReactiveCascade/cascade/src/main/java/com/futurice/cascade/reactive/ReactiveInteger.java:126-128 | `decrementAndGet` is an add of -1 |
| PersistentValue.TrimStart | ReactiveCascade/cascade/src/main/java/com/futurice/cascade/reactive/PersistentValue.java:154 | the string without its leading blank characters: a suffix that is empty exactly for a blank string |
| PersistentValue.TrimEnd | ReactiveCascade/cascade/src/main/java/com/futurice/cascade/reactive/PersistentValue.java:154 | the string without its trailing blank characters: a prefix that is empty exactly for a blank string |
| PersistentValue.Trim | ReactiveCascade/cascade/src/main/java/com/futurice/cascade/reactive/PersistentValue.java:154 | `String.trim()` is empty exactly for a blank string, and otherwise starts and ends with a non-blank character |
| PersistentValue.Join | ReactiveCascade/cascade/src/main/java/com/futurice/cascade/reactive/PersistentValue.java:140-151 | the joined text is empty for no parts, the part itself for one, starts like the first part and ends with the last |
| PersistentValue.SplitAll | ReactiveCascade/cascade/src/main/java/com/futurice/cascade/reactive/PersistentValue.java:158 | splitting yields at least one field |
| PersistentValue.DropTrailingEmpty | ReactiveCascade/cascade/src/main/java/com/futurice/cascade/reactive/PersistentValue.java:158 | removing trailing empty fields leaves a prefix whose last field is not empty |
| PersistentValue.JavaSplit | ReactiveCascade/cascade/src/main/java/com/futurice/cascade/reactive/PersistentValue.java:158 | `split` of a string without the separator yields the string itself |
| PersistentValue.Fields | ReactiveCascade/cascade/src/main/java/com/futurice/cascade/reactive/PersistentValue.java:154-158 | a decoder reads no fields from a blank string, and otherwise the fields of `split` |
| PersistentValue.Decode | ReactiveCascade/cascade/src/main/java/com/futurice/cascade/reactive/PersistentValue.java:153-204 | definition of a decoder: the fields, each parsed in order; properties proved in `DecodeEncode`, `BlankDecodesEmpty` and `DecodedLengthIsFieldCount` |
| PersistentValue.LongsText | ReactiveCascade/cascade/src/main/java/com/futurice/cascade/reactive/PersistentValue.java:140-151 | definition of `toStringSet(long[])`; properties proved in `LongsTextShape` and `LongsRoundTrip` |
| PersistentValue.IntegersText | ReactiveCascade/cascade/src/main/java/com/futurice/cascade/reactive/PersistentValue.java:169-180 | definition of `toStringSet(int[])`; properties proved in `IntegersTextShape` and `IntegersRoundTrip` |
| PersistentValue.BooleansText | ReactiveCascade/cascade/src/main/java/com/futurice/cascade/reactive/PersistentValue.java:206-217 | definition of `toStringSet(boolean[])`; properties proved in `BooleansTextOfTwoOrMore` and `BooleansRoundTrip` |
| PersistentValue.StringsTextAsWritten | ReactiveCascade/cascade/src/main/java/com/futurice/cascade/reactive/PersistentValue.java:248-259 | definition of `toStringSet(String[])` as written, joined with a comma; properties proved in `StringsRoundTripFailsAsWritten` and `StringsExample` |
| PersistentValue.StringsText | ReactiveCascade/cascade/src/main/java/com/futurice/cascade/reactive/PersistentValue.java:248-259 | definition of `toStringSet(String[])` joined with the newline its decoder splits on; properties proved in `StringsRoundTrip` |
| PersistentValue.LongsOf | ReactiveCascade/cascade/src/main/java/com/futurice/cascade/reactive/PersistentValue.java:153-167 | definition of `toLongArray`; properties proved in `LongsRoundTrip` and `LongsOfRejectsBadField` |
| PersistentValue.IntegersOf | ReactiveCascade/cascade/src/main/java/com/futurice/cascade/reactive/PersistentValue.java:190-204 | definition of `toIntegerArray`; properties proved in `IntegersRoundTrip` and `IntegersOfRejectsBadField` |
| PersistentValue.StringsOf | ReactiveCascade/cascade/src/main/java/com/futurice/cascade/reactive/PersistentValue.java:182-188 | definition of `toStringArray`; properties proved in `StringsRoundTrip` and `BlankDecodesEmpty` |
| PersistentValue.BooleansOfAsWritten | ReactiveCascade/cascade/src/main/java/com/futurice/cascade/reactive/PersistentValue.java:219-233 | definition of `toBooleanArray` as written, split on a comma; properties proved in `BooleansRoundTripFailsAsWritten` and `BooleansExample` |
| PersistentValue.BooleansOf | ReactiveCascade/cascade/src/main/java/com/futurice/cascade/reactive/PersistentValue.java:219-233 | definition of `toBooleanArray` split on the newline its encoder joins with; properties proved in `BooleansRoundTrip` |
| PersistentValue.DigitChar | ReactiveCascade/cascade/src/main/java/com/futurice/cascade/reactive/PersistentValue.java:144 | a digit's character is between `0` and `9` |
| PersistentValue.Digits | ReactiveCascade/cascade/src/main/java/com/futurice/cascade/reactive/PersistentValue.java:144 | the decimal digits of a number are at least one digit character |
| PersistentValue.Decimal | ReactiveCascade/cascade/src/main/java/com/futurice/cascade/reactive/PersistentValue.java:144 | `Long.toString` writes at least one character, only digits and a minus sign, ending in a digit |
| PersistentValue.DecimalValue | ReactiveCascade/cascade/src/main/java/com/futurice/cascade/reactive/PersistentValue.java:163 | the empty string, and a string of neither sign nor digits only, has no decimal value |
| PersistentValue.ParseInteger | ReactiveCascade/cascade/src/main/java/com/futurice/cascade/reactive/PersistentValue.java:163 | parsing succeeds exactly for a decimal in range, with its value, and throws `NumberFormatException` otherwise |
| PersistentValue.ParseLong | ReactiveCascade/cascade/src/main/java/com/futurice/cascade/reactive/PersistentValue.java:163 | `Long.parseLong` fails only with `NumberFormatException` |
| PersistentValue.ParseInt | ReactiveCascade/cascade/src/main/java/com/futurice/cascade/reactive/PersistentValue.java:200 | `Integer.parseInt` fails only with `NumberFormatException` |
| PersistentValue.ParseBoolean | ReactiveCascade/cascade/src/main/java/com/futurice/cascade/reactive/PersistentValue.java:229 | `Boolean.parseBoolean` is true only for a four-character text |
| PersistentValue.Shown | ReactiveCascade/cascade/src/main/java/com/futurice/cascade/reactive/PersistentValue.java:140-151 | the text of each element, in order |
| PersistentValue.ParseEach | ReactiveCascade/cascade/src/main/java/com/futurice/cascade/reactive/PersistentValue.java:153-167 | decoding succeeds exactly when every field parses, with one element per field; a failure is some field's exception |
| PersistentValue.SplitAllWithoutSeparator | ReactiveCascade/cascade/src/main/java/com/futurice/cascade/reactive/PersistentValue.java:158 | a string without the separator is one field |
| PersistentValue.SplitAllSnoc | ReactiveCascade/cascade/src/main/java/com/futurice/cascade/reactive/PersistentValue.java:158 | one more separated part adds one field |
| PersistentValue.SplitAllJoin | ReactiveCascade/cascade/src/main/java/com/futurice/cascade/reactive/PersistentValue.java:140-158 | splitting undoes joining, empty fields included, when no part holds the separator |
| PersistentValue.FieldsOfJoin | ReactiveCascade/cascade/src/main/java/com/futurice/cascade/reactive/PersistentValue.java:140-158 | a decoder's fields are the encoder's parts when no part holds the separator and the last part is not blank |
| PersistentValue.ParseEachShown | ReactiveCascade/cascade/src/main/java/com/futurice/cascade/reactive/PersistentValue.java:153-167 | when each element's text parses back to it, decoding the texts gives the elements |
| PersistentValue.DecodeEncode | ReactiveCascade/cascade/src/main/java/com/futurice/cascade/reactive/PersistentValue.java:140-167 | the decoder reads back what the matching encoder wrote, when each element's text parses back, contains no separator, and the last one is not blank |
| PersistentValue.DigitsValueOfDigits | ReactiveCascade/cascade/src/main/java/com/futurice/cascade/reactive/PersistentValue.java:144-163 | reading the digits of n gives n |
| PersistentValue.DecimalValueOfDigits | ReactiveCascade/cascade/src/main/java/com/futurice/cascade/reactive/PersistentValue.java:163 | a digit string, with or without a minus sign, has the value of its digits |
| PersistentValue.DecimalValueOfDecimal | ReactiveCascade/cascade/src/main/java/com/futurice/cascade/reactive/PersistentValue.java:144-163 | what `toString` wrote is read back with its value |
| PersistentValue.ParseDecimal | ReactiveCascade/cascade/src/main/java/com/futurice/cascade/reactive/PersistentValue.java:144-200 | `parseLong`/`parseInt` read back what `toString` wrote, for every value in range |
| PersistentValue.LongsTextShape | ReactiveCascade/cascade/src/main/java/com/futurice/cascade/reactive/PersistentValue.java:140-151 | `toStringSet(long[])` writes nothing for no elements, and otherwise a text with no leading or trailing newline; one element is its decimal |
| PersistentValue.IntegersTextShape | ReactiveCascade/cascade/src/main/java/com/futurice/cascade/reactive/PersistentValue.java:169-180 | the same for `toStringSet(int[])` |
| PersistentValue.LongsRoundTrip | ReactiveCascade/cascade/src/main/java/com/futurice/cascade/reactive/PersistentValue.java:140-167 | `toLongArray(toStringSet(a))` is a, for every `long[]` |
| PersistentValue.IntegersRoundTrip | ReactiveCascade/cascade/src/main/java/com/futurice/cascade/reactive/PersistentValue.java:169-204 | `toIntegerArray(toStringSet(a))` is a, for every `int[]` |
| PersistentValue.BlankDecodesEmpty | ReactiveCascade/cascade/src/main/java/com/futurice/cascade/reactive/PersistentValue.java:153-233 | every decoder gives no elements for blank input |
| PersistentValue.DecodedLengthIsFieldCount | ReactiveCascade/cascade/src/main/java/com/futurice/cascade/reactive/PersistentValue.java:153-233 | otherwise a decoder that succeeds gives one element per field of `split` |
| PersistentValue.LongsOfRejectsBadField | ReactiveCascade/cascade/src/main/java/com/futurice/cascade/reactive/PersistentValue.java:153-167 | `toLongArray` throws `NumberFormatException` exactly when some field is not a decimal `long` |
| PersistentValue.IntegersOfRejectsBadField | ReactiveCascade/cascade/src/main/java/com/futurice/cascade/reactive/PersistentValue.java:190-204 | `toIntegerArray` throws `NumberFormatException` exactly when some field is not a decimal `int` |
| PersistentValue.IntOverflowIsRejected | ReactiveCascade/cascade/src/main/java/com/futurice/cascade/reactive/PersistentValue.java:200 | a `long` outside the `int` range is read by `parseLong` and refused by `parseInt` |
| PersistentValue.JoinAvoids | ReactiveCascade/cascade/src/main/java/com/futurice/cascade/reactive/PersistentValue.java:140-151 | joining adds no character but the separator |
| PersistentValue.JoinLength | ReactiveCascade/cascade/src/main/java/com/futurice/cascade/reactive/PersistentValue.java:140-151 | two or more joined parts are at least the first, one separator, and the last |
| PersistentValue.OneField | ReactiveCascade/cascade/src/main/java/com/futurice/cascade/reactive/PersistentValue.java:154-158 | a non-blank text without the separator decodes as one field |
| PersistentValue.BooleanTextFacts | ReactiveCascade/cascade/src/main/java/com/futurice/cascade/reactive/PersistentValue.java:210 | a boolean's text holds no comma and no newline, is at least four characters long, and starts with a non-blank character |
| PersistentValue.JoinNotBlank | ReactiveCascade/cascade/src/main/java/com/futurice/cascade/reactive/PersistentValue.java:140-151 | a text whose last part is not blank is not blank |
| PersistentValue.BooleansTextOfTwoOrMore | ReactiveCascade/cascade/src/main/java/com/futurice/cascade/reactive/PersistentValue.java:206-217 | two or more booleans are written without a comma, as a non-blank text of at least nine characters |
| PersistentValue.BooleansRoundTripFailsAsWritten | ReactiveCascade/cascade/src/main/java/com/futurice/cascade/reactive/PersistentValue.java:206-233 | as written, two or more booleans come back as a single `false` |
| PersistentValue.BooleansExample | ReactiveCascade/cascade/src/main/java/com/futurice/cascade/reactive/PersistentValue.java:206-233 | `{true, false}` is written as `true\nfalse` and comes back as `{false}` |
| PersistentValue.StringsRoundTripFailsAsWritten | ReactiveCascade/cascade/src/main/java/com/futurice/cascade/reactive/PersistentValue.java:182-188 | as written, two or more strings come back as one comma-joined string, which is not the array |
| PersistentValue.StringsExample | ReactiveCascade/cascade/src/main/java/com/futurice/cascade/reactive/PersistentValue.java:248-259 | `{"a", "b"}` comes back as `{"a,b"}` |
| PersistentValue.BooleansRoundTrip | ReactiveCascade/cascade/src/main/java/com/futurice/cascade/reactive/PersistentValue.java:206-233 | with the decoder splitting on the encoder's newline, every `boolean[]` comes back |
| PersistentValue.StringsRoundTrip | ReactiveCascade/cascade/src/main/java/com/futurice/cascade/reactive/PersistentValue.java:182-188 | with the encoder joining on the decoder's newline, a `String[]` comes back when no element holds a newline and the last is not blank |
| PersistentValue.GetKey | ReactiveCascade/cascade/src/main/java/com/futurice/cascade/reactive/PersistentValue.java:79-87 | the key is the package name immediately followed by the name |
| PersistentValue.KeyDeterminesName | ReactiveCascade/cascade/src/main/java/com/futurice/cascade/reactive/PersistentValue.java:79-82 | within one package, the key determines the name |
| PersistentValue.KeysOfDifferentPackagesCanCollide | ReactiveCascade/cascade/src/main/java/com/futurice/cascade/reactive/PersistentValue.java:79-82 | without a separator, two values in different packages can share a key |
| PersistentValue.AppendJoined | ReactiveCascade/cascade/src/main/java/com/futurice/cascade/reactive/PersistentValue.java:140-151 | the `StringBuilder` loop writes the element texts joined by the separator |
| PersistentValue.ParseEachStep | ReactiveCascade/cascade/src/main/java/com/futurice/cascade/reactive/PersistentValue.java:160-164 | one more field either extends the decoded prefix or fails the whole decoding with its exception |
| PersistentValue.ParseEachKeepsError | ReactiveCascade/cascade/src/main/java/com/futurice/cascade/reactive/PersistentValue.java:160-164 | once a prefix fails, the whole decoding fails with the same exception |
| PersistentValue.ParseInto | ReactiveCascade/cascade/src/main/java/com/futurice/cascade/reactive/PersistentValue.java:153-167 | the array loop succeeds exactly when `Decode` does, with the same elements, and otherwise throws the same exception |
| PersistentValue.ToStringSetLongs | ReactiveCascade/cascade/src/main/java/com/futurice/cascade/reactive/PersistentValue.java:140-151 | `toStringSet(long[])` writes `LongsText` of the array |
| PersistentValue.ToStringSetIntegers | ReactiveCascade/cascade/src/main/java/com/futurice/cascade/reactive/PersistentValue.java:169-180 | `toStringSet(int[])` writes `IntegersText` of the array |
| PersistentValue.ToStringSetBooleans | ReactiveCascade/cascade/src/main/java/com/futurice/cascade/reactive/PersistentValue.java:206-217 | `toStringSet(boolean[])` writes `BooleansText` of the array |
| PersistentValue.ToStringSetStringsAsWritten | ReactiveCascade/cascade/src/main/java/com/futurice/cascade/reactive/PersistentValue.java:248-259 | `toStringSet(String[])` as written joins with a comma |
| PersistentValue.ToStringSetStrings | ReactiveCascade/cascade/src/main/java/com/futurice/cascade/reactive/PersistentValue.java:248-259 | the corrected `toStringSet(String[])` joins with a newline |
| PersistentValue.ToLongArray | ReactiveCascade/cascade/src/main/java/com/futurice/cascade/reactive/PersistentValue.java:153-167 | `toLongArray` yields `LongsOf` of the text, or throws `NumberFormatException` exactly when that fails |
| PersistentValue.ToIntegerArray | ReactiveCascade/cascade/src/main/java/com/futurice/cascade/reactive/PersistentValue.java:190-204 | `toIntegerArray` yields `IntegersOf` of the text, or throws `NumberFormatException` exactly when that fails |
| PersistentValue.ToStringArray | ReactiveCascade/cascade/src/main/java/com/futurice/cascade/reactive/PersistentValue.java:182-188 | `toStringArray` yields the fields of the text |
| PersistentValue.ToBooleanArrayAsWritten | ReactiveCascade/cascade/src/main/java/com/futurice/cascade/reactive/PersistentValue.java:219-233 | `toBooleanArray` as written splits on a comma |
| PersistentValue.ToBooleanArray | ReactiveCascade/cascade/src/main/java/com/futurice/cascade/reactive/PersistentValue.java:219-233 | the corrected `toBooleanArray` splits on a newline |
| NetUtil.GetMaxNumberOfNetConnections | ReactiveCascade/cascade/src/main/java/com/futurice/cascade/util/NetUtil.java:248-265 | the limit is 2, 4 or 6; wifi gives 6, and without wifi it is never 6 |
| NetUtil.GetNetworkType | ReactiveCascade/cascade/src/main/java/com/futurice/cascade/util/NetUtil.java:280-309 | definition of `getNetworkType()`; the classification is proved in `NetworkTypeClasses` |
| NetUtil.NetworkTypeClasses | ReactiveCascade/cascade/src/main/java/com/futurice/cascade/util/NetUtil.java:280-309 | each generation gets exactly its technologies: UMTS, 1xRTT and every unlisted code are 3G |
| NetUtil.LimitOffWifiByGeneration | ReactiveCascade/cascade/src/main/java/com/futurice/cascade/util/NetUtil.java:248-265 | off wifi, 2G and 2.5G allow 2 connections and the later generations 4 |
| NetUtil.LimitByTechnology | ReactiveCascade/cascade/src/main/java/com/futurice/cascade/util/NetUtil.java:248-309 | off wifi the limit is 2 exactly for the second-generation technologies and 4 otherwise; wifi allows 6 |
| NetUtil.WifiAllowsMost | ReactiveCascade/cascade/src/main/java/com/futurice/cascade/util/NetUtil.java:49-51 | a connected wifi allows more connections than any radio |

## Left out

- Concurrency. Each compare-and-set and atomic read is one atomic step, and each loop goes through the downstream list as it was when the loop began, which is what `CopyOnWriteArrayList` iteration gives. Interleavings of threads are not modelled.
- Execution contexts. `doFork()` is a submission appended to a log. The thread type's executor either accepts the work or refuses it with `RejectedExecutionException`. What the submitted work then does (the bodies of `RunnableAltFuture` and `SettableAltFuture`) is not part of this model.
- Actions. They are kept only as a tag saying which combinator built the step. The bodies of the actions a caller passes in are foreign code. The one lambda the core itself writes, the body of the `filter` step, is modelled by `AbstractAltFuture.FilterRunW`, with the predicate's answer and the value's text as inputs.
- AbstractAltFuture.FilterChainedW: the corrected `filter` only chains the step below this future. The step's rejection still calls `cancel` on this future, which is already done by the time a chained step runs, so a chained filter cancels nothing (`FilterRejectionOnDoneChangesNothing`). The model does not guess which future the rejection was meant to cancel.
- `AssertUtil` and `CLog` are not part of this model. A failed assertion is the exception `AssertionFailed`, and `CLog.throwIllegalArgumentException` is `IllegalArgument`. Logging is dropped.
- `AltFutureFuture` and `sleep(...)` are left out: both wait on a clock.
- `getUpchain()` and `getThreadType()` are plain field reads on the arena and need no member.
- `set(IReactiveTarget)` and the `then`/`map` overloads that take `IActionR` or `IActionOneR` build one step each. They are modelled by `ThenStep`, so the target or mapping itself is not modelled.
- `Subscription` is not part of this model. `fire(v)` appends v to a log instead of delivering it to subscribers.
- Java `null` and `VALUE_NOT_AVAILABLE` are the cell values `Null` and `NotAvailable`. Compare-and-set compares by value equality, where Java compares references.
- ReactiveInteger.Update: compares values, so with no other thread writing it succeeds on its first turn. Java boxes `currentValue` afresh on every turn and `AtomicReference.compareAndSet` compares references, so for a stored value outside the small-integer cache the loop never ends, even on one thread (see "## Findings"; `UpdateAsWritten` models the loop as written).
- The `ReactiveInteger` constructors are left out. They call `ReactiveValue` constructors with signatures that `ReactiveValue` does not declare, so their initial-value meaning is undefined here.
- ReactiveValue.SetSpec: the change test is value equality. Java tests reference identity and `equals` in both directions, which differs for an `equals` that is not symmetric.
- `PersistentValue` reading from and writing to `SharedPreferences` is I/O and is left out, as are its listener and registry. `getKey(Context)` is `GetKey` given the context's class.
- The `float` codecs are floating point and are left out.
- PersistentValue.ParseInteger: accepts ASCII digits only, where `Character.digit` also accepts other Unicode digits.
- PersistentValue.ParseBoolean: case-folds ASCII letters only, where `equalsIgnoreCase` also folds other letters.
- A `null` element of a `String[]`, which `StringBuilder` writes as `null`, is not modelled.
- AbstractAltFuture.UpchainCancellation: the text of the error's exception, which its own `toString()` gives, is an input carried in `StateError.exceptionText`.
- AbstractAltFuture.SetUpchainW: requires the upchain future to be older than this one. Java checks nothing, so `setUpchain` on a future built before its future also links, and a cycle makes the climb of `fork()` (AbstractAltFuture.java:222-229) recurse without end; the model cannot link two existing futures in that order.
- AbstractAltFuture.AppendDownstream: requires the listed future to be younger than the list's owner, for the same reason.
- AbstractAltFuture.LinkBelow: requires f to be younger than x, so `x.then(f)` with an f built before x is not modelled.
- AbstractAltFuture.ThenW: requires f to be younger than x, so `x.then(f)` with an f built before x (a `SettableAltFuture` created first and chained later) is not modelled; `x.then(x)`, which Java accepts and which makes `fork()` recurse without end, is excluded too.
- AltFutureGraph.FutureGraph.SetUpchain: the same restriction as `SetUpchainW`.
- AltFutureGraph.FutureGraph.Then: the same restriction as `ThenW`.
- CompoundAltFuture.SetUpchain: `setUpchain` on a compound needs the new upchain future to be older than the compound's head, so an already-built compound cannot be chained below a later future.
- CompoundAltFuture.ThenFuture: `then(f)` on a compound needs f to be younger than the tail.
- AbstractAltFutureProps.SetUpchainIsSetOnce: stated only for upchain futures older than this one.
- AbstractAltFutureProps.ThenOnPendingOnlyLinks: stated only for an f younger than x.
- AbstractAltFutureProps.ThenOnDoneForks: stated only for an f younger than x.
- `isWifi()` and `TelephonyManager.getNetworkType()` are inputs. Telephony codes the switch does not name are `Other(code)`. The HTTP helpers of `NetUtil` are left out, and so is `NetUtilTest`, which exercises the live network.
- AbstractAltFutureProps.AttachEachBuildsFirst: the general statement that the j-th step of the `await(IAltFuture...)` loop is linked below the j-th listed future is left out. Only the first step is proved.
- AbstractAltFutureProps.CancelWithErrorLeavesChildPending: `cancel(StateError)` is documented to cascade. The code does not, and the model follows the code.

## Findings

| source | as written | input that shows it | evidently intended | confidence | as-written member | corrected member |
|---|---|---|---|---|---|---|
| ReactiveCascade/cascade/src/main/java/com/futurice/cascade/functional/AbstractAltFuture.java:177-186 | the lambda `ignore -> doOnCancelled(stateCancelled)` passed to `forEachThen` ignores the entry it is given, so each downstream entry calls this future's own `doOnCancelled`, which then does nothing | a `ZEN` future with one `ZEN` downstream future: after `cancel(stateError)` the downstream future is still `ZEN` | the cancellation cascades to every downstream entry, as `doOnCancelled` does | not executed | AbstractAltFutureProps.CancelWithErrorLeavesChildPending | AbstractAltFutureProps.CancelWithErrorCascades |
| ReactiveCascade/cascade/src/main/java/com/futurice/cascade/functional/AbstractAltFuture.java:604-612 | `filter` builds its step and returns it without chaining it with `then` | any future x: the new step has no upchain and x does not list it, so x completing never runs it | the step is chained below this future, as every other combinator's is | not executed | AbstractAltFutureProps.FilterIsDetached | AbstractAltFutureProps.FilterChainedIsLinked |
| ReactiveCascade/cascade/src/main/java/com/futurice/cascade/functional/AbstractAltFuture.java:509-511 | `then(IAction...)` asserts `actions.length == 0` and then `actions.length == 1`, so one of the two assertions fails for every call; `CompoundAltFuture.then(IAction...)` forwards to it and fails too (`CompoundAltFuture.ThenActionsAtTail`) | `then(a, b)`: the first assertion fails | at least two actions, as `then(IActionOne...)` checks | not executed | AbstractAltFuture.ThenActionsAsWrittenW | AbstractAltFutureProps.ThenAllArity |
| ReactiveCascade/cascade/src/main/java/com/futurice/cascade/functional/AbstractAltFuture.java:534-536 | `map(IActionOneR...)` has the same pair of assertions; `CompoundAltFuture.map(IActionOneR...)` forwards to it and fails too (`CompoundAltFuture.MapAllFromTail`) | `map(f, g)`: the first assertion fails | at least two actions, and then n fresh steps | not executed | AbstractAltFuture.MapAllAsWrittenW | AbstractAltFutureProps.MapAllBuildsUnlinkedSteps |
| ReactiveCascade/cascade/src/main/java/com/futurice/cascade/reactive/PersistentValue.java:206-233 | `toStringSet(boolean[])` joins with a newline, and `toBooleanArray` splits on a comma | `{true, false}` is written as `true\nfalse` and read back as `{false}` | the decoder splits on the separator the encoder writes | not executed | PersistentValue.BooleansRoundTripFailsAsWritten | PersistentValue.BooleansRoundTrip |
| ReactiveCascade/cascade/src/main/java/com/futurice/cascade/reactive/PersistentValue.java:248-259 | `toStringSet(String[])` joins with a comma, and `toStringArray` splits on a newline | `{"a", "b"}` is written as `a,b` and read back as `{"a,b"}` | the encoder joins with the separator the decoder splits on | not executed | PersistentValue.StringsRoundTripFailsAsWritten | PersistentValue.StringsRoundTrip |
| ReactiveCascade/cascade/src/main/java/com/futurice/cascade/reactive/ReactiveInteger.java:81-109 | `addAndGet` and `multiplyAndGet` box `currentValue` afresh for `compareAndSet`, and `AtomicReference.compareAndSet` (ReactiveValue.java:172) compares references | a `ReactiveInteger` holding 1000 and one thread calling `addAndGet(1)`: every compare-and-set fails and the loop never returns | the compare-and-set succeeds when the value read is still stored, so one turn suffices without contention | not executed | ReactiveInteger.AddAndGetLoopsOutsideCache | ReactiveInteger.Update |
| ReactiveCascade/cascade/src/main/java/com/futurice/cascade/reactive/ReactiveValue.java:60-70 | `ReactiveValue(name, initialValue)` calls `this(name, null, null, null)` and never uses `initialValue` | `new ReactiveValue<>("n", 5).get()` throws `IllegalStateException` | the initial value is stored and fired, as by `set(initialValue)` | not executed | ReactiveValue.InitialValueIsDropped | ReactiveValue.InitialWith |
