/** The transitions of `AbstractAltFuture` as functions on the arena: each
    compare-and-set is one atomic step, and each loop over a downstream list
    walks the list as it was when the loop began. */
module AbstractAltFuture {
  import opened Common
  import opened AltFutureState
  import OnCancelledAltFuture

  /** The arena after a void operation, and the exception it threw, if any. */
  datatype Step = Step(w: World, thrown: Option<Exc>)

  /** The arena after an operation that returns a value or throws. */
  datatype Outcome<+T> = Outcome(w: World, result: Result<T>)

  // ------------------------------------------------------------------ fork

  /** `fork()` climbs the upchain while the upchain future is present and not
      done; this is the future whose state it finally inspects. */
  function ForkTarget(w: World, id: Id): (t: Id)
    requires WF(w) && id < |w.nodes|
    ensures t < |w.nodes| && t <= id
    ensures w.nodes[t].upchain.None? || IsDone(w.states[w.nodes[t].upchain.value])
    decreases id
  {
    match w.nodes[id].upchain
    case Some(u) => if !IsDone(w.states[u]) then ForkTarget(w, u) else id
    case None => id
  }

  /** `doFork()`: submit the future's work to its execution context, which
      may refuse it. */
  function DoFork(cfg: Config, w: World, t: Id): (s: Step)
    requires t < |w.nodes|
  {
    if w.nodes[t].thread in cfg.refusing then Step(w, Some(RejectedExecution))
    else Step(w.(submitted := w.submitted + [t]), None)
  }

  /** `fork()`.  With `USE_FORKED_STATE` the guard is the compare-and-set
      `ZEN -> FORKED`; without it, only a read that the state is `ZEN`. */
  function ForkW(cfg: Config, w: World, id: Id): (s: Step)
    requires WF(w) && id < |w.nodes|
    ensures WF(s.w) && StepFrame(w, s.w)
  {
    var t := ForkTarget(w, id);
    if !w.states[t].Zen? then Step(w, None)
    else DoFork(cfg, if cfg.useForkedState then SetState(w, t, Forked) else w, t)
  }

  // ---------------------------------------------------------------- cancel

  /** `cancel(String)`: the `AltFutureStateCancelled` constructor refuses an
      empty reason in debug builds; then `ZEN` or `FORKED` moves to cancelled.
      There is no cascade. */
  function CancelW(cfg: Config, w: World, id: Id, reason: string): (r: Outcome<bool>)
    requires WF(w) && id < |w.nodes|
    ensures WF(r.w) && StepFrame(w, r.w)
  {
    if cfg.debug && |reason| == 0 then Outcome(w, Err(IllegalArgument))
    else if IsLive(w.states[id]) then
      Outcome(SetState(w, id, Cancelled(reason, None)), Ok(true))
    else Outcome(w, Ok(false))
  }

  /** The state `cancel(StateError)` installs: its reason names the error
      in the text `toString()` gives it. */
  function UpchainCancellation(e: StateError): CancelledState {
    var s: State := Cancelled("Cancelled by upchain error=" + StateErrorText(e), Some(e));
    s
  }

  // ------------------------------------------------------ the cascade cluster

  /** The action `forEachThen` applies to each downstream entry.
      `CancelSelf` is the lambda `ignore -> doOnCancelled(c)` of
      `cancel(StateError)`: it ignores the entry and calls the hook of the
      future that owns the list. */
  datatype Hook =
    | ForkEach
    | CancelEach(c: CancelledState)
    | ErrorEach(e: StateError)
    | CancelSelf(owner: Id, c: CancelledState)

  /** `CancelSelf` is only used once the owner is already done. */
  predicate HookReady(w: World, hook: Hook) {
    hook.CancelSelf? ==> hook.owner < |w.states| && IsDone(w.states[hook.owner])
  }

  predicate AllIn(w: World, ds: seq<Id>, parent: Id) {
    forall i :: 0 <= i < |ds| ==> ds[i] < |w.nodes| && parent < ds[i]
  }

  /** `forEachThen(action)`: apply the action to every entry of the list in
      order, whether or not earlier entries threw, and keep the first
      exception. `first` is the accumulator of the loop. */
  function ForEachThenW(cfg: Config, w: World, parent: Id, ds: seq<Id>, hook: Hook,
                        first: Option<Exc>): (s: Step)
    requires WF(w) && parent < |w.nodes| && AllIn(w, ds, parent) && HookReady(w, hook)
    ensures WF(s.w) && StepFrame(w, s.w)
    decreases |w.nodes| - parent, 0, |ds|
  {
    if ds == [] then Step(w, first)
    else
      var s1 := ApplyHook(cfg, w, ds[0], hook);
      ForEachThenW(cfg, s1.w, parent, ds[1..], hook, if first.Some? then first else s1.thrown)
  }

  /** One turn of the loop: the action on entry i, then the rest of the list
      from the arena it left. */
  lemma ForEachThenStep(cfg: Config, w: World, parent: Id, ds: seq<Id>, i: nat, hook: Hook, first: Option<Exc>)
    requires WF(w) && parent < |w.nodes| && AllIn(w, ds, parent) && HookReady(w, hook) && i < |ds|
    ensures var s1 := ApplyHook(cfg, w, ds[i], hook);
            ForEachThenW(cfg, w, parent, ds[i..], hook, first)
            == ForEachThenW(cfg, s1.w, parent, ds[i + 1..], hook, if first.Some? then first else s1.thrown)
  {
    assert ds[i..][0] == ds[i] && ds[i..][1..] == ds[i + 1..];
  }

  /** One call of the action on one entry. */
  function ApplyHook(cfg: Config, w: World, d: Id, hook: Hook): (s: Step)
    requires WF(w) && d < |w.nodes| && HookReady(w, hook)
    ensures WF(s.w) && StepFrame(w, s.w)
    decreases |w.nodes| - d, 2, 0
  {
    match hook
    case ForkEach => ForkW(cfg, w, d)
    case CancelEach(c) => DoOnCancelledW(cfg, w, d, c)
    case ErrorEach(e) => DoOnErrorW(cfg, w, d, e)
    case CancelSelf(owner, c) => DoOnCancelledW(cfg, w, owner, c)
  }

  /** `doOnCancelled(stateCancelled)`.  The base class moves only from `ZEN`
      or `FORKED` and then cascades to every downstream entry, re-throwing the
      first exception; `OnCancelledAltFuture` overwrites and stops. */
  function DoOnCancelledW(cfg: Config, w: World, id: Id, c: CancelledState): (s: Step)
    requires WF(w) && id < |w.nodes|
    ensures WF(s.w) && StepFrame(w, s.w)
    decreases if IsLive(w.states[id]) then |w.nodes| - id else 0, 1, 0
  {
    if w.nodes[id].kind.OnCancelledStep? then
      OnCancelledAltFuture.OverrideTouchesOnlyItsState(w, id, c);
      Step(OnCancelledAltFuture.DoOnCancelledOverride(w, id, c), None)
    else if !IsLive(w.states[id]) then Step(w, None)
    else
      SetStateFrame(w, id, c);
      ForEachThenW(cfg, SetState(w, id, c), id, w.nodes[id].downstream, CancelEach(c), None)
  }

  /** `doOnError(stateError)`.  The first compare-and-set moves `ZEN` to the
      error; with `USE_FORKED_STATE` the second one (`FORKED` -> error) then
      fails and the method returns before the cascade.  From any other state
      the first one fails and nothing happens. */
  function DoOnErrorW(cfg: Config, w: World, id: Id, e: StateError): (s: Step)
    requires WF(w) && id < |w.nodes|
    ensures WF(s.w) && StepFrame(w, s.w)
    decreases if w.states[id].Zen? then |w.nodes| - id else 0, 1, 0
  {
    if !w.states[id].Zen? then Step(w, None)
    else
      SetStateFrame(w, id, Errored(e));
      if cfg.useForkedState then Step(SetState(w, id, Errored(e)), None)
      else ForEachThenW(cfg, SetState(w, id, Errored(e)), id, w.nodes[id].downstream, ErrorEach(e), None)
  }

  /** `cancel(StateError)` as written: the lambda passed to `forEachThen`
      ignores the entry, so once per downstream entry it calls this future's
      own `doOnCancelled`, whose compare-and-set then fails. */
  function CancelWithErrorW(cfg: Config, w: World, id: Id, e: StateError): (r: Outcome<bool>)
    requires WF(w) && id < |w.nodes|
    ensures WF(r.w) && StepFrame(w, r.w)
  {
    if !IsLive(w.states[id]) then Outcome(w, Ok(false))
    else
      var c := UpchainCancellation(e);
      SetStateFrame(w, id, c);
      var s := ForEachThenW(cfg, SetState(w, id, c), id, w.nodes[id].downstream, CancelSelf(id, c), None);
      if s.thrown.Some? then Outcome(s.w, Err(RuntimeCausedBy(s.thrown.value)))
      else Outcome(s.w, Ok(true))
  }

  /** `cancel(StateError)` as its documentation intends: the hook of each
      downstream entry is called. */
  function CancelWithErrorCascadingW(cfg: Config, w: World, id: Id, e: StateError): (r: Outcome<bool>)
    requires WF(w) && id < |w.nodes|
    ensures WF(r.w) && StepFrame(w, r.w)
  {
    if !IsLive(w.states[id]) then Outcome(w, Ok(false))
    else
      var c := UpchainCancellation(e);
      SetStateFrame(w, id, c);
      var s := ForEachThenW(cfg, SetState(w, id, c), id, w.nodes[id].downstream, CancelEach(c), None);
      if s.thrown.Some? then Outcome(s.w, Err(RuntimeCausedBy(s.thrown.value)))
      else Outcome(s.w, Ok(true))
  }

  /** `doThen()`: asserts that the future is done, then forks every
      downstream entry, wrapping the first exception. */
  function DoThenW(cfg: Config, w: World, id: Id): (s: Step)
    requires WF(w) && id < |w.nodes|
    ensures WF(s.w) && StepFrame(w, s.w)
  {
    if !IsDone(w.states[id]) then Step(w, Some(AssertionFailed))
    else
      var s := ForEachThenW(cfg, w, id, w.nodes[id].downstream, ForkEach, None);
      if s.thrown.Some? then Step(s.w, Some(IllegalStateCausedBy(s.thrown.value))) else s
  }

  // --------------------------------------------------------- upchain links

  /** `setUpchain(altFuture)`: a compare-and-set from null, so only the first
      link is kept. */
  function SetUpchainW(w: World, id: Id, up: Id): (w': World)
    requires WF(w) && id < |w.nodes| && up < |w.nodes| && up < id
    ensures WF(w') && w' == w.(nodes := w'.nodes)
    ensures w'.nodes[id] == w.nodes[id].(upchain := if w.nodes[id].upchain.None? then Some(up) else w.nodes[id].upchain)
    ensures forall y :: 0 <= y < |w.nodes| && y != id ==> w'.nodes[y] == w.nodes[y]
  {
    if w.nodes[id].upchain.None? then
      LinkedSetUpchain(w.nodes, id, Some(up));
      w.(nodes := w.nodes[id := w.nodes[id].(upchain := Some(up))])
    else w
  }

  /** `clearPreviousAltFuture()`: asserts the future is done, then drops the
      upchain link. */
  function ClearUpchainW(w: World, id: Id): (s: Step)
    requires WF(w) && id < |w.nodes|
    ensures WF(s.w) && s.w == w.(nodes := s.w.nodes)
  {
    if !IsDone(w.states[id]) then Step(w, Some(AssertionFailed))
    else
      LinkedSetUpchain(w.nodes, id, None);
      Step(w.(nodes := w.nodes[id := w.nodes[id].(upchain := None)]), None)
  }

  // ------------------------------------------------------------- then

  /** `mDownchainAltFutureList.add(f)` */
  function AppendDownstream(w: World, x: Id, f: Id): (w': World)
    requires WF(w) && x < |w.nodes| && f < |w.nodes| && x < f
    ensures WF(w') && w' == w.(nodes := w'.nodes)
    ensures w'.nodes[x] == w.nodes[x].(downstream := w.nodes[x].downstream + [f])
    ensures forall y :: 0 <= y < |w.nodes| && y != x ==> w'.nodes[y] == w.nodes[y]
  {
    LinkedAppend(w.nodes, x, f);
    w.(nodes := w.nodes[x := w.nodes[x].(downstream := w.nodes[x].downstream + [f])])
  }

  /** The links `then(f)` adds: f's upchain (if it had none) and the entry
      in x's downstream list. */
  function LinkBelow(w: World, x: Id, f: Id): (w': World)
    requires WF(w) && x < |w.nodes| && f < |w.nodes| && x < f
    ensures WF(w') && w' == w.(nodes := w'.nodes)
    ensures w'.nodes[x].downstream == w.nodes[x].downstream + [f]
    ensures w'.nodes[f].upchain == if w.nodes[f].upchain.None? then Some(x) else w.nodes[f].upchain
    ensures forall y :: 0 <= y < |w.nodes| ==>
              && w'.nodes[y].kind == w.nodes[y].kind
              && w'.nodes[y].thread == w.nodes[y].thread
              && (y != f ==> w'.nodes[y].upchain == w.nodes[y].upchain)
  {
    AppendDownstream(SetUpchainW(w, f, x), x, f)
  }

  /** `then(IAltFuture f)`: link f below x, append it to x's list, and fork
      it at once if x is already done.  Returns f, or what `fork` threw. */
  function ThenW(cfg: Config, w: World, x: Id, f: Id): (r: Outcome<Id>)
    requires WF(w) && x < |w.nodes| && f < |w.nodes| && x < f
    ensures WF(r.w) && r.w.nodes == LinkBelow(w, x, f).nodes && |r.w.nodes| == |w.nodes|
    ensures r.w.countdowns == w.countdowns && r.w.sets == w.sets
    ensures r.result.Ok? ==> r.result.value == f
  {
    var w2 := LinkBelow(w, x, f);
    if IsDone(w2.states[x]) then
      var s := ForkW(cfg, w2, f);
      Outcome(s.w, if s.thrown.Some? then Err(s.thrown.value) else Ok(f))
    else Outcome(w2, Ok(f))
  }

  /** A freshly constructed future: `ZEN`, no links. */
  function NewFuture(w: World, kind: Kind, thread: ThreadType): (w': World)
    requires WF(w)
    ensures WF(w') && |w'.nodes| == |w.nodes| + 1
    ensures w'.nodes == w.nodes + [Node(None, [], kind, thread)] && w'.states == w.states + [Zen]
    ensures w'.submitted == w.submitted && w'.countdowns == w.countdowns && w'.sets == w.sets
  {
    LinkedFresh(w.nodes, Node(None, [], kind, thread));
    w.(nodes := w.nodes + [Node(None, [], kind, thread)], states := w.states + [Zen])
  }

  /** `then(new SomeAltFuture(thread, ...))`: the shape of every combinator
      that builds one step and chains it. */
  function ThenNewW(cfg: Config, w: World, x: Id, kind: Kind, thread: ThreadType): (r: Outcome<Id>)
    requires WF(w) && x < |w.nodes|
    ensures WF(r.w) && |r.w.nodes| == |w.nodes| + 1
    ensures r.w.countdowns == w.countdowns && r.w.sets == w.sets
    ensures r.w.nodes[|w.nodes|].kind == kind && r.w.nodes[|w.nodes|].thread == thread
    ensures r.w.nodes[|w.nodes|].upchain == Some(x)
    ensures r.w.nodes[x].downstream == w.nodes[x].downstream + [|w.nodes|]
    ensures r.result.Ok? ==> r.result.value == |w.nodes|
  {
    ThenW(cfg, NewFuture(w, kind, thread), x, |w.nodes|)
  }

  /** Chaining a new step changes no older future's class, thread type or
      upchain link. */
  lemma ThenNewKeepsNode(cfg: Config, w: World, x: Id, kind: Kind, thread: ThreadType, y: Id)
    requires WF(w) && x < |w.nodes| && y < |w.nodes|
    ensures var r := ThenNewW(cfg, w, x, kind, thread);
            && r.w.nodes[y].kind == w.nodes[y].kind
            && r.w.nodes[y].thread == w.nodes[y].thread
            && r.w.nodes[y].upchain == w.nodes[y].upchain
  {
    var w1 := NewFuture(w, kind, thread);
    assert ThenW(cfg, w1, x, |w.nodes|).w.nodes == LinkBelow(w1, x, |w.nodes|).nodes;
  }

  /** `on(threadType)`: `this` when already on that thread type, otherwise a
      settable relay chained on the new one. */
  function OnW(cfg: Config, w: World, x: Id, t: ThreadType): (r: Outcome<Id>)
    requires WF(w) && x < |w.nodes|
    ensures WF(r.w)
  {
    if t == w.nodes[x].thread then Outcome(w, Ok(x))
    else ThenNewW(cfg, w, x, Settable, t)
  }

  /** `filter(action)` as written: a new step on this thread type that is
      never chained to this future. */
  function FilterW(w: World, x: Id): (r: Outcome<Id>)
    requires WF(w) && x < |w.nodes|
    ensures WF(r.w)
  {
    Outcome(NewFuture(w, Runnable(FilterStep), w.nodes[x].thread), Ok(|w.nodes|))
  }

  /** `filter(action)` chained with `then`, as the pass-through step the
      combinator is meant to be. */
  function FilterChainedW(cfg: Config, w: World, x: Id): (r: Outcome<Id>)
    requires WF(w) && x < |w.nodes|
    ensures WF(r.w)
  {
    ThenNewW(cfg, w, x, Runnable(FilterStep), w.nodes[x].thread)
  }

  /** The body of the step `filter(action)` builds, run on the value v whose
      `toString()` is text: when the predicate rejects v (accepted is false)
      it calls `cancel("Filtered: " + text)`. The lambda is written inside
      `filter`, so that `cancel` is the one of the future `filter` was called
      on, x, not the filter step's own. The step then yields v either way. */
  function FilterRunW(cfg: Config, w: World, x: Id, v: int, accepted: bool, text: string): (r: Outcome<int>)
    requires WF(w) && x < |w.nodes|
    ensures WF(r.w) && StepFrame(w, r.w)
  {
    if accepted then Outcome(w, Ok(v))
    else
      var c := CancelW(cfg, w, x, "Filtered: " + text);
      if c.result.Err? then Outcome(c.w, Err(c.result.error)) else Outcome(c.w, Ok(v))
  }

  // ------------------------------------------------------------- await

  /** The loop of `await(IAltFuture...)`: `f.then(step)` for each listed
      future in order; an exception ends the loop. */
  function AttachEachW(cfg: Config, w: World, fs: seq<Id>, action: Action): (s: Step)
    requires WF(w) && forall i :: 0 <= i < |fs| ==> fs[i] < |w.nodes|
    ensures WF(s.w) && |w.nodes| <= |s.w.nodes|
    ensures s.w.countdowns == w.countdowns
    ensures s.thrown.None? ==> |s.w.nodes| == |w.nodes| + |fs|
    ensures fs != [] ==> |w.nodes| < |s.w.nodes|
    decreases |fs|
  {
    if fs == [] then Step(w, None)
    else
      var r := ThenNewW(cfg, w, fs[0], Runnable(action), w.nodes[fs[0]].thread);
      if r.result.Err? then Step(r.w, Some(r.result.error))
      else AttachEachW(cfg, r.w, fs[1..], action)
  }

  /** One turn of the loop of `await(IAltFuture...)`: the arrival step on
      entry i, then the rest of the list. */
  lemma AttachEachStep(cfg: Config, w: World, fs: seq<Id>, i: nat, action: Action)
    requires WF(w) && (forall j :: 0 <= j < |fs| ==> fs[j] < |w.nodes|) && i < |fs|
    ensures var r := ThenNewW(cfg, w, fs[i], Runnable(action), w.nodes[fs[i]].thread);
            AttachEachW(cfg, w, fs[i..], action)
            == if r.result.Err? then Step(r.w, Some(r.result.error)) else AttachEachW(cfg, r.w, fs[i + 1..], action)
  {
    assert fs[i..][0] == fs[i] && fs[i..][1..] == fs[i + 1..];
  }

  /** `await(IAltFuture f)`: a settable output linked below x, and a step on
      f that sets it. */
  function AwaitOneW(cfg: Config, w: World, x: Id, f: Id): (r: Outcome<Id>)
    requires WF(w) && x < |w.nodes| && f < |w.nodes|
    ensures WF(r.w) && |r.w.nodes| == |w.nodes| + 2
  {
    var o := |w.nodes|;
    var w1 := SetUpchainW(NewFuture(w, Settable, w.nodes[x].thread), o, x);
    var s := ThenNewW(cfg, w1, f, Runnable(SetOut(o, x)), w.nodes[f].thread);
    Outcome(s.w, if s.result.Err? then s.result else Ok(o))
  }

  /** `await(IAltFuture... fs)`: at least two futures, a settable output
      linked below x, one shared countdown of |fs|, and one arrival step on
      each listed future. */
  function AwaitAllW(cfg: Config, w: World, x: Id, fs: seq<Id>): (r: Outcome<Id>)
    requires WF(w) && x < |w.nodes| && forall i :: 0 <= i < |fs| ==> fs[i] < |w.nodes|
    ensures WF(r.w) && |w.nodes| <= |r.w.nodes|
    ensures |fs| >= 2 ==> |w.nodes| < |r.w.nodes|
  {
    if |fs| == 0 || |fs| == 1 then Outcome(w, Err(AssertionFailed))
    else
      var o := |w.nodes|;
      var k := |w.countdowns|;
      var w1 := NewFuture(w, Settable, w.nodes[x].thread);
      var w2 := w1.(countdowns := w1.countdowns + [Countdown(|fs|, o, x)]);
      var w3 := SetUpchainW(w2, o, x);
      var s := AttachEachW(cfg, w3, fs, Arrival(k));
      Outcome(s.w, if s.thrown.Some? then Err(s.thrown.value) else Ok(o))
  }

  /** The n consecutive ids from lo. */
  function FreshIds(lo: Id, n: nat): (ids: seq<Id>)
    ensures |ids| == n && forall i :: 0 <= i < n ==> ids[i] == lo + i
  {
    if n == 0 then [] else FreshIds(lo, n - 1) + [lo + n - 1]
  }

  /** One more fresh id extends the list by the next index. */
  lemma FreshIdsSnoc(lo: Id, n: nat)
    ensures FreshIds(lo, n) + [lo + n] == FreshIds(lo, n + 1)
  {
  }

  lemma FreshIdsIn(w: World, lo: Id, n: nat)
    requires WF(w) && lo + n <= |w.nodes|
    ensures forall i :: 0 <= i < n ==> FreshIds(lo, n)[i] < |w.nodes|
  {
  }

  /** The list `then(IActionOne... actions)` chains its n steps to: this
      future, n times. */
  function Repeat(x: Id, n: nat): (fs: seq<Id>)
    ensures |fs| == n && forall i :: 0 <= i < n ==> fs[i] == x
  {
    seq(n, _ => x)
  }

  /** `then(IActionOne... actions)` with n actions: the arity checks, the
      index loop, then `await` over the new steps. */
  function ThenAllW(cfg: Config, w: World, x: Id, n: nat, action: Action): (r: Outcome<Id>)
    requires WF(w) && x < |w.nodes|
    ensures WF(r.w)
  {
    if n == 0 || n == 1 then Outcome(w, Err(AssertionFailed))
    else ThenEachAwaitW(cfg, w, x, n, action)
  }

  /** What the varargs `then` overloads do after their arity checks: the
      index loop `altFutures[i] = then(new RunnableAltFuture(...))`, then
      `await(altFutures)`.  Any action builds at least one future. */
  function ThenEachAwaitW(cfg: Config, w: World, x: Id, n: nat, action: Action): (r: Outcome<Id>)
    requires WF(w) && x < |w.nodes|
    ensures WF(r.w)
    ensures n > 0 ==> |w.nodes| < |r.w.nodes|
  {
    var s := AttachEachW(cfg, w, Repeat(x, n), action);
    if s.thrown.Some? then Outcome(s.w, Err(s.thrown.value))
    else
      FreshIdsIn(s.w, |w.nodes|, n);
      AwaitAllW(cfg, s.w, x, FreshIds(|w.nodes|, n))
  }

  /** `AssertUtil.assertTrue(c)` in front of the computation r: when c is
      false it throws before anything has changed. */
  function AssertThen<T>(w: World, c: bool, r: Outcome<T>): Outcome<T> {
    if c then r else Outcome(w, Err(AssertionFailed))
  }

  /** `then(IAction... actions)` as written: `assertTrue(length == 0)`, then
      `assertTrue(length == 1)`, then the index loop and `await`.  No arity
      passes both assertions, so every call fails and changes nothing. */
  function ThenActionsAsWrittenW(cfg: Config, w: World, x: Id, n: nat): (r: Outcome<Id>)
    requires WF(w) && x < |w.nodes|
    ensures r == Outcome(w, Err(AssertionFailed))
  {
    AssertThen(w, n == 0, AssertThen(w, n == 1, ThenEachAwaitW(cfg, w, x, n, RunAction)))
  }

  /** n unchained steps on x's thread type (the body of `map(...)`). */
  function NewStepsW(w: World, x: Id, n: nat): (r: World)
    requires WF(w) && x < |w.nodes|
    ensures WF(r) && |r.nodes| == |w.nodes| + n
    decreases n
  {
    if n == 0 then w
    else NewStepsW(NewFuture(w, Runnable(MapActionOneR), w.nodes[x].thread), x, n - 1)
  }

  /** The loop leaves the older futures alone and appends n unlinked steps
      on x's thread type, all `ZEN`. */
  lemma {:induction false} NewStepsShape(w: World, x: Id, n: nat)
    requires WF(w) && x < |w.nodes|
    ensures var r := NewStepsW(w, x, n);
            && (forall y :: 0 <= y < |w.nodes| ==> r.nodes[y] == w.nodes[y] && r.states[y] == w.states[y])
            && (forall i :: |w.nodes| <= i < |w.nodes| + n ==>
                  r.nodes[i] == Node(None, [], Runnable(MapActionOneR), w.nodes[x].thread) && r.states[i] == Zen)
    decreases n
  {
    if n > 0 {
      var w1 := NewFuture(w, Runnable(MapActionOneR), w.nodes[x].thread);
      NewStepsShape(w1, x, n - 1);
    }
  }

  /** One turn of the construction loop of `map(IActionOneR... actions)`. */
  lemma NewStepsStep(w: World, x: Id, n: nat)
    requires WF(w) && x < |w.nodes| && 0 < n
    ensures var w1 := NewFuture(w, Runnable(MapActionOneR), w.nodes[x].thread);
            w1.nodes[x].thread == w.nodes[x].thread && NewStepsW(w, x, n) == NewStepsW(w1, x, n - 1)
  {
  }

  /** `map(IActionOneR... actions)` with the arity checks of the other varargs
      combinators (at least two actions). */
  function MapAllW(w: World, x: Id, n: nat): (r: Outcome<seq<Id>>)
    requires WF(w) && x < |w.nodes|
    ensures WF(r.w)
  {
    if n == 0 || n == 1 then Outcome(w, Err(AssertionFailed))
    else Outcome(NewStepsW(w, x, n), Ok(FreshIds(|w.nodes|, n)))
  }

  /** `map(IActionOneR... actions)` as written: the same two assertions in
      front of the construction loop, so every call fails and changes
      nothing. */
  function MapAllAsWrittenW(w: World, x: Id, n: nat): (r: Outcome<seq<Id>>)
    requires WF(w) && x < |w.nodes|
    ensures r == Outcome(w, Err(AssertionFailed))
  {
    AssertThen(w, n == 0, AssertThen(w, n == 1, Outcome(NewStepsW(w, x, n), Ok(FreshIds(|w.nodes|, n)))))
  }

  /** The body of one arrival step of `await(IAltFuture...)`:
      `if (downCounter.decrementAndGet() == 0) outAltFuture.set(get())`,
      where `get()` is the anchor's (the future `await` was called on). */
  function ArriveW(w: World, k: nat): (r: Outcome<bool>)
    requires k < |w.countdowns| && w.countdowns[k].anchor < |w.states|
    ensures r.w.nodes == w.nodes && r.w.states == w.states && |r.w.countdowns| == |w.countdowns|
    ensures r.w.countdowns[k] == w.countdowns[k].(remaining := w.countdowns[k].remaining - 1)
  {
    var c := w.countdowns[k].(remaining := w.countdowns[k].remaining - 1);
    var w1 := w.(countdowns := w.countdowns[k := c]);
    if c.remaining != 0 then Outcome(w1, Ok(false))
    else match Get(w.states[c.anchor])
      case Err(e) => Outcome(w1, Err(e))
      case Ok(v) => Outcome(w1.(sets := w1.sets + [SetEvent(c.out, v)]), Ok(true))
  }

  /** m arrivals on countdown k, one after the other. */
  function ArriveN(w: World, k: nat, m: nat): (r: World)
    requires k < |w.countdowns| && w.countdowns[k].anchor < |w.states|
    ensures r.nodes == w.nodes && r.states == w.states && |r.countdowns| == |w.countdowns|
    ensures r.countdowns[k] == w.countdowns[k].(remaining := w.countdowns[k].remaining - m)
    decreases m
  {
    if m == 0 then w else ArriveW(ArriveN(w, k, m - 1), k).w
  }
}
