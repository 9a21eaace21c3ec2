/** The alt-futures of a program as one object graph updated in place: each
    method is the Java method of the same name called on the future `id`
    (or `x`), and each is proved to leave the graph exactly as the matching
    transition function of `AbstractAltFuture` says. */
module AltFutureGraph {
  import opened Common
  import opened AltFutureState
  import opened AbstractAltFuture
  import OnCancelledAltFuture

  class FutureGraph {
    /** `Async.USE_FORKED_STATE`, `BuildConfig.DEBUG`, refusing executors */
    const cfg: Config
    /** The links of every future, indexed by id */
    var nodes: seq<Node>
    /** `mStateAR` of every future, indexed by id */
    var states: seq<State>
    /** Every `doFork()` that handed work to an executor, in order */
    var submitted: seq<Id>
    /** The `AtomicInteger downCounter` of every `await(IAltFuture...)` */
    var countdowns: seq<Countdown>
    /** Every `outAltFuture.set(value)`, in order */
    var sets: seq<SetEvent>

    function Arena(): World
      reads this
    {
      World(nodes, states, submitted, countdowns, sets)
    }

    ghost predicate Valid()
      reads this
    {
      WF(Arena())
    }

    constructor (cfg: Config)
      ensures Valid() && this.cfg == cfg && Arena() == EmptyWorld()
    {
      this.cfg := cfg;
      nodes := [];
      states := [];
      submitted := [];
      countdowns := [];
      sets := [];
    }

    /** `new SettableAltFuture(thread)`, `new RunnableAltFuture(thread, a)`,
        ...: a fresh `ZEN` future with no links. */
    method Create(kind: Kind, thread: ThreadType) returns (id: Id)
      requires Valid()
      modifies this
      ensures Valid()
      ensures Arena() == NewFuture(old(Arena()), kind, thread) && id == |old(nodes)|
    {
      id := |nodes|;
      LinkedFresh(nodes, Node(None, [], kind, thread));
      nodes := nodes + [Node(None, [], kind, thread)];
      states := states + [Zen];
    }

    // ---------------------------------------------------------------- fork

    /** `doFork()`: hand the future's work to its executor. */
    method DoFork(t: Id) returns (thrown: Option<Exc>)
      requires Valid() && t < |nodes|
      modifies this
      ensures Valid()
      ensures Arena() == AbstractAltFuture.DoFork(cfg, old(Arena()), t).w
      ensures thrown == AbstractAltFuture.DoFork(cfg, old(Arena()), t).thrown
    {
      if nodes[t].thread in cfg.refusing {
        thrown := Some(RejectedExecution);
      } else {
        submitted := submitted + [t];
        thrown := None;
      }
    }

    /** `fork()`: each pending upchain future forwards the call to its own
        upchain; the last one tries its compare-and-set. */
    method Fork(id: Id) returns (thrown: Option<Exc>)
      requires Valid() && id < |nodes|
      modifies this
      ensures Valid()
      ensures Arena() == ForkW(cfg, old(Arena()), id).w && thrown == ForkW(cfg, old(Arena()), id).thrown
    {
      var t: Id := id;
      while nodes[t].upchain.Some? && !IsDone(states[nodes[t].upchain.value])
        invariant t < |nodes| && ForkTarget(Arena(), t) == ForkTarget(Arena(), id)
        decreases t
      {
        t := nodes[t].upchain.value;
      }
      if !states[t].Zen? {
        return None;
      }
      if cfg.useForkedState {
        SetStateFrame(Arena(), t, Forked);
        states := states[t := Forked];
      }
      thrown := DoFork(t);
    }

    // -------------------------------------------------------------- cancel

    /** `cancel(String reason)` */
    method Cancel(id: Id, reason: string) returns (r: Result<bool>)
      requires Valid() && id < |nodes|
      modifies this
      ensures Valid()
      ensures Arena() == CancelW(cfg, old(Arena()), id, reason).w && r == CancelW(cfg, old(Arena()), id, reason).result
    {
      if cfg.debug && |reason| == 0 {
        return Err(IllegalArgument);
      }
      if states[id].Zen? || states[id].Forked? {
        SetStateFrame(Arena(), id, Cancelled(reason, None));
        states := states[id := Cancelled(reason, None)];
        return Ok(true);
      }
      return Ok(false);
    }

    /** `forEachThen(action)`: the loop over the downstream list as it was when
        the loop began, applying the hook to every entry and keeping the first
        exception. */
    method ForEachThen(parent: Id, hook: Hook) returns (thrown: Option<Exc>)
      requires Valid() && parent < |nodes| && HookReady(Arena(), hook)
      requires AllIn(Arena(), nodes[parent].downstream, parent)
      modifies this
      ensures Valid()
      ensures var s := ForEachThenW(cfg, old(Arena()), parent, old(nodes[parent].downstream), hook, None);
              Arena() == s.w && thrown == s.thrown
      decreases |nodes| - parent, 0
    {
      ghost var w0 := Arena();
      var ds := nodes[parent].downstream;
      var i := 0;
      thrown := None;
      while i < |ds|
        invariant 0 <= i <= |ds|
        invariant Valid() && StepFrame(w0, Arena()) && HookReady(Arena(), hook) && AllIn(Arena(), ds, parent)
        invariant ForEachThenW(cfg, w0, parent, ds, hook, None) == ForEachThenW(cfg, Arena(), parent, ds[i..], hook, thrown)
        decreases |ds| - i
      {
        ghost var w1 := Arena();
        ForEachThenStep(cfg, w1, parent, ds, i, hook, thrown);
        var t := CallAction(ds[i], hook);
        StepFrameTransitive(w0, w1, Arena());
        if thrown.None? {
          thrown := t;
        }
        i := i + 1;
      }
    }

    /** `action.call(altFuture)` for one entry of the list. */
    method CallAction(d: Id, hook: Hook) returns (thrown: Option<Exc>)
      requires Valid() && d < |nodes| && HookReady(Arena(), hook)
      modifies this
      ensures Valid()
      ensures Arena() == ApplyHook(cfg, old(Arena()), d, hook).w && thrown == ApplyHook(cfg, old(Arena()), d, hook).thrown
      decreases |nodes| - d, 2
    {
      match hook {
        case ForkEach =>
          thrown := Fork(d);
        case CancelEach(c) =>
          thrown := DoOnCancelled(d, c);
        case ErrorEach(e) =>
          thrown := DoOnError(d, e);
        case CancelSelf(owner, c) =>
          thrown := DoOnCancelled(owner, c);
      }
    }

    /** `OnCancelledAltFuture.doOnCancelled`: `mStateAR.set(stateCancelled)`. */
    method DoOnCancelledOverride(id: Id, c: CancelledState)
      requires Valid() && id < |nodes|
      modifies this
      ensures Valid()
      ensures Arena() == OnCancelledAltFuture.DoOnCancelledOverride(old(Arena()), id, c)
    {
      states := states[id := c];
    }

    /** `doOnCancelled(stateCancelled)`, dispatched on the future's class. */
    method DoOnCancelled(id: Id, c: CancelledState) returns (thrown: Option<Exc>)
      requires Valid() && id < |nodes|
      modifies this
      ensures Valid()
      ensures Arena() == DoOnCancelledW(cfg, old(Arena()), id, c).w && thrown == DoOnCancelledW(cfg, old(Arena()), id, c).thrown
      decreases if IsLive(states[id]) then |nodes| - id else 0, 1
    {
      if nodes[id].kind.OnCancelledStep? {
        OnCancelledAltFuture.OverrideTouchesOnlyItsState(Arena(), id, c);
        DoOnCancelledOverride(id, c);
        return None;
      }
      if !(states[id].Zen? || states[id].Forked?) {
        return None;
      }
      SetStateFrame(Arena(), id, c);
      states := states[id := c];
      thrown := ForEachThen(id, CancelEach(c));
    }

    /** `doOnError(stateError)` */
    method DoOnError(id: Id, e: StateError) returns (thrown: Option<Exc>)
      requires Valid() && id < |nodes|
      modifies this
      ensures Valid()
      ensures Arena() == DoOnErrorW(cfg, old(Arena()), id, e).w && thrown == DoOnErrorW(cfg, old(Arena()), id, e).thrown
      decreases if states[id].Zen? then |nodes| - id else 0, 1
    {
      if !states[id].Zen? {
        return None;
      }
      SetStateFrame(Arena(), id, Errored(e));
      states := states[id := Errored(e)];
      if cfg.useForkedState {
        return None;
      }
      thrown := ForEachThen(id, ErrorEach(e));
    }

    /** `cancel(StateError stateError)` as written. */
    method CancelWithError(id: Id, e: StateError) returns (r: Result<bool>)
      requires Valid() && id < |nodes|
      modifies this
      ensures Valid()
      ensures Arena() == CancelWithErrorW(cfg, old(Arena()), id, e).w && r == CancelWithErrorW(cfg, old(Arena()), id, e).result
    {
      if !(states[id].Zen? || states[id].Forked?) {
        return Ok(false);
      }
      var c := UpchainCancellation(e);
      SetStateFrame(Arena(), id, c);
      states := states[id := c];
      var t := ForEachThen(id, CancelSelf(id, c));
      if t.Some? {
        return Err(RuntimeCausedBy(t.value));
      }
      return Ok(true);
    }

    /** `cancel(StateError stateError)` as its documentation intends: the
        cancellation reaches every downstream entry. */
    method CancelWithErrorCascading(id: Id, e: StateError) returns (r: Result<bool>)
      requires Valid() && id < |nodes|
      modifies this
      ensures Valid()
      ensures Arena() == CancelWithErrorCascadingW(cfg, old(Arena()), id, e).w
      ensures r == CancelWithErrorCascadingW(cfg, old(Arena()), id, e).result
    {
      if !(states[id].Zen? || states[id].Forked?) {
        return Ok(false);
      }
      var c := UpchainCancellation(e);
      SetStateFrame(Arena(), id, c);
      states := states[id := c];
      var t := ForEachThen(id, CancelEach(c));
      if t.Some? {
        return Err(RuntimeCausedBy(t.value));
      }
      return Ok(true);
    }

    /** `doThen()` */
    method DoThen(id: Id) returns (thrown: Option<Exc>)
      requires Valid() && id < |nodes|
      modifies this
      ensures Valid()
      ensures Arena() == DoThenW(cfg, old(Arena()), id).w && thrown == DoThenW(cfg, old(Arena()), id).thrown
    {
      if !IsDone(states[id]) {
        return Some(AssertionFailed);
      }
      thrown := ForEachThen(id, ForkEach);
      if thrown.Some? {
        thrown := Some(IllegalStateCausedBy(thrown.value));
      }
    }

    // --------------------------------------------------------------- links

    /** `setUpchain(altFuture)` */
    method SetUpchain(id: Id, up: Id)
      requires Valid() && up < id < |nodes|
      modifies this
      ensures Valid()
      ensures Arena() == SetUpchainW(old(Arena()), id, up)
    {
      if nodes[id].upchain.None? {
        LinkedSetUpchain(nodes, id, Some(up));
        nodes := nodes[id := nodes[id].(upchain := Some(up))];
      }
    }

    /** `clearPreviousAltFuture()` */
    method ClearUpchain(id: Id) returns (thrown: Option<Exc>)
      requires Valid() && id < |nodes|
      modifies this
      ensures Valid()
      ensures Arena() == ClearUpchainW(old(Arena()), id).w && thrown == ClearUpchainW(old(Arena()), id).thrown
    {
      if !IsDone(states[id]) {
        return Some(AssertionFailed);
      }
      LinkedSetUpchain(nodes, id, None);
      nodes := nodes[id := nodes[id].(upchain := None)];
      thrown := None;
    }

    /** `then(IAltFuture altFuture)` */
    method Then(x: Id, f: Id) returns (r: Result<Id>)
      requires Valid() && x < f < |nodes|
      modifies this
      ensures Valid()
      ensures Arena() == ThenW(cfg, old(Arena()), x, f).w && r == ThenW(cfg, old(Arena()), x, f).result
    {
      SetUpchain(f, x);
      LinkedAppend(nodes, x, f);
      nodes := nodes[x := nodes[x].(downstream := nodes[x].downstream + [f])];
      if IsDone(states[x]) {
        var t := Fork(f);
        if t.Some? {
          return Err(t.value);
        }
      }
      return Ok(f);
    }

    /** `then(new SomeAltFuture(thread, ...))` */
    method ThenNew(x: Id, kind: Kind, thread: ThreadType) returns (r: Result<Id>)
      requires Valid() && x < |nodes|
      modifies this
      ensures Valid()
      ensures Arena() == ThenNewW(cfg, old(Arena()), x, kind, thread).w
      ensures r == ThenNewW(cfg, old(Arena()), x, kind, thread).result
      ensures |nodes| == old(|nodes|) + 1 && (r.Ok? ==> r.value == old(|nodes|))
    {
      var f := Create(kind, thread);
      r := Then(x, f);
    }

    /** `then(IAction)`, `then(IActionOne)`, `then(IActionR)`,
        `map(IActionOneR)` and `set(IReactiveTarget)`: one runnable step on
        this future's thread type, chained with `then`. */
    method ThenStep(x: Id, action: Action) returns (r: Result<Id>)
      requires Valid() && x < |nodes|
      modifies this
      ensures Valid()
      ensures Arena() == ThenNewW(cfg, old(Arena()), x, Runnable(action), old(nodes[x].thread)).w
      ensures r == ThenNewW(cfg, old(Arena()), x, Runnable(action), old(nodes[x].thread)).result
    {
      r := ThenNew(x, Runnable(action), nodes[x].thread);
    }

    /** `onCancelled(action)` */
    method OnCancelled(x: Id) returns (r: Result<Id>)
      requires Valid() && x < |nodes|
      modifies this
      ensures Valid()
      ensures Arena() == ThenNewW(cfg, old(Arena()), x, OnCancelledStep, old(nodes[x].thread)).w
      ensures r == ThenNewW(cfg, old(Arena()), x, OnCancelledStep, old(nodes[x].thread)).result
    {
      r := ThenNew(x, OnCancelledStep, nodes[x].thread);
    }

    /** `onError(action)` */
    method OnError(x: Id) returns (r: Result<Id>)
      requires Valid() && x < |nodes|
      modifies this
      ensures Valid()
      ensures Arena() == ThenNewW(cfg, old(Arena()), x, OnErrorStep, old(nodes[x].thread)).w
      ensures r == ThenNewW(cfg, old(Arena()), x, OnErrorStep, old(nodes[x].thread)).result
    {
      r := ThenNew(x, OnErrorStep, nodes[x].thread);
    }

    /** `on(threadType)` */
    method On(x: Id, t: ThreadType) returns (r: Result<Id>)
      requires Valid() && x < |nodes|
      modifies this
      ensures Valid()
      ensures Arena() == OnW(cfg, old(Arena()), x, t).w && r == OnW(cfg, old(Arena()), x, t).result
    {
      if t == nodes[x].thread {
        return Ok(x);
      }
      r := ThenNew(x, Settable, t);
    }

    /** `filter(action)` as written: the step is built and returned unchained. */
    method Filter(x: Id) returns (r: Result<Id>)
      requires Valid() && x < |nodes|
      modifies this
      ensures Valid()
      ensures Arena() == FilterW(old(Arena()), x).w && r == FilterW(old(Arena()), x).result
    {
      var f := Create(Runnable(FilterStep), nodes[x].thread);
      r := Ok(f);
    }

    /** `filter(action)` chained below this future, as intended. */
    method FilterChained(x: Id) returns (r: Result<Id>)
      requires Valid() && x < |nodes|
      modifies this
      ensures Valid()
      ensures Arena() == FilterChainedW(cfg, old(Arena()), x).w && r == FilterChainedW(cfg, old(Arena()), x).result
    {
      r := ThenNew(x, Runnable(FilterStep), nodes[x].thread);
    }

    // --------------------------------------------------------------- await

    /** `await(IAltFuture altFuture)` */
    method Await(x: Id, f: Id) returns (r: Result<Id>)
      requires Valid() && x < |nodes| && f < |nodes|
      modifies this
      ensures Valid()
      ensures Arena() == AwaitOneW(cfg, old(Arena()), x, f).w && r == AwaitOneW(cfg, old(Arena()), x, f).result
    {
      var o := Create(Settable, nodes[x].thread);
      SetUpchain(o, x);
      r := ThenNew(f, Runnable(SetOut(o, x)), nodes[f].thread);
      if r.Ok? {
        r := Ok(o);
      }
    }

    /** `await(IAltFuture... altFutures)` */
    method AwaitAll(x: Id, fs: seq<Id>) returns (r: Result<Id>)
      requires Valid() && x < |nodes| && forall i :: 0 <= i < |fs| ==> fs[i] < |nodes|
      modifies this
      ensures Valid()
      ensures Arena() == AwaitAllW(cfg, old(Arena()), x, fs).w && r == AwaitAllW(cfg, old(Arena()), x, fs).result
    {
      if |fs| == 0 || |fs| == 1 {
        return Err(AssertionFailed);
      }
      var k := |countdowns|;
      var o := Create(Settable, nodes[x].thread);
      countdowns := countdowns + [Countdown(|fs|, o, x)];
      SetUpchain(o, x);
      var thrown := AttachEach(fs, Arrival(k));
      if thrown.Some? {
        return Err(thrown.value);
      }
      r := Ok(o);
    }

    /** The loops of `await(IAltFuture...)` and `then(IActionOne...)`: a new
        step with the given action chained below each entry of the list, on
        that entry's thread type; the new steps, in order, or the first
        exception (the loop stops there). */
    method AttachEach(fs: seq<Id>, action: Action) returns (thrown: Option<Exc>)
      requires Valid() && forall i :: 0 <= i < |fs| ==> fs[i] < |nodes|
      modifies this
      ensures Valid()
      ensures Arena() == AttachEachW(cfg, old(Arena()), fs, action).w && thrown == AttachEachW(cfg, old(Arena()), fs, action).thrown
    {
      ghost var w0 := Arena();
      var i := 0;
      while i < |fs|
        invariant 0 <= i <= |fs| && Valid()
        invariant forall j :: 0 <= j < |fs| ==> fs[j] < |nodes|
        invariant AttachEachW(cfg, w0, fs, action) == AttachEachW(cfg, Arena(), fs[i..], action)
        decreases |fs| - i
      {
        AttachEachStep(cfg, Arena(), fs, i, action);
        var a := ThenNew(fs[i], Runnable(action), nodes[fs[i]].thread);
        if a.Err? {
          return Some(a.error);
        }
        i := i + 1;
      }
      thrown := None;
    }

    /** The body of the filter step run on the value v: a rejected value
        cancels x, the future `filter` was called on, and v is passed on. */
    method FilterRun(x: Id, v: int, accepted: bool, text: string) returns (r: Result<int>)
      requires Valid() && x < |nodes|
      modifies this
      ensures Valid()
      ensures Arena() == FilterRunW(cfg, old(Arena()), x, v, accepted, text).w
      ensures r == FilterRunW(cfg, old(Arena()), x, v, accepted, text).result
    {
      if !accepted {
        var c := Cancel(x, "Filtered: " + text);
        if c.Err? {
          return Err(c.error);
        }
      }
      r := Ok(v);
    }

    /** The body of the arrival step `await(IAltFuture...)` attaches. */
    method Arrive(k: nat) returns (r: Result<bool>)
      requires Valid() && k < |countdowns| && countdowns[k].anchor < |states|
      modifies this
      ensures Valid()
      ensures Arena() == ArriveW(old(Arena()), k).w && r == ArriveW(old(Arena()), k).result
    {
      var c := countdowns[k].(remaining := countdowns[k].remaining - 1);
      countdowns := countdowns[k := c];
      if c.remaining != 0 {
        return Ok(false);
      }
      match Get(states[c.anchor])
      case Err(e) =>
        r := Err(e);
      case Ok(v) =>
        sets := sets + [SetEvent(c.out, v)];
        r := Ok(true);
    }

    // ------------------------------------------------ varargs combinators

    /** `then(IActionOne... actions)` with n actions, and `then(IAction...)`
        with the arity checks it is meant to have. */
    method ThenAll(x: Id, n: nat, action: Action) returns (r: Result<Id>)
      requires Valid() && x < |nodes|
      modifies this
      ensures Valid()
      ensures Arena() == ThenAllW(cfg, old(Arena()), x, n, action).w && r == ThenAllW(cfg, old(Arena()), x, n, action).result
    {
      if n == 0 || n == 1 {
        return Err(AssertionFailed);
      }
      var lo := |nodes|;
      var thrown := AttachEach(Repeat(x, n), action);
      if thrown.Some? {
        return Err(thrown.value);
      }
      // `altFutures[i]`: what the i-th `then` returned, the future it created
      var altFutures := FreshIds(lo, n);
      FreshIdsIn(Arena(), lo, n);
      r := AwaitAll(x, altFutures);
    }

    /** `then(IAction... actions)` as written: the two assertions in order.
        No arity passes both, so the loop behind them is never reached and
        nothing changes. */
    method ThenActionsAsWritten(x: Id, n: nat) returns (r: Result<Id>)
      requires Valid() && x < |nodes|
      ensures r == ThenActionsAsWrittenW(cfg, Arena(), x, n).result
    {
      if !(n == 0) {
        return Err(AssertionFailed);  // `assertTrue(length == 0)`
      }
      if !(n == 1) {
        return Err(AssertionFailed);  // `assertTrue(length == 1)`
      }
      assert false;
    }

    /** `map(IActionOneR... actions)` as written: the same two assertions
        in front of its construction loop. */
    method MapAllAsWritten(x: Id, n: nat) returns (r: Result<seq<Id>>)
      requires Valid() && x < |nodes|
      ensures r == MapAllAsWrittenW(Arena(), x, n).result
    {
      if !(n == 0) {
        return Err(AssertionFailed);  // `assertTrue(length == 0)`
      }
      if !(n == 1) {
        return Err(AssertionFailed);  // `assertTrue(length == 1)`
      }
      assert false;
    }

    /** `map(IActionOneR... actions)` with the arity checks of its siblings:
        n steps on this future's thread type, none of them chained. */
    method MapAll(x: Id, n: nat) returns (r: Result<seq<Id>>)
      requires Valid() && x < |nodes|
      modifies this
      ensures Valid()
      ensures Arena() == MapAllW(old(Arena()), x, n).w && r == MapAllW(old(Arena()), x, n).result
    {
      if n == 0 || n == 1 {
        return Err(AssertionFailed);
      }
      var altFutures := NewSteps(x, n);
      r := Ok(altFutures);
    }

    /** The construction loop of `map(IActionOneR... actions)`. */
    method NewSteps(x: Id, n: nat) returns (altFutures: seq<Id>)
      requires Valid() && x < |nodes|
      modifies this
      ensures Valid()
      ensures Arena() == NewStepsW(old(Arena()), x, n) && altFutures == FreshIds(old(|nodes|), n)
    {
      ghost var w0 := Arena();
      var lo := |nodes|;
      altFutures := [];
      var i := 0;
      while i < n
        invariant 0 <= i <= n && Valid() && |nodes| == lo + i
        invariant altFutures == FreshIds(lo, i)
        invariant nodes[x].thread == w0.nodes[x].thread
        invariant NewStepsW(w0, x, n) == NewStepsW(Arena(), x, n - i)
        decreases n - i
      {
        NewStepsStep(Arena(), x, n - i);
        FreshIdsSnoc(lo, i);
        var f := Create(Runnable(MapActionOneR), nodes[x].thread);
        altFutures := altFutures + [f];
        i := i + 1;
      }
    }
  }
}
