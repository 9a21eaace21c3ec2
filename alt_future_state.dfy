/** The state cell of an alt-future and the arena that holds every future of
    a program, with the structural invariant that keeps the upchain and
    downstream links acyclic. */
module AltFutureState {
  import opened Common

  /** A future is named by its index in the arena. */
  type Id = nat

  /** The execution context (`IThreadType`) a future runs on; its behaviour
      is external, so it is only an identity here. */
  type ThreadType = nat

  /** `AltFutureStateError`: the reason and the exception of a failed step.
      `exceptionText` is what the exception's own `toString()` returns, which
      depends on code outside this model. */
  datatype StateError = StateError(reason: string, exception: Exc, exceptionText: string)

  /** `AltFutureStateError.toString()` */
  function StateErrorText(e: StateError): string {
    "ERROR: reason=" + e.reason + " error=" + e.exceptionText
  }

  /** The one state cell of a future (`mStateAR`).  `Completed` stands for
      every value a step can produce, including the `COMPLETE` marker. */
  datatype State =
    | Zen
    | Forked
    | Completed(value: int)
    | Cancelled(reason: string, cause: Option<StateError>)
    | Errored(error: StateError)

  /** `StateCancelled`: what `doOnCancelled` is given. */
  type CancelledState = s: State | s.Cancelled? witness Cancelled("", None)

  /** `isDone(state)`: neither `ZEN` nor `FORKED`. */
  predicate IsDone(s: State) {
    !(s.Zen? || s.Forked?)
  }

  /** `isForked(state)`: anything but `ZEN`. */
  predicate IsForked(s: State) {
    !s.Zen?
  }

  /** `isCancelled(state)` */
  predicate IsCancelled(s: State) {
    s.Cancelled?
  }

  /** The states from which the compare-and-set pairs `ZEN`, `FORKED` move. */
  predicate IsLive(s: State) {
    s.Zen? || s.Forked?
  }

  /** `get()`: the state object itself (a value, or the `StateError` of an
      errored future), or `IllegalStateException` when the future is not done
      or is cancelled. */
  function Get(s: State): (r: Result<State>)
    ensures r.Ok? <==> IsDone(s) && !IsCancelled(s)
    ensures r.Ok? ==> r.value == s
    ensures r.Err? ==> r.error == IllegalState
  {
    if !IsDone(s) then Err(IllegalState)
    else if IsCancelled(s) then Err(IllegalState)
    else Ok(s)
  }

  /** `safeGet()`: `None` is `VALUE_NOT_AVAILABLE`. */
  function SafeGet(s: State): (r: Option<State>)
    ensures r.None? <==> !IsDone(s) || IsCancelled(s)
    ensures r.Some? ==> r.value == s
  {
    if !IsDone(s) || IsCancelled(s) then None else Some(s)
  }

  /** `safeGet` never throws and yields `VALUE_NOT_AVAILABLE` exactly where
      `get` throws; elsewhere the two return the same state. */
  lemma SafeGetMatchesGet(s: State)
    ensures SafeGet(s).None? <==> Get(s).Err?
    ensures Get(s).Ok? ==> SafeGet(s) == Some(Get(s).value)
  {
  }

  /** What the `RunnableAltFuture` built by a combinator runs; the actions
      themselves belong to code outside this model, only their origin is
      kept. `Arrival(k)` is the step `await(IAltFuture...)` attaches, sharing
      countdown k. */
  datatype Action =
    | RunAction         // then(IAction)
    | RunActionOne      // then(IActionOne)
    | RunActionR        // then(IActionR)
    | MapActionOneR      // map(IActionOneR)
    | FireTarget        // set(IReactiveTarget)
    | SetOut(out: Id, anchor: Id)  // the step await(IAltFuture) attaches
    | Arrival(countdown: nat)
    | FilterStep        // filter(IActionOneR<IN, Boolean>)
    | NoOp              // the relay CompoundAltFuture.on attaches

  /** The class of a future, where it changes behaviour. */
  datatype Kind =
    | Runnable(action: Action)  // RunnableAltFuture
    | Settable                  // SettableAltFuture
    | OnCancelledStep           // OnCancelledAltFuture: overrides doOnCancelled
    | OnErrorStep               // OnErrorAltFuture

  /** The links of one alt-future, fixed by the combinators that build the
      chain: the set-once upchain link (`mPreviousAltFutureAR`), the
      append-only downstream list (`mDownchainAltFutureList`), its class and
      its thread type. */
  datatype Node = Node(
    upchain: Option<Id>,
    downstream: seq<Id>,
    kind: Kind,
    thread: ThreadType)

  /** The shared counter of one `await(IAltFuture...)` call. */
  datatype Countdown = Countdown(remaining: int, out: Id, anchor: Id)

  /** One call `outAltFuture.set(value)` on a `SettableAltFuture`. */
  datatype SetEvent = SetEvent(target: Id, value: State)

  /** Everything the modelled operations change: the links of every future
      and, apart from them, its state cell (`mStateAR`), both indexed by the
      future's id (futures are never freed, so the ids in use are those below
      the size of the arena); the log of work submitted by `doFork`; the
      await counters; and the log of values set on settable futures. */
  datatype World = World(
    nodes: seq<Node>,
    states: seq<State>,
    submitted: seq<Id>,
    countdowns: seq<Countdown>,
    sets: seq<SetEvent>)

  /** `Async.USE_FORKED_STATE`, `BuildConfig.DEBUG`, and the thread types
      whose executor refuses submitted work. */
  datatype Config = Config(useForkedState: bool, debug: bool, refusing: set<ThreadType>)

  /** An upchain link points to an older future and a downstream link to a
      younger one, so both link kinds are acyclic. */
  predicate Linked(nodes: seq<Node>) {
    && (forall x {:trigger nodes[x].upchain} :: 0 <= x < |nodes| && nodes[x].upchain.Some? ==>
          nodes[x].upchain.value < x)
    && (forall x, i {:trigger nodes[x].downstream[i]} :: 0 <= x < |nodes| && 0 <= i < |nodes[x].downstream| ==>
          x < nodes[x].downstream[i] < |nodes|)
  }

  /** A fresh future with no links keeps the links acyclic. */
  lemma LinkedFresh(nodes: seq<Node>, n: Node)
    requires Linked(nodes) && n.upchain.None? && n.downstream == []
    ensures Linked(nodes + [n])
  {
    var nodes' := nodes + [n];
    forall x, i | 0 <= x < |nodes'| && 0 <= i < |nodes'[x].downstream|
      ensures x < nodes'[x].downstream[i] < |nodes'|
    {
      assert nodes'[x] == nodes[x];
    }
  }

  /** Linking a future to an older one keeps the links acyclic. */
  lemma LinkedSetUpchain(nodes: seq<Node>, id: Id, up: Option<Id>)
    requires Linked(nodes) && id < |nodes|
    requires up.Some? ==> up.value < id
    ensures Linked(nodes[id := nodes[id].(upchain := up)])
  {
  }

  /** Listing a younger future keeps the links acyclic. */
  lemma LinkedAppend(nodes: seq<Node>, x: Id, f: Id)
    requires Linked(nodes) && x < f < |nodes|
    ensures Linked(nodes[x := nodes[x].(downstream := nodes[x].downstream + [f])])
  {
    var nodes' := nodes[x := nodes[x].(downstream := nodes[x].downstream + [f])];
    forall y, i | 0 <= y < |nodes'| && 0 <= i < |nodes'[y].downstream|
      ensures y < nodes'[y].downstream[i] < |nodes'|
    {
      if y == x && i == |nodes[x].downstream| {
        assert nodes'[y].downstream[i] == f;
      } else {
        assert nodes'[y].downstream[i] == nodes[y].downstream[i];
      }
    }
  }

  /** The links are acyclic and every future has a state cell. */
  predicate WF(w: World) {
    Linked(w.nodes) && |w.states| == |w.nodes|
  }

  /** No done future becomes undone: the state machine is one-way. */
  predicate DonePreserved(w: World, w': World) {
    && |w'.states| == |w.states|
    && forall x :: 0 <= x < |w.states| && IsDone(w.states[x]) ==> IsDone(w'.states[x])
  }

  /** What a state transition or a cascade may change: states (one-way),
      and the submission log, which only grows. */
  predicate StepFrame(w: World, w': World) {
    && w'.nodes == w.nodes
    && DonePreserved(w, w')
    && w.submitted <= w'.submitted
    && w'.countdowns == w.countdowns
    && w'.sets == w.sets
  }

  lemma StepFrameTransitive(w0: World, w1: World, w2: World)
    requires StepFrame(w0, w1) && StepFrame(w1, w2)
    ensures StepFrame(w0, w2)
  {
  }

  /** The compare-and-set of one state cell. */
  function SetState(w: World, id: Id, s: State): (w': World)
    requires id < |w.states|
    ensures w' == w.(states := w'.states)
    ensures |w'.states| == |w.states| && w'.states[id] == s
    ensures forall x :: 0 <= x < |w.states| && x != id ==> w'.states[x] == w.states[x]
  {
    w.(states := w.states[id := s])
  }

  lemma SetStateFrame(w: World, id: Id, s: State)
    requires WF(w) && id < |w.states|
    requires IsDone(w.states[id]) ==> IsDone(s)
    ensures WF(SetState(w, id, s)) && StepFrame(w, SetState(w, id, s))
  {
  }

  /** The arena a program starts from. */
  function EmptyWorld(): (w: World)
    ensures WF(w) && w.nodes == []
  {
    World([], [], [], [], [])
  }
}
