/** `CompoundAltFuture`: a chain of two or more alt-futures used as one.  The
    constructor walks the upchain links from the tail back to the head to
    build the subchain; afterwards every operation is forwarded to the head,
    to the tail, or tried on the members of the subchain in order. */
module CompoundAltFuture {
  import opened Common
  import opened AltFutureState
  import opened AbstractAltFuture
  import opened AltFutureGraph
  import AbstractAltFutureProps

  /** `mHead`, `mTail` and `mSubchain`; the constructor is the only code that
      writes them, so a compound is a value. */
  datatype Compound = Compound(head: Id, tail: Id, subchain: seq<Id>)

  /** Every future the compound names is in the arena. */
  predicate Fits(w: World, c: Compound) {
    && c.head < |w.nodes| && c.tail < |w.nodes|
    && forall i :: 0 <= i < |c.subchain| ==> c.subchain[i] < |w.nodes|
  }

  // ------------------------------------------------------- the constructor

  /** head lies on the upchain path of p, p itself included. */
  predicate OnUpchainPath(nodes: seq<Node>, head: Id, p: Id)
    requires Linked(nodes) && p < |nodes|
    decreases p
  {
    p == head || (nodes[p].upchain.Some? && OnUpchainPath(nodes, head, nodes[p].upchain.value))
  }

  /** What the constructor's do-while loop collects starting from p: the
      futures it visits, in upstream-to-downstream order (each is inserted at
      index 0), and whether it met head before running out of upchain links. */
  function Walk(nodes: seq<Node>, head: Id, p: Id): (r: (seq<Id>, bool))
    requires Linked(nodes) && p < |nodes|
    ensures |r.0| >= 1 && r.0[|r.0| - 1] == p
    ensures forall i :: 0 <= i < |r.0| ==> r.0[i] <= p
    decreases p
  {
    if head == p then ([p], true)
    else match nodes[p].upchain
      case None => ([p], false)
      case Some(q) =>
        var s := Walk(nodes, head, q);
        (s.0 + [p], s.1)
  }

  /** The constructor: the two assertions (head has no upchain, head is not
      the tail), the walk, the second insertion of head at index 0, and the
      `IllegalArgumentException` when the walk did not meet head. */
  function BuildW(nodes: seq<Node>, head: Id, tail: Id): (r: Result<Compound>)
    requires Linked(nodes) && head < |nodes| && tail < |nodes|
  {
    if nodes[head].upchain.Some? then Err(AssertionFailed)
    else if head == tail then Err(AssertionFailed)
    else
      var s := Walk(nodes, head, tail);
      if !s.1 then Err(IllegalArgument) else Ok(Compound(head, tail, [head] + s.0))
  }

  /** The walk meets head exactly when head is on the tail's upchain path. */
  lemma {:induction false} WalkFindsHead(nodes: seq<Node>, head: Id, p: Id)
    requires Linked(nodes) && p < |nodes|
    ensures Walk(nodes, head, p).1 <==> OnUpchainPath(nodes, head, p)
    decreases p
  {
    if head != p && nodes[p].upchain.Some? {
      WalkFindsHead(nodes, head, nodes[p].upchain.value);
    }
  }

  /** Once the walk meets head, what it collected starts at head, meets head
      nowhere else, and each entry is the upchain of the next one. */
  lemma {:induction false} WalkIsChain(nodes: seq<Node>, head: Id, p: Id)
    requires Linked(nodes) && p < |nodes|
    ensures var s := Walk(nodes, head, p);
            s.1 ==>
              && s.0[0] == head
              && (forall i :: 0 < i < |s.0| ==> s.0[i] != head)
              && (forall i :: 0 <= i < |s.0| - 1 ==> nodes[s.0[i + 1]].upchain == Some(s.0[i]))
    decreases p
  {
    if head != p && nodes[p].upchain.Some? {
      var q := nodes[p].upchain.value;
      WalkIsChain(nodes, head, q);
      var s := Walk(nodes, head, q);
      assert Walk(nodes, head, p).0 == s.0 + [p];
    }
  }

  /** Construction succeeds exactly when head has no upchain, is not the
      tail, and is on the tail's upchain path; a failed walk is an
      `IllegalArgumentException`, a failed assertion is checked first. */
  lemma BuildSucceedsExactly(nodes: seq<Node>, head: Id, tail: Id)
    requires Linked(nodes) && head < |nodes| && tail < |nodes|
    ensures BuildW(nodes, head, tail).Ok? <==>
              nodes[head].upchain.None? && head != tail && OnUpchainPath(nodes, head, tail)
    ensures BuildW(nodes, head, tail) == Err(IllegalArgument) <==>
              nodes[head].upchain.None? && head != tail && !OnUpchainPath(nodes, head, tail)
    ensures nodes[head].upchain.Some? || head == tail ==> BuildW(nodes, head, tail) == Err(AssertionFailed)
  {
    WalkFindsHead(nodes, head, tail);
  }

  /** The subchain of a built compound starts with head twice (the walk
      already ends with it), ends with tail, and runs down the upchain links
      from head to tail, meeting head nowhere else. */
  lemma BuildShape(nodes: seq<Node>, head: Id, tail: Id)
    requires Linked(nodes) && head < |nodes| && tail < |nodes|
    ensures var r := BuildW(nodes, head, tail);
            r.Ok? ==>
              && r.value.head == head && r.value.tail == tail
              && |r.value.subchain| >= 3
              && r.value.subchain[0] == head && r.value.subchain[1] == head
              && r.value.subchain[|r.value.subchain| - 1] == tail
              && (forall i :: 1 < i < |r.value.subchain| ==> r.value.subchain[i] != head)
              && (forall i :: 1 <= i < |r.value.subchain| - 1 ==>
                    nodes[r.value.subchain[i + 1]].upchain == Some(r.value.subchain[i]))
              && (forall i :: 0 <= i < |r.value.subchain| ==> r.value.subchain[i] < |nodes|)
  {
    var r := BuildW(nodes, head, tail);
    if r.Ok? {
      WalkIsChain(nodes, head, tail);
      var s := Walk(nodes, head, tail).0;
      assert r.value.subchain == [head] + s;
      assert |s| >= 2;
    }
  }

  /** `new CompoundAltFuture(head, tail)` on the graph g. */
  method Build(g: FutureGraph, head: Id, tail: Id) returns (r: Result<Compound>)
    requires g.Valid() && head < |g.nodes| && tail < |g.nodes|
    ensures r == BuildW(g.nodes, head, tail)
  {
    if g.nodes[head].upchain.Some? {
      return Err(AssertionFailed);
    }
    if head == tail {
      return Err(AssertionFailed);
    }
    var subchain: seq<Id> := [];
    var found := false;
    var previous: Option<Id> := Some(tail);
    assert Walk(g.nodes, head, tail).0 + subchain == Walk(g.nodes, head, tail).0;
    // the do-while loop: its condition holds on entry
    while !found && previous.Some?
      invariant previous.Some? ==> previous.value < |g.nodes|
      invariant !found && previous.Some? ==>
                  Walk(g.nodes, head, tail) == (Walk(g.nodes, head, previous.value).0 + subchain, Walk(g.nodes, head, previous.value).1)
      invariant found || previous.None? ==> Walk(g.nodes, head, tail) == (subchain, found)
      decreases if previous.Some? then previous.value + 1 else 0
    {
      var p := previous.value;
      ghost var before := subchain;
      subchain := [p] + subchain;
      found := head == p;
      previous := g.nodes[p].upchain;
      if !found && previous.Some? {
        assert Walk(g.nodes, head, p).0 == Walk(g.nodes, head, previous.value).0 + [p];
        assert Walk(g.nodes, head, p).0 + before == Walk(g.nodes, head, previous.value).0 + subchain;
      }
    }
    subchain := [head] + subchain;
    if !found {
      return Err(IllegalArgument);
    }
    r := Ok(Compound(head, tail, subchain));
  }

  // -------------------------------------------------------------- cancel

  /** The request `cancel(String)` or `cancel(StateError)` passes on. */
  datatype CancelRequest = ByReason(reason: string) | ByError(e: StateError)

  /** The request is not refused outright: a debug build refuses an empty
      reason before looking at any state. */
  predicate Accepted(cfg: Config, req: CancelRequest) {
    req.ByReason? ==> !(cfg.debug && |req.reason| == 0)
  }

  /** The request on one member of the subchain. */
  function CancelMemberW(cfg: Config, w: World, id: Id, req: CancelRequest): (r: Outcome<bool>)
    requires WF(w) && id < |w.nodes|
    ensures WF(r.w) && StepFrame(w, r.w)
  {
    match req
    case ByReason(reason) => CancelW(cfg, w, id, reason)
    case ByError(e) => CancelWithErrorW(cfg, w, id, e)
  }

  /** The loops of `cancel(String)` and `cancel(StateError)`: each member in
      subchain order until one returns true; an exception leaves the loop. */
  function CancelFirstW(cfg: Config, w: World, sub: seq<Id>, req: CancelRequest): (r: Outcome<bool>)
    requires WF(w) && forall i :: 0 <= i < |sub| ==> sub[i] < |w.nodes|
    ensures WF(r.w) && StepFrame(w, r.w)
    decreases |sub|
  {
    if sub == [] then Outcome(w, Ok(false))
    else
      var m := CancelMemberW(cfg, w, sub[0], req);
      if m.result.Err? || m.result.value then m
      else CancelFirstW(cfg, m.w, sub[1..], req)
  }

  /** One turn of that loop. */
  lemma CancelFirstStep(cfg: Config, w: World, sub: seq<Id>, i: nat, req: CancelRequest)
    requires WF(w) && (forall j :: 0 <= j < |sub| ==> sub[j] < |w.nodes|) && i < |sub|
    ensures var m := CancelMemberW(cfg, w, sub[i], req);
            CancelFirstW(cfg, w, sub[i..], req)
            == if m.result.Err? || m.result.value then m else CancelFirstW(cfg, m.w, sub[i + 1..], req)
  {
    assert sub[i..][0] == sub[i] && sub[i..][1..] == sub[i + 1..];
  }

  /** The position of the first member still `ZEN` or `FORKED`. */
  function FirstLive(states: seq<State>, sub: seq<Id>): (r: Option<nat>)
    requires forall i :: 0 <= i < |sub| ==> sub[i] < |states|
    ensures r.None? <==> forall i :: 0 <= i < |sub| ==> !IsLive(states[sub[i]])
    ensures r.Some? ==> r.value < |sub| && IsLive(states[sub[r.value]])
    ensures r.Some? ==> forall i :: 0 <= i < r.value ==> !IsLive(states[sub[i]])
    decreases |sub|
  {
    if sub == [] then None
    else if IsLive(states[sub[0]]) then Some(0)
    else
      var r := FirstLive(states, sub[1..]);
      if r.None? then None else Some(r.value + 1)
  }

  /** A member that is already done refuses the request and nothing changes;
      a live member never answers false. */
  lemma CancelMemberAnswers(cfg: Config, w: World, id: Id, req: CancelRequest)
    requires WF(w) && id < |w.nodes| && Accepted(cfg, req)
    ensures !IsLive(w.states[id]) ==> CancelMemberW(cfg, w, id, req) == Outcome(w, Ok(false))
    ensures IsLive(w.states[id]) ==> CancelMemberW(cfg, w, id, req).result != Ok(false)
  {
  }

  /** The loop skips the members that are already done, without changing
      anything, and the result is what the first live member answers; with no
      live member the answer is false and nothing changes. */
  lemma {:induction false} CancelFirstTriesInOrder(cfg: Config, w: World, sub: seq<Id>, req: CancelRequest)
    requires WF(w) && (forall i :: 0 <= i < |sub| ==> sub[i] < |w.nodes|) && Accepted(cfg, req)
    ensures var f := FirstLive(w.states, sub);
            && (f.None? ==> CancelFirstW(cfg, w, sub, req) == Outcome(w, Ok(false)))
            && (f.Some? ==> CancelFirstW(cfg, w, sub, req) == CancelMemberW(cfg, w, sub[f.value], req))
    decreases |sub|
  {
    if sub != [] {
      CancelMemberAnswers(cfg, w, sub[0], req);
      if !IsLive(w.states[sub[0]]) {
        CancelFirstTriesInOrder(cfg, w, sub[1..], req);
        var f := FirstLive(w.states, sub[1..]);
        if f.Some? {
          assert sub[1..][f.value] == sub[f.value + 1];
        }
      }
    }
  }

  /** `cancel(String)` on the compound: true exactly when some member was
      still live, and then only the first such member is cancelled; a debug
      build refuses an empty reason before trying any member. */
  lemma CancelByReason(cfg: Config, w: World, sub: seq<Id>, reason: string)
    requires WF(w) && (forall i :: 0 <= i < |sub| ==> sub[i] < |w.nodes|)
    ensures var r := CancelFirstW(cfg, w, sub, ByReason(reason));
            && (cfg.debug && |reason| == 0 && sub != [] ==> r == Outcome(w, Err(IllegalArgument)))
            && (!(cfg.debug && |reason| == 0) ==>
                  && r.result == Ok(exists i :: 0 <= i < |sub| && IsLive(w.states[sub[i]]))
                  && var f := FirstLive(w.states, sub);
                     r.w == if f.Some? then SetState(w, sub[f.value], Cancelled(reason, None)) else w)
  {
    if !(cfg.debug && |reason| == 0) {
      CancelFirstTriesInOrder(cfg, w, sub, ByReason(reason));
    }
  }

  /** `cancel(StateError)` on the compound: true exactly when some member was
      still live, and then only the first such member is cancelled, since
      each member's own `cancel(StateError)` notifies none of its downstream
      futures. */
  lemma CancelByError(cfg: Config, w: World, sub: seq<Id>, e: StateError)
    requires WF(w) && (forall i :: 0 <= i < |sub| ==> sub[i] < |w.nodes|)
    ensures var r := CancelFirstW(cfg, w, sub, ByError(e));
            && r.result == Ok(exists i :: 0 <= i < |sub| && IsLive(w.states[sub[i]]))
            && var f := FirstLive(w.states, sub);
               r.w == if f.Some? then SetState(w, sub[f.value], UpchainCancellation(e)) else w
  {
    CancelFirstTriesInOrder(cfg, w, sub, ByError(e));
    var f := FirstLive(w.states, sub);
    if f.Some? {
      AbstractAltFutureProps.CancelWithErrorDoesNotCascade(cfg, w, sub[f.value], e);
    }
  }

  /** `cancel(String)` and `cancel(StateError)` on the compound. */
  method Cancel(g: FutureGraph, c: Compound, req: CancelRequest) returns (r: Result<bool>)
    requires g.Valid() && Fits(g.Arena(), c)
    modifies g
    ensures g.Valid()
    ensures g.Arena() == CancelFirstW(g.cfg, old(g.Arena()), c.subchain, req).w
    ensures r == CancelFirstW(g.cfg, old(g.Arena()), c.subchain, req).result
  {
    ghost var w0 := g.Arena();
    var i := 0;
    while i < |c.subchain|
      invariant 0 <= i <= |c.subchain| && g.Valid() && Fits(g.Arena(), c)
      invariant CancelFirstW(g.cfg, w0, c.subchain, req) == CancelFirstW(g.cfg, g.Arena(), c.subchain[i..], req)
      decreases |c.subchain| - i
    {
      CancelFirstStep(g.cfg, g.Arena(), c.subchain, i, req);
      var m := CancelMember(g, c.subchain[i], req);
      if m.Err? || m.value {
        return m;
      }
      i := i + 1;
    }
    return Ok(false);
  }

  /** `altFuture.cancel(reason)` or `altFuture.cancel(stateError)`. */
  method CancelMember(g: FutureGraph, id: Id, req: CancelRequest) returns (r: Result<bool>)
    requires g.Valid() && id < |g.nodes|
    modifies g
    ensures g.Valid()
    ensures g.Arena() == CancelMemberW(g.cfg, old(g.Arena()), id, req).w
    ensures r == CancelMemberW(g.cfg, old(g.Arena()), id, req).result
  {
    match req
    case ByReason(reason) =>
      r := g.Cancel(id, reason);
    case ByError(e) =>
      r := g.CancelWithError(id, e);
  }

  /** `isCancelled()`: true exactly when some member is cancelled. */
  method IsCancelledAny(g: FutureGraph, c: Compound) returns (b: bool)
    requires forall i :: 0 <= i < |c.subchain| ==> c.subchain[i] < |g.states|
    ensures b <==> exists i :: 0 <= i < |c.subchain| && IsCancelled(g.states[c.subchain[i]])
  {
    var i := 0;
    while i < |c.subchain|
      invariant 0 <= i <= |c.subchain|
      invariant forall j :: 0 <= j < i ==> !IsCancelled(g.states[c.subchain[j]])
    {
      if IsCancelled(g.states[c.subchain[i]]) {
        return true;
      }
      i := i + 1;
    }
    return false;
  }

  // ----------------------------------------------------------- the getters

  /** `getThreadType()`, `isForked()` and `getUpchain()` read the head;
      `isDone()`, `get()` and `safeGet()` read the tail. */
  function ThreadTypeOf(w: World, c: Compound): ThreadType
    requires Fits(w, c)
  {
    w.nodes[c.head].thread
  }

  function IsForkedOf(w: World, c: Compound): bool
    requires Fits(w, c) && WF(w)
  {
    IsForked(w.states[c.head])
  }

  function UpchainOf(w: World, c: Compound): Option<Id>
    requires Fits(w, c)
  {
    w.nodes[c.head].upchain
  }

  function IsDoneOf(w: World, c: Compound): bool
    requires Fits(w, c) && WF(w)
  {
    IsDone(w.states[c.tail])
  }

  function GetOf(w: World, c: Compound): Result<State>
    requires Fits(w, c) && WF(w)
  {
    Get(w.states[c.tail])
  }

  function SafeGetOf(w: World, c: Compound): Option<State>
    requires Fits(w, c) && WF(w)
  {
    SafeGet(w.states[c.tail])
  }

  /** On a freshly built compound the getters read the two ends of the
      subchain: the head-side ones its first member, which has no upchain,
      the tail-side ones its last; `get()` throws exactly where `safeGet()`
      yields nothing. */
  lemma GettersReadTheEnds(w: World, head: Id, tail: Id)
    requires WF(w) && head < |w.nodes| && tail < |w.nodes|
    ensures var r := BuildW(w.nodes, head, tail);
            r.Ok? ==>
              var c := r.value; var sub := c.subchain;
              && Fits(w, c)
              && UpchainOf(w, c) == None
              && ThreadTypeOf(w, c) == w.nodes[sub[0]].thread
              && IsForkedOf(w, c) == IsForked(w.states[sub[0]])
              && IsDoneOf(w, c) == IsDone(w.states[sub[|sub| - 1]])
              && GetOf(w, c).Err? == SafeGetOf(w, c).None?
              && (GetOf(w, c).Ok? ==> SafeGetOf(w, c) == Some(GetOf(w, c).value))
  {
    BuildShape(w.nodes, head, tail);
    BuildSucceedsExactly(w.nodes, head, tail);
    var r := BuildW(w.nodes, head, tail);
    if r.Ok? {
      SafeGetMatchesGet(w.states[tail]);
    }
  }

  // ------------------------------------------------ forwarded to the head

  /** The compound itself, or what was thrown instead. */
  function This(c: Compound, thrown: Option<Exc>): (r: Result<Compound>)
    ensures r.Ok? <==> thrown.None?
    ensures r.Ok? ==> r.value == c
  {
    if thrown.Some? then Err(thrown.value) else Ok(c)
  }

  /** The compound itself, unless the call on the tail threw. */
  function ThisUnless<T>(c: Compound, r: Result<T>): (r': Result<Compound>)
    ensures r'.Ok? <==> r.Ok?
    ensures r'.Ok? ==> r'.value == c
  {
    if r.Err? then Err(r.error) else Ok(c)
  }

  /** `fork()` forks the head and returns the compound. */
  method Fork(g: FutureGraph, c: Compound) returns (r: Result<Compound>)
    requires g.Valid() && Fits(g.Arena(), c)
    modifies g
    ensures g.Valid()
    ensures g.Arena() == ForkW(g.cfg, old(g.Arena()), c.head).w
    ensures r == This(c, ForkW(g.cfg, old(g.Arena()), c.head).thrown)
  {
    var thrown := g.Fork(c.head);
    r := This(c, thrown);
  }

  /** `setUpchain(altFuture)` links the head and returns the compound. */
  method SetUpchain(g: FutureGraph, c: Compound, up: Id) returns (r: Compound)
    requires g.Valid() && Fits(g.Arena(), c) && up < c.head
    modifies g
    ensures g.Valid()
    ensures g.Arena() == SetUpchainW(old(g.Arena()), c.head, up) && r == c
  {
    g.SetUpchain(c.head, up);
    r := c;
  }

  /** `doOnError(stateError)` */
  method DoOnError(g: FutureGraph, c: Compound, e: StateError) returns (thrown: Option<Exc>)
    requires g.Valid() && Fits(g.Arena(), c)
    modifies g
    ensures g.Valid()
    ensures g.Arena() == DoOnErrorW(g.cfg, old(g.Arena()), c.head, e).w
    ensures thrown == DoOnErrorW(g.cfg, old(g.Arena()), c.head, e).thrown
  {
    thrown := g.DoOnError(c.head, e);
  }

  /** `doOnCancelled(stateCancelled)` */
  method DoOnCancelled(g: FutureGraph, c: Compound, cs: CancelledState) returns (thrown: Option<Exc>)
    requires g.Valid() && Fits(g.Arena(), c)
    modifies g
    ensures g.Valid()
    ensures g.Arena() == DoOnCancelledW(g.cfg, old(g.Arena()), c.head, cs).w
    ensures thrown == DoOnCancelledW(g.cfg, old(g.Arena()), c.head, cs).thrown
  {
    thrown := g.DoOnCancelled(c.head, cs);
  }

  /** `filter(action)` returns what the head's `filter` returns: a step on
      the head's thread type that is chained to nothing. */
  method Filter(g: FutureGraph, c: Compound) returns (r: Result<Id>)
    requires g.Valid() && Fits(g.Arena(), c)
    modifies g
    ensures g.Valid()
    ensures g.Arena() == FilterW(old(g.Arena()), c.head).w
    ensures r == FilterW(old(g.Arena()), c.head).result
  {
    r := g.Filter(c.head);
  }

  // ------------------------------------------------ forwarded to the tail

  /** `then(IAction)`, `then(IActionOne)` and `set(IReactiveTarget)`: one
      step chained below the tail; the compound is returned. */
  method ThenAtTail(g: FutureGraph, c: Compound, action: Action) returns (r: Result<Compound>)
    requires g.Valid() && Fits(g.Arena(), c)
    modifies g
    ensures g.Valid()
    ensures g.Arena() == ThenNewW(g.cfg, old(g.Arena()), c.tail, Runnable(action), old(g.nodes[c.tail].thread)).w
    ensures r == ThisUnless(c, ThenNewW(g.cfg, old(g.Arena()), c.tail, Runnable(action), old(g.nodes[c.tail].thread)).result)
  {
    var t := g.ThenStep(c.tail, action);
    r := ThisUnless(c, t);
  }

  /** `then(IActionR)` and `map(IActionOneR)`: the tail's new step is
      returned, not the compound. */
  method ThenFromTail(g: FutureGraph, c: Compound, action: Action) returns (r: Result<Id>)
    requires g.Valid() && Fits(g.Arena(), c)
    modifies g
    ensures g.Valid()
    ensures g.Arena() == ThenNewW(g.cfg, old(g.Arena()), c.tail, Runnable(action), old(g.nodes[c.tail].thread)).w
    ensures r == ThenNewW(g.cfg, old(g.Arena()), c.tail, Runnable(action), old(g.nodes[c.tail].thread)).result
  {
    r := g.ThenStep(c.tail, action);
  }

  /** `then(IAltFuture)`: the tail's result, f. */
  method ThenFuture(g: FutureGraph, c: Compound, f: Id) returns (r: Result<Id>)
    requires g.Valid() && Fits(g.Arena(), c) && c.tail < f < |g.nodes|
    modifies g
    ensures g.Valid()
    ensures g.Arena() == ThenW(g.cfg, old(g.Arena()), c.tail, f).w && r == ThenW(g.cfg, old(g.Arena()), c.tail, f).result
  {
    r := g.Then(c.tail, f);
  }

  /** `then(IActionOne...)`: the tail's varargs `then`; the compound is
      returned. */
  method ThenAllAtTail(g: FutureGraph, c: Compound, n: nat) returns (r: Result<Compound>)
    requires g.Valid() && Fits(g.Arena(), c)
    modifies g
    ensures g.Valid()
    ensures g.Arena() == ThenAllW(g.cfg, old(g.Arena()), c.tail, n, RunActionOne).w
    ensures r == ThisUnless(c, ThenAllW(g.cfg, old(g.Arena()), c.tail, n, RunActionOne).result)
  {
    var t := g.ThenAll(c.tail, n, RunActionOne);
    r := ThisUnless(c, t);
  }

  /** `then(IAction...)`: the tail's varargs `then(IAction...)` as written,
      whose two arity assertions fail for every n; the exception reaches the
      caller before the compound could be returned, and nothing changes. */
  method ThenActionsAtTail(g: FutureGraph, c: Compound, n: nat) returns (r: Result<Compound>)
    requires g.Valid() && Fits(g.Arena(), c)
    ensures r == ThisUnless(c, ThenActionsAsWrittenW(g.cfg, g.Arena(), c.tail, n).result)
    ensures r == Err(AssertionFailed)
  {
    var t := g.ThenActionsAsWritten(c.tail, n);
    r := ThisUnless(c, t);
  }

  /** `map(IActionOneR...)`: the tail's varargs `map` as written, which fails
      its arity assertions for every n and changes nothing. */
  method MapAllFromTail(g: FutureGraph, c: Compound, n: nat) returns (r: Result<seq<Id>>)
    requires g.Valid() && Fits(g.Arena(), c)
    ensures r == MapAllAsWrittenW(g.Arena(), c.tail, n).result
    ensures r == Err(AssertionFailed)
  {
    r := g.MapAllAsWritten(c.tail, n);
  }

  /** `await(IAltFuture)`; the compound is returned. */
  method AwaitAtTail(g: FutureGraph, c: Compound, f: Id) returns (r: Result<Compound>)
    requires g.Valid() && Fits(g.Arena(), c) && f < |g.nodes|
    modifies g
    ensures g.Valid()
    ensures g.Arena() == AwaitOneW(g.cfg, old(g.Arena()), c.tail, f).w
    ensures r == ThisUnless(c, AwaitOneW(g.cfg, old(g.Arena()), c.tail, f).result)
  {
    var t := g.Await(c.tail, f);
    r := ThisUnless(c, t);
  }

  /** `await(IAltFuture...)`; the compound is returned. */
  method AwaitAllAtTail(g: FutureGraph, c: Compound, fs: seq<Id>) returns (r: Result<Compound>)
    requires g.Valid() && Fits(g.Arena(), c) && forall i :: 0 <= i < |fs| ==> fs[i] < |g.nodes|
    modifies g
    ensures g.Valid()
    ensures g.Arena() == AwaitAllW(g.cfg, old(g.Arena()), c.tail, fs).w
    ensures r == ThisUnless(c, AwaitAllW(g.cfg, old(g.Arena()), c.tail, fs).result)
  {
    var t := g.AwaitAll(c.tail, fs);
    r := ThisUnless(c, t);
  }

  /** `onError(action)`; the compound is returned. */
  method OnErrorAtTail(g: FutureGraph, c: Compound) returns (r: Result<Compound>)
    requires g.Valid() && Fits(g.Arena(), c)
    modifies g
    ensures g.Valid()
    ensures g.Arena() == ThenNewW(g.cfg, old(g.Arena()), c.tail, OnErrorStep, old(g.nodes[c.tail].thread)).w
    ensures r == ThisUnless(c, ThenNewW(g.cfg, old(g.Arena()), c.tail, OnErrorStep, old(g.nodes[c.tail].thread)).result)
  {
    var t := g.OnError(c.tail);
    r := ThisUnless(c, t);
  }

  /** `on(threadType)`: the compound, unchanged, when the tail already runs on
      that thread type; otherwise `then(() -> {})`, a no-op step below the
      tail on the tail's own thread type, and still the compound. */
  function OnW(cfg: Config, w: World, c: Compound, t: ThreadType): (r: Outcome<Compound>)
    requires WF(w) && Fits(w, c)
    ensures r.result.Ok? ==> r.result.value == c
    ensures t == w.nodes[c.tail].thread ==> r == Outcome(w, Ok(c))
    ensures t != w.nodes[c.tail].thread ==>
              && |r.w.nodes| == |w.nodes| + 1
              && r.w.nodes[|w.nodes|].upchain == Some(c.tail)
              && r.w.nodes[|w.nodes|].kind == Runnable(NoOp)
              && r.w.nodes[|w.nodes|].thread == w.nodes[c.tail].thread
  {
    if t == w.nodes[c.tail].thread then Outcome(w, Ok(c))
    else
      var s := ThenNewW(cfg, w, c.tail, Runnable(NoOp), w.nodes[c.tail].thread);
      Outcome(s.w, ThisUnless(c, s.result))
  }

  method On(g: FutureGraph, c: Compound, t: ThreadType) returns (r: Result<Compound>)
    requires g.Valid() && Fits(g.Arena(), c)
    modifies g
    ensures g.Valid()
    ensures g.Arena() == OnW(g.cfg, old(g.Arena()), c, t).w && r == OnW(g.cfg, old(g.Arena()), c, t).result
  {
    if t == g.nodes[c.tail].thread {
      return Ok(c);
    }
    r := ThenAtTail(g, c, NoOp);
  }
}
