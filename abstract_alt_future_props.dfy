/** What `AbstractAltFuture` promises, proved about the transition functions:
    fork climbs and forks once, cancel is one-shot and local, the error and
    cancellation cascades only move states one way and reach the downstream
    entries, `forEachThen` keeps the first exception without stopping, and the
    chaining combinators link what they build. */
module AbstractAltFutureProps {
  import opened Common
  import opened AltFutureState
  import opened AbstractAltFuture

  // ------------------------------------------------------------------ fork

  /** The climb depends only on the links and on which futures are done. */
  lemma {:induction false} ForkTargetStable(w: World, w': World, id: Id)
    requires WF(w) && WF(w') && id < |w.nodes| && w'.nodes == w.nodes
    requires forall x :: 0 <= x < |w.states| ==> x < |w'.states| && (IsDone(w.states[x]) <==> IsDone(w'.states[x]))
    ensures ForkTarget(w', id) == ForkTarget(w, id)
    decreases id
  {
    match w.nodes[id].upchain
    case Some(u) => if !IsDone(w.states[u]) { ForkTargetStable(w, w', u); }
    case None =>
  }

  /** With a pending upchain future, `fork()` forks that one instead. */
  lemma ForkWithPendingUpchainForksUpchain(cfg: Config, w: World, id: Id)
    requires WF(w) && id < |w.nodes|
    requires w.nodes[id].upchain.Some? && !IsDone(w.states[w.nodes[id].upchain.value])
    ensures ForkW(cfg, w, id) == ForkW(cfg, w, w.nodes[id].upchain.value)
  {
  }

  /** `fork()` submits work exactly when the future it finally inspects is
      `ZEN` and its executor accepts; only that future's state may change,
      and only to `FORKED`. */
  lemma ForkSubmitsOnlyItsTarget(cfg: Config, w: World, id: Id)
    requires WF(w) && id < |w.nodes|
    ensures var s := ForkW(cfg, w, id); var t := ForkTarget(w, id);
            && (s.w.submitted == w.submitted + [t] <==>
                  w.states[t].Zen? && w.nodes[t].thread !in cfg.refusing)
            && (s.w.submitted == w.submitted + [t] || s.w.submitted == w.submitted)
            && (s.thrown.Some? <==> w.states[t].Zen? && w.nodes[t].thread in cfg.refusing)
            && s.w.nodes == w.nodes
            && (forall x :: 0 <= x < |w.states| && x != t ==> s.w.states[x] == w.states[x])
            && (s.w.states[t] == w.states[t] || (cfg.useForkedState && s.w.states[t] == Forked))
  {
    var t := ForkTarget(w, id);
    assert w.submitted + [t] != w.submitted by {
      assert |w.submitted + [t]| == |w.submitted| + 1;
    }
  }

  /** With `USE_FORKED_STATE` a second `fork()` does nothing, whether or not
      the first one's executor refused the work. */
  lemma ForkIsIdempotentWithForkedState(cfg: Config, w: World, id: Id)
    requires WF(w) && id < |w.nodes| && cfg.useForkedState
    ensures var s1 := ForkW(cfg, w, id);
            ForkW(cfg, s1.w, id) == Step(s1.w, None)
  {
    var s1 := ForkW(cfg, w, id);
    var t := ForkTarget(w, id);
    if w.states[t].Zen? {
      ForkTargetStable(w, s1.w, id);
    }
  }

  /** Without `USE_FORKED_STATE` the guard only reads `ZEN`, so forking a
      pending future twice submits its work twice. */
  lemma ForkWithoutForkedStateResubmits(cfg: Config, w: World, id: Id)
    requires WF(w) && id < |w.nodes| && !cfg.useForkedState
    requires w.states[ForkTarget(w, id)].Zen?
    requires w.nodes[ForkTarget(w, id)].thread !in cfg.refusing
    ensures var s1 := ForkW(cfg, w, id);
            var s2 := ForkW(cfg, s1.w, id);
            s2.w.submitted == w.submitted + [ForkTarget(w, id)] + [ForkTarget(w, id)]
  {
    var t := ForkTarget(w, id);
    var w1 := w.(submitted := w.submitted + [t]);
    ForkSubmitsPendingTarget(cfg, w, id, t);
    SubmitKeepsForkTarget(w, id, [t]);
    ForkSubmitsPendingTarget(cfg, w1, id, t);
  }

  lemma ForkSubmitsPendingTarget(cfg: Config, w: World, id: Id, t: Id)
    requires WF(w) && id < |w.nodes| && !cfg.useForkedState
    requires t == ForkTarget(w, id) && w.states[t].Zen? && w.nodes[t].thread !in cfg.refusing
    ensures ForkW(cfg, w, id) == Step(w.(submitted := w.submitted + [t]), None)
  {
  }

  lemma SubmitKeepsForkTarget(w: World, id: Id, more: seq<Id>)
    requires WF(w) && id < |w.nodes|
    ensures WF(w.(submitted := w.submitted + more))
    ensures ForkTarget(w.(submitted := w.submitted + more), id) == ForkTarget(w, id)
  {
    ForkTargetStable(w, w.(submitted := w.submitted + more), id);
  }

  /** Forking a future that is done, and whose upchain is absent or done,
      changes nothing. */
  lemma ForkOfDoneIsNoop(cfg: Config, w: World, id: Id)
    requires WF(w) && id < |w.nodes| && IsDone(w.states[id])
    requires w.nodes[id].upchain.None? || IsDone(w.states[w.nodes[id].upchain.value])
    ensures ForkW(cfg, w, id) == Step(w, None)
  {
  }

  // ---------------------------------------------------------------- cancel

  /** `cancel(String)` fails on an empty reason in debug builds, succeeds
      exactly from `ZEN` or `FORKED`, and then changes that one state cell:
      no downstream future is touched. */
  lemma CancelIsLocalAndOneShot(cfg: Config, w: World, id: Id, reason: string)
    requires WF(w) && id < |w.nodes|
    ensures var r := CancelW(cfg, w, id, reason);
            && (r.result == Err(IllegalArgument) <==> cfg.debug && reason == [])
            && (r.result == Ok(true) <==> !(cfg.debug && reason == []) && IsLive(w.states[id]))
            && (r.result != Ok(true) ==> r.w == w)
            && (r.result == Ok(true) ==>
                  && r.w.states[id] == Cancelled(reason, None)
                  && r.w.submitted == w.submitted
                  && r.w.nodes == w.nodes
                  && forall x :: 0 <= x < |w.states| && x != id ==> r.w.states[x] == w.states[x])
  {
  }

  /** A second cancel is ignored and keeps the first reason. */
  lemma CancelIsIdempotent(cfg: Config, w: World, id: Id, reason: string, reason': string)
    requires WF(w) && id < |w.nodes|
    requires CancelW(cfg, w, id, reason).result == Ok(true)
    requires !(cfg.debug && reason' == [])
    ensures var w1 := CancelW(cfg, w, id, reason).w;
            CancelW(cfg, w1, id, reason') == Outcome(w1, Ok(false))
    ensures CancelW(cfg, w, id, reason).w.states[id].reason == reason
  {
  }

  // ------------------------------------------------------- forEachThen

  /** Once an exception has been caught, it is the one reported. */
  lemma {:induction false} ForEachThenKeepsFirstException(cfg: Config, w: World, parent: Id, ds: seq<Id>,
                                                          hook: Hook, e: Exc)
    requires WF(w) && parent < |w.nodes| && AllIn(w, ds, parent) && HookReady(w, hook)
    ensures ForEachThenW(cfg, w, parent, ds, hook, Some(e)).thrown == Some(e)
    decreases |ds|
  {
    if ds != [] {
      var s1 := ApplyHook(cfg, w, ds[0], hook);
      ForEachThenKeepsFirstException(cfg, s1.w, parent, ds[1..], hook, e);
    }
  }

  /** What the loop does to the arena never depends on whether an earlier
      entry threw: the loop goes on after a failure. */
  lemma {:induction false} ForEachThenIgnoresFailures(cfg: Config, w: World, parent: Id, ds: seq<Id>,
                                                      hook: Hook, a: Option<Exc>, b: Option<Exc>)
    requires WF(w) && parent < |w.nodes| && AllIn(w, ds, parent) && HookReady(w, hook)
    ensures ForEachThenW(cfg, w, parent, ds, hook, a).w == ForEachThenW(cfg, w, parent, ds, hook, b).w
    decreases |ds|
  {
    if ds != [] {
      var s1 := ApplyHook(cfg, w, ds[0], hook);
      ForEachThenIgnoresFailures(cfg, s1.w, parent, ds[1..], hook,
        if a.Some? then a else s1.thrown, if b.Some? then b else s1.thrown);
    }
  }

  /** Walking a list is walking its first part and then the rest, from the
      arena and accumulator the first part left. */
  lemma {:induction false} ForEachThenSplits(cfg: Config, w: World, parent: Id, ds1: seq<Id>, ds2: seq<Id>,
                                             hook: Hook, first: Option<Exc>)
    requires WF(w) && parent < |w.nodes| && AllIn(w, ds1, parent) && AllIn(w, ds2, parent) && HookReady(w, hook)
    ensures AllIn(w, ds1 + ds2, parent)
    ensures var s1 := ForEachThenW(cfg, w, parent, ds1, hook, first);
            && AllIn(s1.w, ds2, parent) && HookReady(s1.w, hook)
            && ForEachThenW(cfg, w, parent, ds1 + ds2, hook, first) == ForEachThenW(cfg, s1.w, parent, ds2, hook, s1.thrown)
    decreases |ds1|
  {
    AllInConcat(w, ds1, ds2, parent);
    if ds1 == [] {
      assert ds1 + ds2 == ds2;
    } else {
      var h := ApplyHook(cfg, w, ds1[0], hook);
      var rest := if first.Some? then first else h.thrown;
      ForEachThenSplits(cfg, h.w, parent, ds1[1..], ds2, hook, rest);
      ConcatCons(ds1, ds2);
    }
  }

  /** Sequence plumbing: a concatenation of two valid entry lists is one. */
  lemma AllInConcat(w: World, ds1: seq<Id>, ds2: seq<Id>, parent: Id)
    requires AllIn(w, ds1, parent) && AllIn(w, ds2, parent)
    ensures AllIn(w, ds1 + ds2, parent)
  {
  }

  /** Sequence plumbing: head and tail of a concatenation. */
  lemma ConcatCons(ds1: seq<Id>, ds2: seq<Id>)
    requires ds1 != []
    ensures (ds1 + ds2)[0] == ds1[0] && (ds1 + ds2)[1..] == ds1[1..] + ds2
  {
  }

  // ------------------------------------------------- the cancellation cascade

  /** Every state cell is unchanged, or became c from `ZEN`/`FORKED` or on an
      `OnCancelledAltFuture`. */
  ghost predicate CancelFrame(w: World, w': World, c: CancelledState) {
    && |w'.states| == |w.states|
    && forall x :: 0 <= x < |w.states| ==>
         || w'.states[x] == w.states[x]
         || (w'.states[x] == c && (IsLive(w.states[x]) || (x < |w.nodes| && w.nodes[x].kind.OnCancelledStep?)))
  }

  lemma CancelFrameAt(w: World, w': World, c: CancelledState, d: Id)
    requires CancelFrame(w, w', c) && d < |w.states|
    ensures d < |w'.states| && (w'.states[d] == w.states[d] || w'.states[d] == c)
  {
  }

  /** Sequence plumbing: indexing the tail of a list. */
  lemma TailIndex(ds: seq<Id>, i: nat)
    requires 0 < i < |ds|
    ensures ds[1..][i - 1] == ds[i]
  {
  }

  lemma CancelFrameTransitive(w0: World, w1: World, w2: World, c: CancelledState)
    requires w1.nodes == w0.nodes
    requires CancelFrame(w0, w1, c) && CancelFrame(w1, w2, c)
    ensures CancelFrame(w0, w2, c)
  {
  }

  /** `doOnCancelled` never throws, and its cascade only writes c. */
  lemma {:induction false} DoOnCancelledFrame(cfg: Config, w: World, id: Id, c: CancelledState)
    requires WF(w) && id < |w.nodes|
    ensures var s := DoOnCancelledW(cfg, w, id, c); s.thrown.None? && CancelFrame(w, s.w, c)
    decreases if IsLive(w.states[id]) then |w.nodes| - id else 0, 1, 0
  {
    if !w.nodes[id].kind.OnCancelledStep? && IsLive(w.states[id]) {
      var w1 := SetState(w, id, c);
      SetStateFrame(w, id, c);
      ForEachCancelFrame(cfg, w1, id, w.nodes[id].downstream, c, None);
      var s := ForEachThenW(cfg, w1, id, w.nodes[id].downstream, CancelEach(c), None);
      CancelFrameTransitive(w, w1, s.w, c);
    }
  }

  lemma {:induction false} ForEachCancelFrame(cfg: Config, w: World, parent: Id, ds: seq<Id>,
                                              c: CancelledState, first: Option<Exc>)
    requires WF(w) && parent < |w.nodes| && AllIn(w, ds, parent)
    ensures var s := ForEachThenW(cfg, w, parent, ds, CancelEach(c), first);
            s.thrown == first && CancelFrame(w, s.w, c)
    decreases |w.nodes| - parent, 0, |ds|
  {
    if ds != [] {
      var s1 := DoOnCancelledW(cfg, w, ds[0], c);
      DoOnCancelledFrame(cfg, w, ds[0], c);
      ForEachCancelFrame(cfg, s1.w, parent, ds[1..], c, first);
      var s := ForEachThenW(cfg, s1.w, parent, ds[1..], CancelEach(c), first);
      CancelFrameTransitive(w, s1.w, s.w, c);
    }
  }

  /** A future that `doOnCancelled` may move ends in c. */
  lemma DoOnCancelledReachesSelf(cfg: Config, w: World, id: Id, c: CancelledState)
    requires WF(w) && id < |w.nodes|
    requires IsLive(w.states[id]) || w.nodes[id].kind.OnCancelledStep?
    ensures DoOnCancelledW(cfg, w, id, c).w.states[id] == c
  {
    if !w.nodes[id].kind.OnCancelledStep? {
      SetStateFrame(w, id, c);
      ForEachCancelFrame(cfg, SetState(w, id, c), id, w.nodes[id].downstream, c, None);
    }
  }

  /** A listed entry that was live, or is an `OnCancelledAltFuture`, ends
      in c, whatever the entries before it did. */
  lemma {:induction false} ForEachCancelReaches(cfg: Config, w: World, parent: Id, ds: seq<Id>,
                                                c: CancelledState, first: Option<Exc>, i: nat)
    requires WF(w) && parent < |w.nodes| && AllIn(w, ds, parent) && i < |ds|
    requires IsLive(w.states[ds[i]]) || w.nodes[ds[i]].kind.OnCancelledStep?
    ensures ForEachThenW(cfg, w, parent, ds, CancelEach(c), first).w.states[ds[i]] == c
    decreases i
  {
    var d := ds[i];
    var s1 := DoOnCancelledW(cfg, w, ds[0], c);
    DoOnCancelledFrame(cfg, w, ds[0], c);
    var rest := ds[1..];
    ForEachCancelFrame(cfg, s1.w, parent, rest, c, first);
    var s := ForEachThenW(cfg, s1.w, parent, rest, CancelEach(c), first);
    assert ForEachThenW(cfg, w, parent, ds, CancelEach(c), first) == s;
    if i == 0 {
      DoOnCancelledReachesSelf(cfg, w, d, c);
      CancelFrameAt(s1.w, s.w, c, d);
    } else {
      TailIndex(ds, i);
      CancelFrameAt(w, s1.w, c, d);
      if s1.w.states[d] == w.states[d] {
        ForEachCancelReaches(cfg, s1.w, parent, rest, c, first, i - 1);
      } else {
        CancelFrameAt(s1.w, s.w, c, d);
      }
    }
  }

  /** `doOnCancelled` on a live future of the base class cancels every
      downstream entry that was live (or overrides `doOnCancelled`), and
      writes nothing but c anywhere. */
  lemma CancelCascadeReachesChildren(cfg: Config, w: World, id: Id, c: CancelledState)
    requires WF(w) && id < |w.nodes|
    requires IsLive(w.states[id]) && !w.nodes[id].kind.OnCancelledStep?
    ensures var s := DoOnCancelledW(cfg, w, id, c);
            && s.thrown.None? && CancelFrame(w, s.w, c)
            && s.w.states[id] == c
            && forall d ::
                 (d in w.nodes[id].downstream && (IsLive(w.states[d]) || w.nodes[d].kind.OnCancelledStep?))
                 ==> s.w.states[d] == c
  {
    var ds := w.nodes[id].downstream;
    var w1 := SetState(w, id, c);
    SetStateFrame(w, id, c);
    DoOnCancelledFrame(cfg, w, id, c);
    DoOnCancelledReachesSelf(cfg, w, id, c);
    forall d | d in ds && (IsLive(w.states[d]) || w.nodes[d].kind.OnCancelledStep?)
      ensures DoOnCancelledW(cfg, w, id, c).w.states[d] == c
    {
      var i :| 0 <= i < |ds| && ds[i] == d;
      assert w1.states[ds[i]] == w.states[ds[i]];
      ForEachCancelReaches(cfg, w1, id, ds, c, None, i);
    }
  }

  /** A future that is done and does not override `doOnCancelled` ignores it. */
  lemma DoOnCancelledOfDoneIsNoop(cfg: Config, w: World, id: Id, c: CancelledState)
    requires WF(w) && id < |w.nodes|
    requires IsDone(w.states[id]) && !w.nodes[id].kind.OnCancelledStep?
    ensures DoOnCancelledW(cfg, w, id, c) == Step(w, None)
  {
  }

  // ------------------------------------------------------ the error cascade

  /** Every state cell is unchanged, or moved from `ZEN` to the error. */
  ghost predicate ErrorFrame(w: World, w': World, e: StateError) {
    && |w'.states| == |w.states|
    && forall x :: 0 <= x < |w.states| ==>
         w'.states[x] == w.states[x] || (w.states[x].Zen? && w'.states[x] == Errored(e))
  }

  lemma ErrorFrameAt(w: World, w': World, e: StateError, d: Id)
    requires ErrorFrame(w, w', e) && d < |w.states|
    ensures d < |w'.states| && (w'.states[d] == w.states[d] || (w.states[d].Zen? && w'.states[d] == Errored(e)))
  {
  }

  lemma ErrorFrameTransitive(w0: World, w1: World, w2: World, e: StateError)
    requires ErrorFrame(w0, w1, e) && ErrorFrame(w1, w2, e)
    ensures ErrorFrame(w0, w2, e)
  {
  }

  /** `doOnError` never throws, and its cascade only moves `ZEN` futures to
      the error. */
  lemma {:induction false} DoOnErrorFrame(cfg: Config, w: World, id: Id, e: StateError)
    requires WF(w) && id < |w.nodes|
    ensures var s := DoOnErrorW(cfg, w, id, e); s.thrown.None? && ErrorFrame(w, s.w, e)
    decreases if w.states[id].Zen? then |w.nodes| - id else 0, 1, 0
  {
    if w.states[id].Zen? && !cfg.useForkedState {
      var w1 := SetState(w, id, Errored(e));
      SetStateFrame(w, id, Errored(e));
      ForEachErrorFrame(cfg, w1, id, w.nodes[id].downstream, e, None);
      var s := ForEachThenW(cfg, w1, id, w.nodes[id].downstream, ErrorEach(e), None);
      ErrorFrameTransitive(w, w1, s.w, e);
    }
  }

  lemma {:induction false} ForEachErrorFrame(cfg: Config, w: World, parent: Id, ds: seq<Id>,
                                             e: StateError, first: Option<Exc>)
    requires WF(w) && parent < |w.nodes| && AllIn(w, ds, parent)
    ensures var s := ForEachThenW(cfg, w, parent, ds, ErrorEach(e), first);
            s.thrown == first && ErrorFrame(w, s.w, e)
    decreases |w.nodes| - parent, 0, |ds|
  {
    if ds != [] {
      var s1 := DoOnErrorW(cfg, w, ds[0], e);
      DoOnErrorFrame(cfg, w, ds[0], e);
      ForEachErrorFrame(cfg, s1.w, parent, ds[1..], e, first);
      var s := ForEachThenW(cfg, s1.w, parent, ds[1..], ErrorEach(e), first);
      ErrorFrameTransitive(w, s1.w, s.w, e);
    }
  }

  /** A `ZEN` future that `doOnError` moves ends in the error. */
  lemma DoOnErrorReachesSelf(cfg: Config, w: World, id: Id, e: StateError)
    requires WF(w) && id < |w.nodes| && w.states[id].Zen?
    ensures DoOnErrorW(cfg, w, id, e).w.states[id] == Errored(e)
  {
    if !cfg.useForkedState {
      SetStateFrame(w, id, Errored(e));
      ForEachErrorFrame(cfg, SetState(w, id, Errored(e)), id, w.nodes[id].downstream, e, None);
    }
  }

  /** A listed entry that was `ZEN` ends in the error, whatever the entries
      before it did. */
  lemma {:induction false} ForEachErrorReaches(cfg: Config, w: World, parent: Id, ds: seq<Id>,
                                               e: StateError, first: Option<Exc>, i: nat)
    requires WF(w) && parent < |w.nodes| && AllIn(w, ds, parent) && i < |ds| && w.states[ds[i]].Zen?
    ensures ForEachThenW(cfg, w, parent, ds, ErrorEach(e), first).w.states[ds[i]] == Errored(e)
    decreases i
  {
    var d := ds[i];
    var s1 := DoOnErrorW(cfg, w, ds[0], e);
    DoOnErrorFrame(cfg, w, ds[0], e);
    var rest := ds[1..];
    ForEachErrorFrame(cfg, s1.w, parent, rest, e, first);
    var s := ForEachThenW(cfg, s1.w, parent, rest, ErrorEach(e), first);
    assert ForEachThenW(cfg, w, parent, ds, ErrorEach(e), first) == s;
    if i == 0 {
      DoOnErrorReachesSelf(cfg, w, d, e);
      ErrorFrameAt(s1.w, s.w, e, d);
    } else {
      TailIndex(ds, i);
      ErrorFrameAt(w, s1.w, e, d);
      if s1.w.states[d] == w.states[d] {
        ForEachErrorReaches(cfg, s1.w, parent, rest, e, first, i - 1);
      } else {
        ErrorFrameAt(s1.w, s.w, e, d);
      }
    }
  }

  /** Without `USE_FORKED_STATE`, `doOnError` on a `ZEN` future errors it and
      every `ZEN` downstream entry. */
  lemma ErrorCascadeReachesChildren(cfg: Config, w: World, id: Id, e: StateError)
    requires WF(w) && id < |w.nodes| && w.states[id].Zen? && !cfg.useForkedState
    ensures var s := DoOnErrorW(cfg, w, id, e);
            && s.thrown.None? && ErrorFrame(w, s.w, e)
            && s.w.states[id] == Errored(e)
            && forall d :: d in w.nodes[id].downstream && w.states[d].Zen? ==>
                 s.w.states[d] == Errored(e)
  {
    var ds := w.nodes[id].downstream;
    var w1 := SetState(w, id, Errored(e));
    SetStateFrame(w, id, Errored(e));
    DoOnErrorFrame(cfg, w, id, e);
    ForEachErrorFrame(cfg, w1, id, ds, e, None);
    forall d | d in ds && w.states[d].Zen?
      ensures DoOnErrorW(cfg, w, id, e).w.states[d] == Errored(e)
    {
      var i :| 0 <= i < |ds| && ds[i] == d;
      assert w1.states[ds[i]] == w.states[ds[i]];
      ForEachErrorReaches(cfg, w1, id, ds, e, None, i);
    }
  }

  /** With `USE_FORKED_STATE`, `doOnError` errors a `ZEN` future and stops:
      no other future changes, and a `FORKED` one is not errored at all. */
  lemma ErrorWithForkedStateStopsAtSelf(cfg: Config, w: World, id: Id, e: StateError)
    requires WF(w) && id < |w.nodes| && cfg.useForkedState
    ensures var s := DoOnErrorW(cfg, w, id, e);
            && s.thrown.None?
            && s.w.states[id] == (if w.states[id].Zen? then Errored(e) else w.states[id])
            && s.w.nodes == w.nodes
            && forall x :: 0 <= x < |w.states| && x != id ==> s.w.states[x] == w.states[x]
  {
  }

  // ------------------------------------------------------ cancel(StateError)

  /** Each call of `CancelSelf` on an owner already in state c leaves the
      arena as it is. */
  lemma {:induction false} CancelSelfChangesNothing(cfg: Config, w: World, parent: Id, ds: seq<Id>,
                                                    owner: Id, c: CancelledState, first: Option<Exc>)
    requires WF(w) && parent < |w.nodes| && AllIn(w, ds, parent)
    requires owner < |w.nodes| && w.states[owner] == c
    ensures ForEachThenW(cfg, w, parent, ds, CancelSelf(owner, c), first) == Step(w, first)
    decreases |ds|
  {
    if ds != [] {
      assert w.states[owner := c] == w.states;
      assert SetState(w, owner, c) == w;
      assert ApplyHook(cfg, w, ds[0], CancelSelf(owner, c)) == Step(w, None);
      CancelSelfChangesNothing(cfg, w, parent, ds[1..], owner, c, first);
    }
  }

  /** `cancel(StateError)` as written cancels this future and nothing else:
      no downstream entry is notified. */
  lemma CancelWithErrorDoesNotCascade(cfg: Config, w: World, id: Id, e: StateError)
    requires WF(w) && id < |w.nodes|
    ensures var r := CancelWithErrorW(cfg, w, id, e);
            if IsLive(w.states[id]) then r == Outcome(SetState(w, id, UpchainCancellation(e)), Ok(true))
            else r == Outcome(w, Ok(false))
  {
    if IsLive(w.states[id]) {
      var c := UpchainCancellation(e);
      SetStateFrame(w, id, c);
      CancelSelfChangesNothing(cfg, SetState(w, id, c), id, w.nodes[id].downstream, id, c, None);
    }
  }

  /** A concrete arena: future 0 is `ZEN` with one `ZEN` downstream entry 1. */
  function TwoChain(): (w: World)
    ensures WF(w) && 0 < |w.nodes| && 1 < |w.nodes|
  {
    World([Node(None, [1], Settable, 0), Node(Some(0), [], Settable, 0)], [Zen, Zen], [], [], [])
  }

  /** On that arena the downstream entry stays `ZEN` after
      `cancel(StateError)` as written, and is cancelled by the cascading
      form. */
  lemma CancelWithErrorLeavesChildPending(cfg: Config, e: StateError)
    ensures CancelWithErrorW(cfg, TwoChain(), 0, e).w.states[1] == Zen
    ensures CancelWithErrorCascadingW(cfg, TwoChain(), 0, e).w.states[1] == UpchainCancellation(e)
  {
    CancelWithErrorDoesNotCascade(cfg, TwoChain(), 0, e);
    CancelWithErrorCascades(cfg, TwoChain(), 0, e);
  }

  /** The cascading form cancels this future and every live downstream
      entry with a state that names the error, and never throws. */
  lemma CancelWithErrorCascades(cfg: Config, w: World, id: Id, e: StateError)
    requires WF(w) && id < |w.nodes|
    ensures var r := CancelWithErrorCascadingW(cfg, w, id, e); var c := UpchainCancellation(e);
            && (r.result == Ok(true) <==> IsLive(w.states[id]))
            && (r.result.Ok?)
            && (!IsLive(w.states[id]) ==> r.w == w)
            && (IsLive(w.states[id]) ==>
                  && r.w.states[id] == c
                  && CancelFrame(w, r.w, c)
                  && forall d ::
                       (d in w.nodes[id].downstream && (IsLive(w.states[d]) || w.nodes[d].kind.OnCancelledStep?))
                       ==> r.w.states[d] == c)
  {
    if IsLive(w.states[id]) {
      var c := UpchainCancellation(e);
      var ds := w.nodes[id].downstream;
      var w1 := SetState(w, id, c);
      SetStateFrame(w, id, c);
      ForEachCancelFrame(cfg, w1, id, ds, c, None);
      var s := ForEachThenW(cfg, w1, id, ds, CancelEach(c), None);
      CancelFrameTransitive(w, w1, s.w, c);
      forall d | d in ds && (IsLive(w.states[d]) || w.nodes[d].kind.OnCancelledStep?)
        ensures s.w.states[d] == c
      {
        var i :| 0 <= i < |ds| && ds[i] == d;
        assert w1.states[ds[i]] == w.states[ds[i]];
        ForEachCancelReaches(cfg, w1, id, ds, c, None, i);
      }
    }
  }

  // ------------------------------------------------------------- doThen

  /** `doThen()` on a pending future fails its assertion and changes
      nothing; otherwise any exception it reports is the wrapped first one. */
  lemma DoThenChecksDone(cfg: Config, w: World, id: Id)
    requires WF(w) && id < |w.nodes|
    ensures var s := DoThenW(cfg, w, id);
            && (!IsDone(w.states[id]) ==> s == Step(w, Some(AssertionFailed)))
            && (IsDone(w.states[id]) && s.thrown.Some? ==> s.thrown.value.IllegalStateCausedBy?)
  {
  }

  // ------------------------------------------------------------- links

  /** The upchain link is set once: the first `setUpchain` wins and later
      ones change nothing. */
  lemma SetUpchainIsSetOnce(w: World, id: Id, a: Id, b: Id)
    requires WF(w) && id < |w.nodes| && a < |w.nodes| && b < |w.nodes| && a < id && b < id
    requires w.nodes[id].upchain.None?
    ensures var w1 := SetUpchainW(w, id, a);
            && w1.nodes[id].upchain == Some(a)
            && SetUpchainW(w1, id, b) == w1
  {
  }

  /** `clearPreviousAltFuture()` drops the link of a done future and fails
      its assertion on a pending one. */
  lemma ClearUpchainRequiresDone(w: World, id: Id)
    requires WF(w) && id < |w.nodes|
    ensures var s := ClearUpchainW(w, id);
            && (s.thrown.None? <==> IsDone(w.states[id]))
            && (s.thrown.Some? ==> s == Step(w, Some(AssertionFailed)))
            && (s.thrown.None? ==> s.w.nodes[id].upchain.None? && s.w.states[id] == w.states[id])
  {
  }

  /** `then(f)` on a pending future only links: f is appended and takes this
      future as its upchain, and no state changes and nothing is submitted. */
  lemma ThenOnPendingOnlyLinks(cfg: Config, w: World, x: Id, f: Id)
    requires WF(w) && x < |w.nodes| && f < |w.nodes| && x < f
    requires !IsDone(w.states[x]) && w.nodes[f].upchain.None?
    ensures var r := ThenW(cfg, w, x, f);
            && r.result == Ok(f)
            && r.w.nodes[x].downstream == w.nodes[x].downstream + [f]
            && r.w.nodes[f].upchain == Some(x)
            && r.w.submitted == w.submitted
            && forall y :: 0 <= y < |w.nodes| ==> r.w.states[y] == w.states[y]
  {
  }

  /** `then(f)` on a done future forks f at once: a fresh step is submitted
      (and marked `FORKED` under `USE_FORKED_STATE`), or the refusal is
      reported. */
  lemma ThenOnDoneForks(cfg: Config, w: World, x: Id, f: Id)
    requires WF(w) && x < |w.nodes| && f < |w.nodes| && x < f
    requires IsDone(w.states[x]) && w.nodes[f].upchain.None? && w.states[f].Zen?
    ensures var r := ThenW(cfg, w, x, f);
            && (r.result == Ok(f) <==> w.nodes[f].thread !in cfg.refusing)
            && (r.result.Err? ==> r.result.error == RejectedExecution)
            && (r.result == Ok(f) ==> r.w.submitted == w.submitted + [f])
            && (cfg.useForkedState ==> r.w.states[f] == Forked)
  {
  }

  /** `on(t)` keeps this future on its own thread type and otherwise chains a
      fresh settable relay on t. */
  lemma OnSwitchesThreadType(cfg: Config, w: World, x: Id, t: ThreadType)
    requires WF(w) && x < |w.nodes|
    ensures var r := OnW(cfg, w, x, t);
            && (t == w.nodes[x].thread ==> r == Outcome(w, Ok(x)))
            && (t != w.nodes[x].thread ==>
                  && |w.nodes| < |r.w.nodes|
                  && r.w.nodes[|w.nodes|].kind == Settable && r.w.nodes[|w.nodes|].thread == t
                  && r.w.nodes[|w.nodes|].upchain == Some(x)
                  && r.w.nodes[x].downstream == w.nodes[x].downstream + [|w.nodes|]
                  && (r.result.Ok? ==> r.result.value == |w.nodes|))
  {
  }

  /** `filter(action)` as written builds a step that is neither linked to nor
      listed by this future, so this future's completion never runs it. */
  lemma FilterIsDetached(w: World, x: Id)
    requires WF(w) && x < |w.nodes|
    ensures var r := FilterW(w, x);
            && r.result == Ok(|w.nodes|)
            && r.w.nodes[|w.nodes|].upchain.None?
            && |w.nodes| !in r.w.nodes[x].downstream
            && forall y :: 0 <= y < |w.nodes| ==> r.w.nodes[y] == w.nodes[y] && r.w.states[y] == w.states[y]
  {
    assert forall i :: 0 <= i < |w.nodes[x].downstream| ==> w.nodes[x].downstream[i] < |w.nodes|;
  }

  /** Chained with `then`, the filter step is linked below this future and
      listed in its downstream entries. */
  lemma FilterChainedIsLinked(cfg: Config, w: World, x: Id)
    requires WF(w) && x < |w.nodes|
    ensures var r := FilterChainedW(cfg, w, x);
            && r.w.nodes[|w.nodes|].upchain == Some(x)
            && r.w.nodes[|w.nodes|].kind == Runnable(FilterStep)
            && r.w.nodes[x].downstream == w.nodes[x].downstream + [|w.nodes|]
  {
  }

  /** The filter step never fails and always passes its value on; an
      accepted value changes nothing. */
  lemma FilterRunPassesValue(cfg: Config, w: World, x: Id, v: int, accepted: bool, text: string)
    requires WF(w) && x < |w.nodes|
    ensures var r := FilterRunW(cfg, w, x, v, accepted, text);
            && r.result == Ok(v)
            && (accepted ==> r.w == w)
  {
  }

  /** A rejected value cancels the future `filter` was called on, when that
      future is still `ZEN` or `FORKED`, with the reason "Filtered: " and the
      value's text; no other state cell and no link changes. */
  lemma FilterRejectionCancelsEnclosing(cfg: Config, w: World, x: Id, v: int, text: string)
    requires WF(w) && x < |w.nodes| && IsLive(w.states[x])
    ensures var r := FilterRunW(cfg, w, x, v, false, text);
            && r.w.states[x] == Cancelled("Filtered: " + text, None)
            && r.w.nodes == w.nodes
            && forall y :: 0 <= y < |w.states| && y != x ==> r.w.states[y] == w.states[y]
  {
  }

  /** A rejection on a future that is already done changes nothing. Once the
      filter step is chained below x, it runs only after x is done, so its
      `cancel` on x answers false and nothing is cancelled. */
  lemma FilterRejectionOnDoneChangesNothing(cfg: Config, w: World, x: Id, v: int, text: string)
    requires WF(w) && x < |w.nodes| && IsDone(w.states[x])
    ensures FilterRunW(cfg, w, x, v, false, text) == Outcome(w, Ok(v))
  {
  }

  // ------------------------------------------------------------- await

  /** `await(f)`: the output is a fresh settable future linked below this
      one, and f gains a step that sets it. */
  lemma AwaitOneShape(cfg: Config, w: World, x: Id, f: Id)
    requires WF(w) && x < |w.nodes| && f < |w.nodes|
    ensures var r := AwaitOneW(cfg, w, x, f);
            && (r.result.Ok? ==> r.result.value == |w.nodes|)
            && r.w.nodes[|w.nodes|].kind == Settable
            && r.w.nodes[|w.nodes|].upchain == Some(x)
            && r.w.nodes[|w.nodes| + 1].kind == Runnable(SetOut(|w.nodes|, x))
            && r.w.nodes[f].downstream == w.nodes[f].downstream + [|w.nodes| + 1]
  {
    var w1 := SetUpchainW(NewFuture(w, Settable, w.nodes[x].thread), |w.nodes|, x);
    AwaitOneOutput(w, x, f);
    AwaitOneStep(cfg, w1, |w.nodes|, x, f);
  }

  lemma AwaitOneOutput(w: World, x: Id, f: Id)
    requires WF(w) && x < |w.nodes| && f < |w.nodes|
    ensures var w1 := SetUpchainW(NewFuture(w, Settable, w.nodes[x].thread), |w.nodes|, x);
            && |w1.nodes| == |w.nodes| + 1 && |w.nodes| < |w1.nodes| && f < |w1.nodes|
            && w1.nodes[|w.nodes|].upchain == Some(x) && w1.nodes[|w.nodes|].kind == Settable
            && w1.nodes[f] == w.nodes[f]
  {
  }

  lemma AwaitOneStep(cfg: Config, w1: World, o: Id, x: Id, f: Id)
    requires WF(w1) && o < |w1.nodes| && f < |w1.nodes|
    ensures var s := ThenNewW(cfg, w1, f, Runnable(SetOut(o, x)), w1.nodes[f].thread);
            && s.w.nodes[o].upchain == w1.nodes[o].upchain && s.w.nodes[o].kind == w1.nodes[o].kind
            && s.w.nodes[|w1.nodes|].kind == Runnable(SetOut(o, x))
            && s.w.nodes[f].downstream == w1.nodes[f].downstream + [|w1.nodes|]
  {
    ThenNewKeepsNode(cfg, w1, f, Runnable(SetOut(o, x)), w1.nodes[f].thread, o);
  }

  /** `await(fs...)` refuses fewer than two futures without changing
      anything; otherwise the output is a fresh settable future linked below
      this one, with a countdown of |fs| and one arrival step per future. */
  lemma AwaitAllShape(cfg: Config, w: World, x: Id, fs: seq<Id>)
    requires WF(w) && x < |w.nodes| && forall i :: 0 <= i < |fs| ==> fs[i] < |w.nodes|
    ensures var r := AwaitAllW(cfg, w, x, fs);
            && (|fs| < 2 ==> r == Outcome(w, Err(AssertionFailed)))
            && (|fs| >= 2 ==>
                  && r.w.nodes[|w.nodes|].kind == Settable
                  && r.w.nodes[|w.nodes|].upchain == Some(x)
                  && r.w.countdowns == w.countdowns + [Countdown(|fs|, |w.nodes|, x)]
                  && (r.result.Ok? ==> r.result.value == |w.nodes| && |r.w.nodes| == |w.nodes| + 1 + |fs|))
  {
    if |fs| >= 2 {
      var w1 := NewFuture(w, Settable, w.nodes[x].thread);
      var w2 := w1.(countdowns := w1.countdowns + [Countdown(|fs|, |w.nodes|, x)]);
      var w3 := SetUpchainW(w2, |w.nodes|, x);
      AttachEachKeepsNode(cfg, w3, fs, Arrival(|w.countdowns|), |w.nodes|);
    }
  }

  /** The arrival steps change no older future's class, thread type or
      upchain link. */
  lemma {:induction false} AttachEachKeepsNode(cfg: Config, w: World, fs: seq<Id>, action: Action, y: Id)
    requires WF(w) && (forall i :: 0 <= i < |fs| ==> fs[i] < |w.nodes|) && y < |w.nodes|
    ensures var s := AttachEachW(cfg, w, fs, action);
            && s.w.nodes[y].kind == w.nodes[y].kind
            && s.w.nodes[y].thread == w.nodes[y].thread
            && s.w.nodes[y].upchain == w.nodes[y].upchain
    decreases |fs|
  {
    if fs != [] {
      var r := ThenNewW(cfg, w, fs[0], Runnable(action), w.nodes[fs[0]].thread);
      ThenNewKeepsNode(cfg, w, fs[0], Runnable(action), w.nodes[fs[0]].thread, y);
      if r.result.Ok? {
        AttachEachKeepsNode(cfg, r.w, fs[1..], action, y);
      }
    }
  }
  /** The first turn of the loop of `await(IAltFuture...)` or
      `then(IActionOne...)` creates the future `|w.nodes|`: a step with the
      loop's action, on the thread type of the first entry, chained below
      that entry; later turns leave it as it is. */
  lemma AttachEachBuildsFirst(cfg: Config, w: World, fs: seq<Id>, action: Action)
    requires WF(w) && (forall i :: 0 <= i < |fs| ==> fs[i] < |w.nodes|) && fs != []
    ensures var s := AttachEachW(cfg, w, fs, action);
            s.thrown.None? ==>
              && |w.nodes| < |s.w.nodes|
              && s.w.nodes[|w.nodes|].upchain == Some(fs[0])
              && s.w.nodes[|w.nodes|].kind == Runnable(action)
              && s.w.nodes[|w.nodes|].thread == w.nodes[fs[0]].thread
  {
    var r := ThenNewW(cfg, w, fs[0], Runnable(action), w.nodes[fs[0]].thread);
    if r.result.Ok? {
      AttachEachKeepsNode(cfg, r.w, fs[1..], action, |w.nodes|);
    }
  }

  /** With the anchor's value available, n arrivals on a countdown of n set
      the output exactly once, on the last arrival, with the anchor's state;
      further arrivals set nothing.  With the anchor cancelled or pending
      nothing is ever set. */
  lemma {:induction false} ArrivalsSetOutputOnce(w: World, k: nat, m: nat)
    requires k < |w.countdowns| && w.countdowns[k].anchor < |w.states|
    requires w.countdowns[k].remaining >= 1
    ensures var n := w.countdowns[k].remaining; var a := w.states[w.countdowns[k].anchor];
            var r := ArriveN(w, k, m);
            && |r.sets| == |w.sets| + (if m >= n && Get(a).Ok? then 1 else 0)
            && w.sets <= r.sets
            && (m >= n && Get(a).Ok? ==> r.sets[|w.sets|] == SetEvent(w.countdowns[k].out, a))
    decreases m
  {
    if m > 0 {
      ArrivalsSetOutputOnce(w, k, m - 1);
    }
  }

  /** An errored anchor is not an exception for `get()`: the output is set
      with the anchor's error state as its value. */
  lemma ArrivalPassesErrorStateOn(w: World, k: nat)
    requires k < |w.countdowns| && w.countdowns[k].anchor < |w.states|
    requires w.countdowns[k].remaining == 1 && w.states[w.countdowns[k].anchor].Errored?
    ensures ArriveW(w, k).result == Ok(true)
    ensures ArriveW(w, k).w.sets == w.sets + [SetEvent(w.countdowns[k].out, w.states[w.countdowns[k].anchor])]
  {
  }

  // ----------------------------------------------------- varargs combinators

  /** `then(IActionOne...)` refuses fewer than two actions without changing
      anything; otherwise its result is an `await` output. */
  lemma ThenAllArity(cfg: Config, w: World, x: Id, n: nat, action: Action)
    requires WF(w) && x < |w.nodes|
    ensures var r := ThenAllW(cfg, w, x, n, action);
            && (n < 2 ==> r == Outcome(w, Err(AssertionFailed)))
            && (n >= 2 && r.result.Ok? ==> r.result.value < |r.w.nodes| && r.w.nodes[r.result.value].kind == Settable)
  {
    if n >= 2 {
      var s := AttachEachW(cfg, w, Repeat(x, n), action);
      if s.thrown.None? {
        var fs := FreshIds(|w.nodes|, n);
        FreshIdsIn(s.w, |w.nodes|, n);
        AwaitAllShape(cfg, s.w, x, fs);
        assert ThenAllW(cfg, w, x, n, action) == AwaitAllW(cfg, s.w, x, fs);
      }
    }
  }

  /** `then(IAction...)` as written behaves like the form with the intended
      arity checks exactly when fewer than two actions are given; from two
      actions on, the intended form builds futures and the written one
      throws. */
  lemma ThenActionsAsWrittenAgreesOnlyBelowTwo(cfg: Config, w: World, x: Id, n: nat)
    requires WF(w) && x < |w.nodes|
    ensures ThenActionsAsWrittenW(cfg, w, x, n) == ThenAllW(cfg, w, x, n, RunAction) <==> n < 2
  {
    if n >= 2 {
      assert |ThenAllW(cfg, w, x, n, RunAction).w.nodes| > |w.nodes|;
    }
  }

  /** The same for `map(IActionOneR...)`. */
  lemma MapAllAsWrittenAgreesOnlyBelowTwo(w: World, x: Id, n: nat)
    requires WF(w) && x < |w.nodes|
    ensures MapAllAsWrittenW(w, x, n) == MapAllW(w, x, n) <==> n < 2
  {
    if n >= 2 {
      assert |MapAllW(w, x, n).w.nodes| == |w.nodes| + n;
    }
  }

  /** `map(IActionOneR...)` with the arity checks of its siblings builds n
      fresh, unlinked steps and leaves this future as it was. */
  lemma MapAllBuildsUnlinkedSteps(w: World, x: Id, n: nat)
    requires WF(w) && x < |w.nodes| && n >= 2
    ensures var r := MapAllW(w, x, n);
            && r.result.Ok? && |r.result.value| == n
            && (forall i :: 0 <= i < n ==>
                  && r.result.value[i] < |r.w.nodes|
                  && r.w.nodes[r.result.value[i]].upchain.None?
                  && r.w.nodes[r.result.value[i]].kind == Runnable(MapActionOneR))
            && r.w.nodes[x] == w.nodes[x] && r.w.states[x] == w.states[x]
  {
    NewStepsShape(w, x, n);
  }
}
