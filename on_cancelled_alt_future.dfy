/** `OnCancelledAltFuture`: the step `onCancelled(action)` attaches.  Its
    `doOnCancelled` replaces the base class's guarded compare-and-set with an
    unconditional write of the state cell and does not cascade. */
module OnCancelledAltFuture {
  import opened Common
  import opened AltFutureState

  /** `doOnCancelled(stateCancelled)`: `mStateAR.set(stateCancelled)`. */
  function DoOnCancelledOverride(w: World, id: Id, c: CancelledState): (w': World)
    requires id < |w.states|
  {
    SetState(w, id, c)
  }

  /** The write happens whatever the state was before, done or not. */
  lemma {:induction false} OverrideOverwritesAnyState(w: World, id: Id, c: CancelledState)
    requires id < |w.states|
    ensures DoOnCancelledOverride(w, id, c).states[id] == c
  {
  }

  /** Afterwards the future is cancelled and done, so `get()` throws while
      `safeGet()` yields `VALUE_NOT_AVAILABLE`. */
  lemma OverrideLeavesFutureCancelled(w: World, id: Id, c: CancelledState)
    requires id < |w.states|
    ensures var s := DoOnCancelledOverride(w, id, c).states[id];
            IsCancelled(s) && IsDone(s) && Get(s) == Err(IllegalState) && SafeGet(s).None?
  {
  }

  /** Nothing but the one state cell changes: not the links, not any other
      future, not the logs. */
  lemma OverrideTouchesOnlyItsState(w: World, id: Id, c: CancelledState)
    requires WF(w) && id < |w.states|
    ensures var w' := DoOnCancelledOverride(w, id, c);
            && WF(w') && StepFrame(w, w')
            && (forall x :: 0 <= x < |w.states| && x != id ==> w'.states[x] == w.states[x])
  {
  }
}
