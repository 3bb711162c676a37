/** Callers for whom inheritance reaches far enough: those of one mutex, and those that never
    nest mutexes. */
module MutexLimits {
  import opened Common
  import opened Rings
  import opened MutexModel
  import opened MutexAccounting
  import opened MutexSafety
  import opened MutexOnTop

  // ---- one mutex ----

  ghost predicate SafeAlone(s: State, m: MutexId) {
    Safe(s) && s.mutexes.Keys == {m}
  }

  lemma NoHazardAlone(s: State, m: MutexId, e: Event)
    requires SafeAlone(s, m) && Enabled(s, e)
    ensures !Hazard(s, e)
  {
    hide CountsOk, HoldersOk, ValuesOk, SafeFor, IsHighestReady, Step, Switches;
    assert forall n :: n in s.mutexes ==> n == m;
    assert forall t :: t in s.tcbs && s.tcbs[t].pc != Outside ==> s.tcbs[t].pc.m == m;
  }

  lemma StepSafeAlone(s: State, m: MutexId, e: Event)
    requires SafeAlone(s, m) && Enabled(s, e) && !e.SetBase?
    ensures SafeAlone(Step(s, e), m)
  {
    hide Accounts, ValuesOk, SafeFor, Step, Enabled, Hazard;
    NoHazardAlone(s, m, e);
    StepSafe(s, e);
    KeepsMutexes(s, e);
  }

  /** Priority inheritance is safe: in every state of every run over one mutex in which no
      priority is set from outside, no task on the wait list outranks the holder, across
      gives, barging takes and waiters that time out, even if a task waits for a mutex it
      holds itself. */
  lemma {:induction false} RunSafeAlone(states: seq<State>, events: seq<Event>, m: MutexId, k: nat)
    requires Run(states, events) && SafeAlone(states[0], m) && k < |states|
    requires forall i :: 0 <= i < k ==> !events[i].SetBase?
    ensures SafeAlone(states[k], m) && HolderOnTop(states[k], m)
    decreases k
  {
    hide Safe, Step, Enabled;
    if k > 0 {
      RunSafeAlone(states, events, m, k - 1);
      StepSafeAlone(states[k - 1], m, events[k - 1]);
    }
    AloneOnTop(states[k], m);
  }

  lemma AloneOnTop(s: State, m: MutexId)
    requires SafeAlone(s, m)
    ensures HolderOnTop(s, m)
  {
    hide Accounts, ValuesOk, Ordered, HolderOnTop, Guarded;
    assert m in s.mutexes;
  }

  // ---- mutexes that are never nested ----

  /** A task that holds a mutex is in no call for another. */
  ghost predicate Unnested(s: State) {
    forall t :: t in s.tcbs && s.tcbs[t].held > 0 ==> s.tcbs[t].pc == Outside
  }

  /** A take is started only by a task that holds nothing. */
  predicate StartsFree(s: State, e: Event) {
    e.StartTake? ==> TcbOf(s, s.current).held == 0
  }

  lemma StepUnnested(s: State, e: Event)
    requires Accounts(s) && Unnested(s) && Enabled(s, e) && StartsFree(s, e)
    ensures Unnested(Step(s, e))
  {
    hide Accounts, Enabled, Step, Unnested, StartsFree;
    match e {
      case Wait(_) => WaitUnnested(s, e);
      case Give(_, _) => WakeUnnested(s, e);
      case TimeOut(_) => WakeUnnested(s, e);
      case _ => PlainUnnested(s, e);
    }
  }

  lemma WaitUnnested(s: State, e: Event)
    requires Accounts(s) && Unnested(s) && Enabled(s, e) && e.Wait?
    ensures Unnested(Step(s, e))
  {
    hide CountsOk, HoldersOk, WaitersOk, IsHighestReady, InsertPos, WaiterValues;
    CallFacts(s, s.current);
  }

  lemma WakeUnnested(s: State, e: Event)
    requires Accounts(s) && Unnested(s) && Enabled(s, e) && (e.Give? || e.TimeOut?)
    ensures Unnested(Step(s, e))
  {
    hide CountsOk, HoldersOk, Distinct, IsHighestReady, GiveYields, Without;
    if e.TimeOut? { WaiterIsListed(s, e.task); }
  }

  lemma PlainUnnested(s: State, e: Event)
    requires Accounts(s) && Unnested(s) && Enabled(s, e) && StartsFree(s, e) && !e.Wait? && !e.Give? && !e.TimeOut?
    ensures Unnested(Step(s, e))
  {
    hide CountsOk, HoldersOk, WaitersOk, IsHighestReady, HighestWaiting;
  }

  /** A holder is then in no call, so only a dropped yield is left. */
  lemma UnnestedHazard(s: State, e: Event)
    requires Accounts(s) && Unnested(s) && Enabled(s, e)
    ensures Hazard(s, e) ==> e.Give? && RunsOnLowered(s, e)
  {
    hide CountsOk, HoldersOk, WaitersOk, IsHighestReady, Contested, Switches, Step;
    if (e.Wait? || e.Undo?) && s.current in s.tcbs {
      CallFacts(s, s.current);
      var m := s.tcbs[s.current].pc.m;
      if s.mutexes[m].holder.Some? { HolderHolds(s, m); }
      if e.Undo? { UndoLowersHolder(s); }
    }
  }

  lemma UndoLowersHolder(s: State)
    requires s.current in s.tcbs && s.tcbs[s.current].pc.Undoing?
      && MutexOf(s, s.tcbs[s.current].pc.m).holder != Some(s.current)
    ensures TcbOf(Step(s, Undo), s.current).priority == s.tcbs[s.current].priority
  {
    hide HighestWaiting;
  }

  /** With mutexes that are never nested it is enough that no task drops to its base
      priority at a give that wakes a lower task, while another mutex is contested. */
  lemma {:induction false} RunSafeUnnested(states: seq<State>, events: seq<Event>, k: nat)
    requires Run(states, events) && Safe(states[0]) && Unnested(states[0]) && k < |states|
    requires forall i :: 0 <= i < k ==> !events[i].SetBase? && StartsFree(states[i], events[i])
    requires forall i :: 0 <= i < k && events[i].Give? ==> !RunsOnLowered(states[i], events[i])
    ensures Safe(states[k]) && Unnested(states[k]) && forall m :: m in states[k].mutexes ==> HolderOnTop(states[k], m)
    decreases k
  {
    hide Accounts, ValuesOk, Ordered, HolderOnTop, Guarded, Step, Enabled, Hazard, StartsFree, RunsOnLowered, Unnested;
    if k > 0 {
      RunSafeUnnested(states, events, k - 1);
      UnnestedHazard(states[k - 1], events[k - 1]);
      StepUnnested(states[k - 1], events[k - 1]);
      StepSafe(states[k - 1], events[k - 1]);
    }
  }
}
