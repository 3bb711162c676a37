/** The tick interrupt: the wrapping tick count and its two delayed lists behave like
    one list of absolute deadlines. */
module SchedulerTicks {
  import opened Common
  import opened Rings
  import opened SchedulerState
  import opened SchedulerOps

  /** t's time has come at the current tick count. */
  ghost predicate Due(s: State, t: Task) {
    t in s.tcbs && s.tcbs[t].place == s.DelayedList() && s.tcbs[t].wake <= s.tick
  }

  /** Between the increment of the tick count and the end of the unblocking loop. */
  ghost predicate NotOverdue(s: State) {
    forall t :: t in s.tcbs && s.tcbs[t].place == s.DelayedList() ==> s.tick <= s.tcbs[t].wake
  }

  /** The scheduler is not suspended, so nothing is pended. */
  ghost predicate Unsuspended(s: State) {
    s.suspended == 0 && s.pending == [] && EventsOk(s) && TasksOk(s)
  }

  /** The delayed list is in wake order, so its head is its earliest task. */
  lemma HeadFirst(s: State)
    requires Linked(s) && SortedLists(s)
    ensures forall t :: t in s.tcbs && s.tcbs[t].place == s.DelayedList() ==>
      s.ListAt(s.DelayedList()).items != [] && HeadWake(s) <= s.tcbs[t].wake
  {
    var items := s.ListAt(s.DelayedList()).items;
    forall t | t in s.tcbs && s.tcbs[t].place == s.DelayedList()
      ensures items != [] && HeadWake(s) <= s.tcbs[t].wake
    {
      var k := IndexOf(items, t);
      assert WakeOrder(s.tcbs, items);
      assert k > 0 ==> s.tcbs[items[0]].wake <= s.tcbs[items[k]].wake;
    }
  }

  lemma ResetCore(s: State)
    requires Linked(s) && ReadyOk(s) && DeadlinesOk(s) && SortedLists(s)
    ensures Core(ResetNextUnblock(s))
  {
    HeadFirst(s);
    hide WakeOrder, ReadyOk, HeadWake;
  }

  /** The swap of the delayed lists: the current list is empty when xTickCount wraps, so
      the assertion of taskSWITCH_DELAYED_LISTS holds, and the overflow list becomes the
      list of the new epoch. */
  lemma SwapCore(s: State)
    requires Core(s) && NoneDue(s) && s.tick + 1 == TICK_MODULUS
    ensures s.ListAt(s.DelayedList()).items == []
    ensures Core(AdvanceTick(s)) && NotOverdue(AdvanceTick(s))
  {
    var items := s.ListAt(s.DelayedList()).items;
    assert items == [] by {
      hide ReadyOk, SortedLists;
      FirstMember(items);
    }
    var s1 := s.(tick := 0, delayed := if s.delayed == 0 then 1 else 0, overflows := s.overflows + 1);
    assert Linked(s1) && ReadyOk(s1) && SortedLists(s1) by { hide DeadlinesOk, UnblockOk; }
    assert DeadlinesOk(s1) by {
      hide ReadyOk, SortedLists;
      assert forall t :: t in s.tcbs ==> s.tcbs[t].place != s.DelayedList();
    }
    ResetCore(s1);
    hide Linked, ReadyOk, SortedLists, DeadlinesOk, UnblockOk;
  }

  lemma AdvanceCore(s: State)
    requires Core(s) && NoneDue(s)
    ensures Core(AdvanceTick(s)) && NotOverdue(AdvanceTick(s))
    ensures AdvanceTick(s).Now() == s.Now() + 1
    ensures forall t :: t in s.tcbs && s.tcbs[t].place.Delayed? ==>
      t in s.deadline && (Due(AdvanceTick(s), t) <==> s.deadline[t] == s.Now() + 1)
  {
    if s.tick + 1 == TICK_MODULUS {
      SwapCore(s);
    } else {
      var r := AdvanceTick(s);
      assert Linked(r) && ReadyOk(r) && SortedLists(r) by { hide DeadlinesOk, UnblockOk; }
      assert DeadlinesOk(r) && UnblockOk(r);
    }
    hide ReadyOk, SortedLists;
  }

  /** What the unblocking loop does: every due task becomes ready, nothing else moves. */
  ghost predicate TickEffect(s: State, r: State) {
    && r == s.(tcbs := r.tcbs, lists := r.lists, topReady := r.topReady, nextUnblock := r.nextUnblock,
      onEvent := r.onEvent)
    && r.tcbs.Keys == s.tcbs.Keys
    && (forall t :: t in s.tcbs ==>
         r.tcbs[t] == if Due(s, t) then s.tcbs[t].(place := Ready(s.tcbs[t].priority)) else s.tcbs[t])
    && (forall t :: t in r.onEvent <==> t in s.onEvent && !Due(s, t))
  }

  ghost predicate DueAbove(s: State, t: Task) {
    Due(s, t) && s.TcbOf(t).priority >= s.TcbOf(s.current).priority
  }

  lemma OnEventCore(s: State, onEvent: set<Task>)
    requires Core(s)
    ensures Core(s.(onEvent := onEvent))
  {
    CoreFrame(s, s.(onEvent := onEvent));
  }

  lemma UnblockKeeps(s: State, t: Task)
    requires Core(s) && Unsuspended(s) && Due(s, t)
    ensures var r := Unblock(s, t);
      && Core(r) && Unsuspended(r)
      && r == s.(tcbs := r.tcbs, lists := r.lists, topReady := r.topReady, onEvent := s.onEvent - {t})
      && r.tcbs == s.tcbs[t := s.tcbs[t].(place := Ready(s.tcbs[t].priority))]
  {
    assert s.tcbs[t].place != Nowhere;
    var s1 := s.(onEvent := s.onEvent - {t});
    OnEventCore(s, s1.onEvent);
    hide Core, MakeReady;
    MakeReadyCore(s1, t);
    UnblockUnsuspended(s, t, Unblock(s, t));
    hide Unsuspended;
  }

  lemma UnblockUnsuspended(s: State, t: Task, r: State)
    requires Unsuspended(s) && t in s.tcbs
    requires r == s.(tcbs := r.tcbs, lists := r.lists, topReady := r.topReady, onEvent := s.onEvent - {t})
    requires r.tcbs == s.tcbs[t := s.tcbs[t].(place := Ready(s.tcbs[t].priority))] && r.tcbs.Keys == s.tcbs.Keys
    ensures Unsuspended(r)
  {
  }

  /** The result of the unblocking loop started in state s. */
  ghost predicate LoopDone(s: State, switchRequired: bool, r: TickResult) {
    && Core(r.state) && NoneDue(r.state) && Unsuspended(r.state) && TickEffect(s, r.state)
    && (r.switchRequired <==> switchRequired || exists t :: DueAbove(s, t))
  }

  /** What the loop needs. */
  ghost predicate LoopReady(s: State) {
    Core(s) && NotOverdue(s) && Unsuspended(s)
  }

  lemma {:induction false} UnblockDueEffect(s: State, n: nat, switchRequired: bool)
    requires LoopReady(s) && n == |s.ListAt(s.DelayedList()).items|
    ensures LoopDone(s, switchRequired, UnblockDue(s, n, switchRequired))
    decreases n
  {
    hide LoopReady, LoopDone, Unblock, Due;
    if n == 0 || s.tick < HeadWake(s) {
      NothingDue(s, switchRequired);
    } else {
      var h := s.ListAt(s.DelayedList()).items[0];
      HeadDue(s);
      var sw := switchRequired || s.TcbOf(h).priority >= s.TcbOf(s.current).priority;
      UnblockOne(s, h);
      UnblockDueEffect(Unblock(s, h), n - 1, sw);
      LoopChain(s, h, switchRequired, sw, UnblockDue(Unblock(s, h), n - 1, sw));
    }
  }

  lemma HeadDue(s: State)
    requires LoopReady(s) && s.ListAt(s.DelayedList()).items != [] && HeadWake(s) <= s.tick
    ensures Due(s, s.ListAt(s.DelayedList()).items[0])
  {
    FirstMember(s.ListAt(s.DelayedList()).items);
  }

  lemma UnblockOne(s: State, h: Task)
    requires LoopReady(s) && Due(s, h)
    ensures LoopReady(Unblock(s, h))
    ensures |Unblock(s, h).ListAt(Unblock(s, h).DelayedList()).items| == |s.ListAt(s.DelayedList()).items| - 1
  {
    UnblockShortens(s, h);
    UnblockKeeps(s, h);
    hide Core, Unsuspended, Unblock;
  }

  lemma LoopChain(s: State, h: Task, switchRequired: bool, sw: bool, r: TickResult)
    requires LoopReady(s) && Due(s, h) && LoopDone(Unblock(s, h), sw, r)
    requires sw == (switchRequired || s.TcbOf(h).priority >= s.TcbOf(s.current).priority)
    ensures LoopDone(s, switchRequired, r)
  {
    hide Core, Unsuspended, NoneDue, TickEffect, Unblock, NotOverdue;
    UnblockKeeps(s, h);
    EffectsChain(s, h, Unblock(s, h), r.state);
  }

  lemma NothingDue(s: State, switchRequired: bool)
    requires LoopReady(s)
    requires s.tick < HeadWake(s) || s.ListAt(s.DelayedList()).items == []
    ensures LoopDone(s, switchRequired, TickResult(ResetNextUnblock(s), switchRequired))
  {
    hide Linked, ReadyOk, DeadlinesOk, SortedLists, HeadWake;
    HeadFirst(s);
    var r := ResetNextUnblock(s);
    if s.ListAt(s.DelayedList()).items == [] {
      HeadWakeEmpty(s);
    }
    CoreFrame(s, r);
    assert forall t :: !Due(s, t);
  }

  lemma HeadWakeEmpty(s: State)
    requires Linked(s) && s.ListAt(s.DelayedList()).items == []
    ensures forall t :: t in s.tcbs ==> s.tcbs[t].place != s.DelayedList()
  {
  }

  /** The effect of unblocking h and then the rest is the effect of the whole loop. */
  lemma EffectsChain(s: State, h: Task, s1: State, r: State)
    requires Due(s, h) && TickEffect(s1, r)
    requires s1 == s.(tcbs := s1.tcbs, lists := s1.lists, topReady := s1.topReady, onEvent := s.onEvent - {h})
    requires s1.tcbs == s.tcbs[h := s.tcbs[h].(place := Ready(s.tcbs[h].priority))]
    ensures TickEffect(s, r)
    ensures (exists t :: DueAbove(s, t)) <==> DueAbove(s, h) || (exists t :: DueAbove(s1, t))
  {
    assert forall t :: Due(s, t) <==> t == h || Due(s1, t);
    assert forall t :: DueAbove(s, t) <==> (t == h && DueAbove(s, h)) || DueAbove(s1, t);
  }

  lemma UnblockShortens(s: State, t: Task)
    requires Core(s) && Due(s, t)
    ensures Unblock(s, t).ListAt(s.DelayedList()).items == s.ListAt(s.DelayedList()).Remove(t).items
    ensures |s.ListAt(s.DelayedList()).Remove(t).items| == |s.ListAt(s.DelayedList()).items| - 1
  {
    RemoveKeepsValid(s.ListAt(s.DelayedList()), t);
  }

  /** What t should be at absolute time now if nothing but time acts on it: ready if its
      deadline has come, otherwise where it was. */
  function AtTime(s: State, t: Task, now: nat): Tcb {
    var tcb := s.TcbOf(t);
    if tcb.place.Delayed? && t in s.deadline && s.deadline[t] <= now then tcb.(place := Ready(tcb.priority)) else tcb
  }

  /** Exactly the tasks whose deadline has come by absolute time now are ready, and
      nothing else has changed place. */
  ghost predicate WokenBy(s: State, r: State, now: nat) {
    r.tcbs.Keys == s.tcbs.Keys && forall t :: t in s.tcbs ==> r.tcbs[t] == AtTime(s, t, now)
  }

  /** Every delayed task has a deadline, and it lies ahead. */
  lemma DeadlinesAhead(s: State)
    requires Base(s)
    ensures forall t :: t in s.tcbs && s.tcbs[t].place.Delayed? ==> t in s.deadline && s.Now() < s.deadline[t]
  {
    hide ReadyOk, SortedLists, EventsOk;
  }

  /** One processed tick, from any state of the scheduler. Nobody is woken early, late or
      twice: before the tick every deadline on a delayed list is in the future, and after
      it again. */
  lemma TickWakesOnTime(s: State)
    requires Base(s) && s.suspended == 0 && s.pending == []
    ensures var r := ProcessTick(s).state;
      && Base(r) && r.Now() == s.Now() + 1 && WokenBy(s, r, r.Now())
      && r == s.(tcbs := r.tcbs, lists := r.lists, topReady := r.topReady, nextUnblock := r.nextUnblock,
           onEvent := r.onEvent, tick := r.tick, overflows := r.overflows, delayed := r.delayed)
  {
    hide Core, NoneDue, TickEffect, Due, UnblockIfDue, AdvanceTick, WokenBy, NotOverdue, EventsOk, TasksOk;
    var s1 := AdvanceTick(s);
    AdvanceCore(s);
    AdvanceFrame(s);
    UnblockIfDueDone(s1);
    TickFrame(s, s1, UnblockIfDue(s1).state);
    TickEffectFrame(s1, UnblockIfDue(s1).state);
  }

  lemma TickEffectFrame(s: State, r: State)
    requires TickEffect(s, r)
    ensures r == s.(tcbs := r.tcbs, lists := r.lists, topReady := r.topReady, nextUnblock := r.nextUnblock,
      onEvent := r.onEvent)
  {
  }

  lemma UnblockIfDueDone(s: State)
    requires LoopReady(s)
    ensures LoopDone(s, false, UnblockIfDue(s))
  {
    hide LoopReady, LoopDone;
    if s.tick >= s.nextUnblock {
      UnblockDueEffect(s, |s.ListAt(s.DelayedList()).items|, false);
    } else {
      NotReached(s);
    }
  }

  lemma UnblockFrame(s: State)
    requires LoopReady(s)
    ensures var r := UnblockIfDue(s).state;
      r == s.(tcbs := r.tcbs, lists := r.lists, topReady := r.topReady, nextUnblock := r.nextUnblock,
        onEvent := r.onEvent)
  {
    hide LoopReady, TickEffect, UnblockIfDue;
    UnblockIfDueDone(s);
    TickEffectFrame(s, UnblockIfDue(s).state);
  }

  lemma NotReached(s: State)
    requires LoopReady(s) && s.tick < s.nextUnblock
    ensures LoopDone(s, false, TickResult(s, false))
  {
    hide Linked, ReadyOk, DeadlinesOk, SortedLists;
    assert forall t :: !Due(s, t);
  }

  lemma AdvanceFrame(s: State)
    requires Base(s) && s.suspended == 0 && s.pending == []
    ensures var r := AdvanceTick(s);
      && r == s.(nextUnblock := r.nextUnblock, tick := r.tick, overflows := r.overflows, delayed := r.delayed)
      && Unsuspended(r)
  {
    hide Core, HeadWake;
  }

  lemma TickFrame(s: State, s1: State, r: State)
    requires Base(s) && s.suspended == 0 && s.pending == [] && Unsuspended(r) && TickEffect(s1, r)
    requires s1 == s.(nextUnblock := s1.nextUnblock, tick := s1.tick, overflows := s1.overflows, delayed := s1.delayed)
    requires s1.Now() == s.Now() + 1
    requires forall t :: t in s.tcbs && s.tcbs[t].place.Delayed? ==>
      t in s.deadline && (Due(s1, t) <==> s.deadline[t] == s.Now() + 1)
    requires Core(r) && NoneDue(r)
    ensures Base(r) && WokenBy(s, r, s.Now() + 1)
  {
    hide Core, NoneDue;
    DeadlinesAhead(s);
    assert forall t :: Due(s1, t) ==> s1.tcbs[t].place.Delayed?;
  }

  /** t is woken by the tick that takes s to time s.Now() + 1. */
  ghost predicate WokenNow(s: State, t: Task) {
    t in s.tcbs && s.tcbs[t].place.Delayed? && t in s.deadline && s.deadline[t] == s.Now() + 1
  }

  /** The tick asks for a context switch exactly when it woke a task that may preempt the
      running one, when the running task shares its priority, or when a yield is pending. */
  lemma TickRequestsSwitch(s: State)
    requires Base(s) && s.suspended == 0 && s.pending == []
    ensures var r := ProcessTick(s);
      r.switchRequired <==>
        || (exists t :: WokenNow(s, t) && s.tcbs[t].priority >= s.TcbOf(s.current).priority)
        || |r.state.ListAt(Ready(r.state.TcbOf(r.state.current).priority)).items| > 1
        || s.yieldPending
  {
    hide Core, NoneDue, UnblockIfDue, AdvanceTick, NotOverdue, EventsOk, TasksOk, TickEffect;
    AdvanceCore(s);
    AdvanceFrame(s);
    var s1 := AdvanceTick(s);
    UnblockIfDueDone(s1);
    DueIsWokenNow(s, s1);
    assert forall t :: DueAbove(s1, t) <==> WokenNow(s, t) && s.tcbs[t].priority >= s.TcbOf(s.current).priority;
  }

  lemma DueIsWokenNow(s: State, s1: State)
    requires s1.tcbs == s.tcbs
    requires forall t :: t in s.tcbs && s.tcbs[t].place.Delayed? ==>
      t in s.deadline && (Due(s1, t) <==> s.deadline[t] == s.Now() + 1)
    ensures forall t :: Due(s1, t) <==> WokenNow(s, t)
  {
  }

  lemma AdvanceLoopReady(s: State)
    requires Base(s) && s.suspended == 0 && s.pending == []
    ensures LoopReady(AdvanceTick(s))
  {
    hide Core, NoneDue, NotOverdue, AdvanceTick;
    AdvanceCore(s);
    AdvanceFrame(s);
  }
}
