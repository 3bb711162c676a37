/** Blocking, waking, suspending, deleting and re-prioritising tasks keep the
    scheduler invariant. */
module SchedulerTasks {
  import opened Common
  import opened Rings
  import opened SchedulerState
  import opened SchedulerOps
  import opened SchedulerSafety

  /** r is s with task t's TCB rewritten, and lists to match. */
  ghost predicate Rewritten(s: State, t: Task, r: State) {
    && t in s.tcbs && t in r.tcbs
    && r == s.(tcbs := r.tcbs, lists := r.lists, topReady := r.topReady, nextUnblock := r.nextUnblock,
      deadline := r.deadline)
    && r.tcbs == s.tcbs[t := r.tcbs[t]]
    && r.tcbs[t].place != Nowhere
    && (r.tcbs[t].place == s.DelayedList() ==> s.tick < r.tcbs[t].wake)
    && (t == s.idle ==> r.tcbs[t].place.Ready?)
  }

  lemma RewrittenBase(s: State, t: Task, r: State)
    requires Base(s) && Core(r) && Rewritten(s, t, r)
    ensures Base(r)
  {
    hide Core, NoneDue, TasksOk;
    RewrittenNoneDue(s, t, r);
    RewrittenTasks(s, t, r);
  }

  lemma RewrittenNoneDue(s: State, t: Task, r: State)
    requires NoneDue(s) && Rewritten(s, t, r)
    ensures NoneDue(r)
  {
  }

  lemma RewrittenTasks(s: State, t: Task, r: State)
    requires TasksOk(s) && Rewritten(s, t, r)
    ensures TasksOk(r) && r.tcbs.Keys == s.tcbs.Keys
  {
    assert r.tcbs.Keys == s.tcbs.Keys;
  }

  /** Unlink then Link. */
  lemma MoveCore(s: State, t: Task, p: Place)
    requires Base(s) && t in s.tcbs && p in {Suspended, Termination}
    ensures var r := Link(Unlink(s, t), t, p);
      Core(r) && r == s.(tcbs := s.tcbs[t := s.tcbs[t].(place := p)], lists := r.lists)
  {
    hide Core, PositionFor, NoneDue, TasksOk;
    Placed(s, t);
    UnlinkCore(s, t);
    LinkCore(Unlink(s, t), t, p);
    Overwrite(s.tcbs, t, s.tcbs[t].(place := Nowhere), s.tcbs[t].(place := p));
  }

  lemma MoveBase(s: State, t: Task, p: Place)
    requires Base(s) && t in s.tcbs && p in {Suspended, Termination} && t != s.idle
    ensures Base(Link(Unlink(s, t), t, p))
  {
    hide Base, Link, Unlink, Core;
    MoveCore(s, t, p);
    RewrittenBase(s, t, Link(Unlink(s, t), t, p));
  }

  // ---- blocking ----

  lemma DelayBase(s: State, ticks: nat, indefinitely: bool)
    requires Base(s) && s.current != s.idle && 0 < ticks < TICK_MODULUS
    ensures var r := DelayCurrent(s, ticks, indefinitely);
      && Base(r)
      && r == s.(tcbs := r.tcbs, lists := r.lists, nextUnblock := r.nextUnblock, deadline := r.deadline)
      && r.tcbs.Keys == s.tcbs.Keys
  {
    hide Base, Link, Unlink, AddToDelayedList;
    CurrentIsTask(s);
    if ticks == MAX_DELAY && indefinitely {
      MoveBase(s, s.current, Suspended);
      MoveCore(s, s.current, Suspended);
    } else {
      TimedDelayBase(s, s.current, ticks);
    }
  }

  lemma CurrentIsTask(s: State)
    requires Base(s)
    ensures s.current in s.tcbs && s.tcbs[s.current].place != Nowhere && Core(s) && s.tick < TICK_MODULUS
  {
    hide Linked, ReadyOk, SortedLists, UnblockOk, NoneDue, EventsOk;
  }

  lemma TimedDelayBase(s: State, t: Task, ticks: nat)
    requires Base(s) && t == s.current && t in s.tcbs && t != s.idle && 0 < ticks < TICK_MODULUS
    ensures var r := AddToDelayedList(Unlink(s, t), t, ticks);
      && Base(r)
      && r == s.(tcbs := r.tcbs, lists := r.lists, nextUnblock := r.nextUnblock,
        deadline := s.deadline[t := s.Now() + ticks])
      && r.tcbs == s.tcbs[t := s.tcbs[t].(wake := WakeTime(s.tick, ticks),
           place := if s.tick + ticks < TICK_MODULUS then s.DelayedList() else s.OverflowList())]
      && r.tcbs.Keys == s.tcbs.Keys
  {
    hide Base, Core, PositionFor;
    CurrentIsTask(s);
    UnlinkCore(s, t);
    AddToDelayedCore(Unlink(s, t), t, ticks);
    var r := AddToDelayedList(Unlink(s, t), t, ticks);
    Overwrite(s.tcbs, t, s.tcbs[t].(place := Nowhere), r.tcbs[t]);
    RewrittenBase(s, t, r);
  }

  lemma EventsBase(s: State, onEvent: set<Task>)
    requires Base(s) && forall t :: t in onEvent ==> t in s.tcbs && t != s.idle && t !in s.pending
    ensures Base(s.(onEvent := onEvent))
  {
    hide Core, NoneDue, TasksOk, Linked, ReadyOk, DeadlinesOk, SortedLists;
    TasksFrame(s, s.(onEvent := onEvent));
    CoreFrameEvents(s, onEvent);
  }

  lemma TasksFrame(s: State, r: State)
    requires TasksOk(s) && NoneDue(s) && r == s.(onEvent := r.onEvent, pending := r.pending)
    ensures TasksOk(r) && NoneDue(r)
  {
  }

  lemma CoreFrameEvents(s: State, onEvent: set<Task>)
    requires Core(s)
    ensures Core(s.(onEvent := onEvent))
  {
    hide Linked, ReadyOk, DeadlinesOk, SortedLists;
    CoreFrame(s, s.(onEvent := onEvent));
  }

  // ---- waking ----

  lemma RemoveFromEventListInv(s: State, t: Task)
    requires Inv(s) && t in s.onEvent
    ensures Inv(RemoveFromEventList(s, t))
  {
    hide Base, MakeReady;
    WaiterFacts(s, t);
    var s1 := s.(onEvent := s.onEvent - {t});
    EventsBase(s, s1.onEvent);
    if s.suspended == 0 {
      MakeReadyBase(s1, t);
      BaseFrame(MakeReady(s1, t), RemoveFromEventList(s, t));
    } else {
      PendBase(s, t);
      BaseFrame(s1.(pending := s.pending + [t]), RemoveFromEventList(s, t));
    }
  }

  lemma WaiterFacts(s: State, t: Task)
    requires Base(s) && t in s.onEvent
    ensures t in s.tcbs && t !in s.pending && t != s.idle
    ensures forall u :: u in s.onEvent ==> u in s.tcbs && u != s.idle && u !in s.pending
  {
    hide Core, NoneDue, TasksOk;
  }

  lemma PendBase(s: State, t: Task)
    requires Base(s) && t in s.onEvent
    ensures Base(s.(onEvent := s.onEvent - {t}, pending := s.pending + [t]))
  {
    hide Linked, ReadyOk, DeadlinesOk, SortedLists, NoneDue, TasksOk;
    var r := s.(onEvent := s.onEvent - {t}, pending := s.pending + [t]);
    WaiterFacts(s, t);
    TasksFrame(s, r);
    CoreFrame(s, r);
    assert Distinct(r.pending);
  }

  lemma ResumeTaskInv(s: State, t: Task)
    requires Inv(s) && t in s.tcbs
    ensures Inv(ResumeTask(s, t))
  {
    hide Base, MakeReady, SwitchContext;
    if t != s.current && IsTaskSuspended(s, t) {
      MakeReadyBase(s, t);
      SwitchInv(MakeReady(s, t));
    }
  }

  // ---- creation and deletion ----

  lemma CreateTaskInv(s: State, t: Task, priority: nat)
    requires Inv(s) && t !in s.tcbs && priority < MAX_PRIORITIES
    ensures Inv(CreateTask(s, t, priority))
  {
    hide Base, AddToReadyList, SwitchContext;
    var s0 := s.(tcbs := s.tcbs[t := Tcb(priority, priority, 0, Nowhere)], numTasks := s.numTasks + 1);
    NewTaskBase(s, t, priority);
    SwitchInv(AddToReadyList(s0, t));
  }

  lemma NewTaskCore(s: State, t: Task, priority: nat)
    requires Core(s) && t !in s.tcbs && priority < MAX_PRIORITIES
    ensures Core(s.(tcbs := s.tcbs[t := Tcb(priority, priority, 0, Nowhere)], numTasks := s.numTasks + 1))
  {
    hide WakeOrder, Ring.Valid;
    var tcb := Tcb(priority, priority, 0, Nowhere);
    NewTaskOrder(s.tcbs, t, tcb, s.lists[Delayed(0)].items);
    NewTaskOrder(s.tcbs, t, tcb, s.lists[Delayed(1)].items);
  }

  lemma NewTaskOrder(tcbs: map<Task, Tcb>, t: Task, tcb: Tcb, items: seq<Task>)
    requires WakeOrder(tcbs, items) && t !in tcbs
    ensures WakeOrder(tcbs[t := tcb], items)
  {
  }

  lemma NewTaskBase(s: State, t: Task, priority: nat)
    requires Base(s) && t !in s.tcbs && priority < MAX_PRIORITIES
    ensures var r := AddToReadyList(s.(tcbs := s.tcbs[t := Tcb(priority, priority, 0, Nowhere)],
      numTasks := s.numTasks + 1), t);
      Base(r) && r == s.(tcbs := r.tcbs, lists := r.lists, topReady := r.topReady, numTasks := s.numTasks + 1)
  {
    hide Core, PositionFor;
    var tcb := Tcb(priority, priority, 0, Nowhere);
    var s0 := s.(tcbs := s.tcbs[t := tcb], numTasks := s.numTasks + 1);
    NewTaskCore(s, t, priority);
    AddToReadyCore(s0, t);
    Overwrite(s.tcbs, t, tcb, tcb.(place := Ready(priority)));
    NewTaskFrame(s, t, AddToReadyList(s0, t));
  }

  lemma NewTaskFrame(s: State, t: Task, r: State)
    requires Base(s) && t !in s.tcbs
    requires r == s.(tcbs := r.tcbs, lists := r.lists, topReady := r.topReady, numTasks := s.numTasks + 1)
    requires t in r.tcbs && r.tcbs[t].place.Ready? && r.tcbs == s.tcbs[t := r.tcbs[t]]
    ensures NoneDue(r) && EventsOk(r) && TasksOk(r)
  {
    hide Core;
    assert r.tcbs.Keys == s.tcbs.Keys + {t};
  }

  lemma ForgetBase(s: State, t: Task)
    requires Base(s) && t in s.tcbs && t != s.idle && t != s.current && t !in s.onEvent && t !in s.pending
    ensures Base(Forget(Unlink(s, t), t))
    ensures var r := Forget(Unlink(s, t), t); r == s.(tcbs := s.tcbs - {t}, lists := r.lists, numTasks := r.numTasks)
  {
    hide Core;
    CurrentIsTask(s);
    Placed(s, t);
    UnlinkCore(s, t);
    ForgetCore(Unlink(s, t), t);
    ForgetFrame(s, t, Forget(Unlink(s, t), t));
  }

  lemma ForgetCore(s: State, t: Task)
    requires Core(s) && t in s.tcbs && s.tcbs[t].place == Nowhere
    ensures Core(Forget(s, t))
  {
    hide TimesOk, WakeOrder, ReadyOk;
    ForgetTimes(s, t);
    assert forall k :: 0 <= k < 2 ==> t !in s.lists[Delayed(k)].items;
    ForgetOrder(s, t, s.lists[Delayed(0)].items);
    ForgetOrder(s, t, s.lists[Delayed(1)].items);
  }

  lemma ForgetTimes(s: State, t: Task)
    requires TimesOk(s) && ReadyOk(s)
    ensures TimesOk(Forget(s, t)) && ReadyOk(Forget(s, t))
  {
  }

  lemma ForgetOrder(s: State, t: Task, items: seq<Task>)
    requires WakeOrder(s.tcbs, items) && t !in items
    ensures WakeOrder(s.tcbs - {t}, items)
  {
  }

  lemma ForgetFrame(s: State, t: Task, r: State)
    requires Base(s) && t in s.tcbs && t != s.idle && t != s.current && t !in s.onEvent && t !in s.pending
    requires r == s.(tcbs := r.tcbs, lists := r.lists, numTasks := r.numTasks)
    requires s.numTasks > 0 ==> r.numTasks == s.numTasks - 1
    requires r.tcbs.Keys == s.tcbs.Keys - {t} && forall u :: u in r.tcbs ==> r.tcbs[u] == s.tcbs[u]
    ensures NoneDue(r) && EventsOk(r) && TasksOk(r)
  {
    hide Core;
  }

  lemma LeaveEventListsBase(s: State, t: Task)
    requires Base(s)
    ensures var r := LeaveEventLists(s, t);
      Base(r) && t !in r.onEvent && t !in r.pending && (s.pending == [] ==> r.pending == [])
  {
    hide Core, NoneDue, TasksOk;
    IdleIsTask(s);
    if t in s.pending {
      var ring := Ring(s.pending, -1);
      RemoveKeepsValid(ring, t);
      LeaveEventsBase(s, s.onEvent - {t}, ring.Remove(t).items);
    } else {
      WithoutAbsent(s.pending, t);
      LeaveEventsBase(s, s.onEvent - {t}, s.pending);
    }
  }

  /** Unlinking the state item and leaving the event lists do not interfere. */
  lemma LeaveCommutes(s: State, t: Task)
    ensures LeaveEventLists(Unlink(s, t), t) == Unlink(LeaveEventLists(s, t), t)
  {
  }

  lemma DeleteTaskInv(s: State, t: Task)
    requires Inv(s) && t in s.tcbs && t != s.idle
    ensures Inv(DeleteTask(s, t))
  {
    hide Base, Unlink, Link, SwitchContext, LeaveEventLists, Forget, HeadWake;
    LeaveCommutes(s, t);
    LeaveEventListsBase(s, t);
    LeaveKeeps(s, t);
    var s0 := LeaveEventLists(s, t);
    if t == s.current {
      MoveBase(s0, t, Termination);
      MoveCore(s0, t, Termination);
      SwitchInv(Link(Unlink(s0, t), t, Termination));
    } else {
      ForgetBase(s0, t);
      ResetBase(Forget(Unlink(s0, t), t));
    }
  }

  lemma LeaveKeeps(s: State, t: Task)
    ensures var r := LeaveEventLists(s, t); r == s.(onEvent := r.onEvent, pending := r.pending)
  {
  }

  lemma SuspendTaskInv(s: State, t: Task)
    requires Inv(s) && t in s.tcbs && t != s.idle
    ensures Inv(SuspendTask(s, t))
  {
    hide Base, Unlink, Link, SwitchContext, LeaveEventLists, HeadWake;
    LeaveCommutes(s, t);
    LeaveEventListsBase(s, t);
    LeaveKeeps(s, t);
    var s0 := LeaveEventLists(s, t);
    MoveBase(s0, t, Suspended);
    MoveCore(s0, t, Suspended);
    ResetBase(Link(Unlink(s0, t), t, Suspended));
    SwitchInv(ResetNextUnblock(Link(Unlink(s0, t), t, Suspended)));
  }

  /** The states in which suspending or deleting the running task, or resuming one, asks
      for a context switch. */
  lemma SuspendedBase(s: State, t: Task)
    requires Inv(s) && t in s.tcbs && t != s.idle
    ensures Base(ResetNextUnblock(Link(LeaveEventLists(Unlink(s, t), t), t, Suspended)))
  {
    hide Base, Unlink, Link, LeaveEventLists, HeadWake;
    LeaveCommutes(s, t);
    LeaveEventListsBase(s, t);
    LeaveKeeps(s, t);
    MoveBase(LeaveEventLists(s, t), t, Suspended);
    ResetBase(Link(Unlink(LeaveEventLists(s, t), t), t, Suspended));
  }

  lemma TerminatedBase(s: State, t: Task)
    requires Inv(s) && t in s.tcbs && t != s.idle
    ensures Base(Link(LeaveEventLists(Unlink(s, t), t), t, Termination))
  {
    hide Base, Unlink, Link, LeaveEventLists, HeadWake;
    LeaveCommutes(s, t);
    LeaveEventListsBase(s, t);
    LeaveKeeps(s, t);
    MoveBase(LeaveEventLists(s, t), t, Termination);
  }

  lemma CleanUpInv(s: State)
    requires Inv(s) && s.ListAt(Termination).items != []
    requires var t := s.ListAt(Termination).items[0]; t != s.current && t !in s.onEvent && t !in s.pending
    ensures Inv(CleanUpTask(s))
  {
    hide Base, Unlink, Forget;
    TerminatedFacts(s);
    ForgetBase(s, s.ListAt(Termination).items[0]);
  }

  lemma TerminatedFacts(s: State)
    requires Base(s) && s.ListAt(Termination).items != []
    ensures var t := s.ListAt(Termination).items[0]; t in s.tcbs && t != s.idle
  {
    hide TimesOk, SortedLists, ReadyOk, EventsOk, NoneDue;
    FirstMember(s.ListAt(Termination).items);
  }

  // ---- priorities ----

  lemma RepriorityCore(s: State, t: Task, tcb: Tcb)
    requires Core(s) && t in s.tcbs && tcb.priority < MAX_PRIORITIES && tcb.base < MAX_PRIORITIES
    requires tcb == s.tcbs[t].(priority := tcb.priority, base := tcb.base) && !tcb.place.Ready?
    ensures Core(SetTcb(s, t, tcb))
  {
    hide Core, Linked, ReadyOk, TimesOk, SortedLists;
    RepriorityLinked(s, t, tcb);
    RepriorityTimes(s, t, tcb);
    assert Core(SetTcb(s, t, tcb)) by { CoreParts(SetTcb(s, t, tcb)); }
  }

  lemma CoreParts(s: State)
    requires Linked(s) && ReadyOk(s) && TimesOk(s) && SortedLists(s)
    ensures Core(s)
  {
  }

  lemma RepriorityLinked(s: State, t: Task, tcb: Tcb)
    requires Core(s) && t in s.tcbs && tcb.priority < MAX_PRIORITIES && tcb.base < MAX_PRIORITIES
    requires tcb == s.tcbs[t].(priority := tcb.priority, base := tcb.base) && !tcb.place.Ready?
    ensures Linked(SetTcb(s, t, tcb)) && SortedLists(SetTcb(s, t, tcb))
  {
    hide WakeOrder, ReadyOk, TimesOk, Ring.Valid;
    RepriorityOrder(s.tcbs, t, tcb, s.lists[Delayed(0)].items);
    RepriorityOrder(s.tcbs, t, tcb, s.lists[Delayed(1)].items);
  }

  lemma RepriorityTimes(s: State, t: Task, tcb: Tcb)
    requires Core(s) && t in s.tcbs
    requires tcb == s.tcbs[t].(priority := tcb.priority, base := tcb.base) && !tcb.place.Ready?
    ensures ReadyOk(SetTcb(s, t, tcb)) && TimesOk(SetTcb(s, t, tcb))
  {
    hide Linked, SortedLists;
  }

  lemma RepriorityOrder(tcbs: map<Task, Tcb>, t: Task, tcb: Tcb, items: seq<Task>)
    requires WakeOrder(tcbs, items) && t in tcbs && tcb.wake == tcbs[t].wake
    ensures WakeOrder(tcbs[t := tcb], items)
  {
  }

  /** The TCB that vTaskPrioritySet leaves. */
  function Reprioritised(tcb: Tcb, priority: nat): Tcb {
    tcb.(base := priority, priority := if tcb.base == tcb.priority then priority else tcb.priority)
  }

  lemma PrioritySetBase(s: State, t: Task, tcb: Tcb)
    requires Base(s) && t in s.tcbs && tcb.priority < MAX_PRIORITIES && tcb.base < MAX_PRIORITIES
    requires tcb == s.tcbs[t].(priority := tcb.priority, base := tcb.base)
    ensures var r := Reprioritise(s, t, tcb);
      Base(r) && r == s.(tcbs := r.tcbs, lists := r.lists, topReady := r.topReady)
  {
    hide Core, NoneDue, TasksOk, PositionFor;
    Placed(s, t);
    ReadyPlace(s, t);
    if tcb.place.Ready? {
      var s1 := SetTcb(Unlink(s, t), t, tcb.(place := Nowhere));
      UnlinkCore(s, t);
      RepriorityCore(Unlink(s, t), t, tcb.(place := Nowhere));
      AddToReadyCore(s1, t);
      Overwrite(s.tcbs, t, s.tcbs[t].(place := Nowhere), tcb.(place := Nowhere));
      Overwrite(s.tcbs, t, tcb.(place := Nowhere), tcb.(place := Ready(tcb.priority)));
      RewrittenBase(s, t, AddToReadyList(s1, t));
    } else {
      RepriorityCore(s, t, tcb);
      NotOverdueTask(s, t);
      RewrittenBase(s, t, SetTcb(s, t, tcb));
    }
  }

  lemma ReadyPlace(s: State, t: Task)
    requires Core(s) && t in s.tcbs
    ensures s.tcbs[t].place.Ready? <==> s.tcbs[t].place == Ready(s.tcbs[t].priority)
  {
    hide Linked, TimesOk, SortedLists;
  }

  lemma NotOverdueTask(s: State, t: Task)
    requires NoneDue(s) && TasksOk(s) && t in s.tcbs
    ensures s.tcbs[t].place == s.DelayedList() ==> s.tick < s.tcbs[t].wake
    ensures t == s.idle ==> s.tcbs[t].place.Ready?
  {
  }

  lemma PrioritySetInv(s: State, t: Task, priority: nat)
    requires Inv(s) && t in s.tcbs && priority < MAX_PRIORITIES
    ensures Inv(PrioritySet(s, t, priority))
  {
    hide Base, Reprioritise, SwitchContext;
    TcbFacts(s, t);
    if s.tcbs[t].base != priority {
      var tcb := Reprioritised(s.tcbs[t], priority);
      PrioritySetBase(s, t, tcb);
      SwitchInv(Reprioritise(s, t, tcb));
    }
  }

  lemma TcbFacts(s: State, t: Task)
    requires Base(s) && t in s.tcbs
    ensures s.tcbs[t].priority < MAX_PRIORITIES && s.tcbs[t].base < MAX_PRIORITIES
    ensures s.tcbs[t].place.Ready? <==> s.tcbs[t].place == Ready(s.tcbs[t].priority)
  {
    hide TimesOk, SortedLists, EventsOk, NoneDue, TasksOk;
  }
}
