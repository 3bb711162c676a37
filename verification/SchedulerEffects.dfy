/** What each operation of tasks.c does to the task it is about, to every other task and to
    the processor. */
module SchedulerEffects {
  import opened Common
  import opened Rings
  import opened SchedulerState
  import opened SchedulerOps
  import opened SchedulerTicks
  import opened SchedulerSafety
  import opened SchedulerTasks

  /** t has moved to place p; every other control block is as it was. */
  ghost predicate Moved(s: State, r: State, t: Task, p: Place) {
    t in s.tcbs && r.tcbs == s.tcbs[t := s.tcbs[t].(place := p)]
  }

  ghost predicate SameTime(s: State, r: State) {
    && r.tick == s.tick && r.overflows == s.overflows && r.suspended == s.suspended
    && r.pendedTicks == s.pendedTicks && r.deadline == s.deadline && r.idle == s.idle
  }

  /** A context switch: a highest ready task runs, or with the scheduler suspended the yield
      is noted. */
  ghost predicate Switched(s: State, r: State) {
    if s.suspended > 0 then r.yieldPending && r.current == s.current else RunsHighest(r) && !r.yieldPending
  }

  ghost predicate Decides(s: State, r: State, asked: bool) {
    if asked then Switched(s, r) else r.current == s.current && r.yieldPending == s.yieldPending
  }

  lemma SwitchDecides(s: State)
    requires Base(s)
    ensures var r := SwitchContext(s);
      && Base(r) && Switched(s, r)
      && r == s.(yieldPending := r.yieldPending, topReady := r.topReady, lists := r.lists, current := r.current)
  {
    hide Base, TopNonEmpty, RunsHighest;
    if s.suspended == 0 { SwitchPicksHighest(s); } else { BaseFrame(s, SwitchContext(s)); }
  }

  lemma OnItsList(s: State, t: Task)
    requires Base(s) && t in s.tcbs
    ensures t in s.ListAt(s.tcbs[t].place).items
    ensures forall p :: IsList(p) && p != s.tcbs[t].place ==> t !in s.ListAt(p).items
  {
    hide ReadyOk, TimesOk, SortedLists, EventsOk, NoneDue;
  }

  // ---- waking ----

  /** An event wakes the task that waits for it: it is ready, or with the scheduler suspended
      the last of the pending tasks; a higher one asks for a yield. */
  lemma EventWakes(s: State, t: Task)
    requires Inv(s) && t in s.onEvent
    ensures var r := RemoveFromEventList(s, t);
      && SameTime(s, r) && r.current == s.current && r.onEvent == s.onEvent - {t} && t in s.tcbs
      && (r.yieldPending <==> s.yieldPending || s.tcbs[t].priority > s.TcbOf(s.current).priority)
      && if s.suspended == 0 then
           && Moved(s, r, t, Ready(s.tcbs[t].priority)) && r.pending == s.pending
           && t in r.ListAt(Ready(s.tcbs[t].priority)).items
         else r.pending == s.pending + [t] && r.tcbs == s.tcbs && r.lists == s.lists
  {
    hide Base, MakeReady;
    WaiterFacts(s, t);
    var s1 := s.(onEvent := s.onEvent - {t});
    EventsBase(s, s1.onEvent);
    if s.suspended == 0 {
      MakeReadyBase(s1, t);
      OnItsList(MakeReady(s1, t), t);
      CurrentIsTask(s);
    }
  }

  /** A task that becomes ready is visited after every other task of its list, except the
      one whose turn it is, which is visited last of all. */
  lemma ReadyComesLast(s: State, t: Task)
    requires Base(s) && t in s.tcbs && !s.tcbs[t].place.Ready?
    ensures var p := Ready(s.tcbs[t].priority);
      var (before, after) := (s.ListAt(p), MakeReady(s, t).ListAt(p));
      && before.Valid() && t !in before.items && after == before.InsertEnd(t)
  {
    hide TimesOk, SortedLists, EventsOk, NoneDue, Ring.Remove, Ring.InsertAt;
  }

  lemma ResumeWakes(s: State, t: Task)
    requires Inv(s) && t in s.tcbs
    ensures var r := ResumeTask(s, t);
      var (me, running) := (s.tcbs[t], s.TcbOf(s.current));
      if t != s.current && me.place == Suspended && t !in s.pending && t !in s.onEvent then
        && SameTime(s, r) && Moved(s, r, t, Ready(me.priority)) && r.onEvent == s.onEvent && r.pending == s.pending
        && Decides(s, r, me.priority >= running.priority)
      else r == s
  {
    hide Base, MakeReady, SwitchContext, RunsHighest;
    if t != s.current && IsTaskSuspended(s, t) {
      MakeReadyBase(s, t);
      SwitchDecides(MakeReady(s, t));
    }
  }

  // ---- creation, suspension, deletion ----

  lemma CreatesTask(s: State, t: Task, priority: nat)
    requires Inv(s) && t !in s.tcbs && priority < MAX_PRIORITIES
    ensures var r := CreateTask(s, t, priority);
      && SameTime(s, r) && r.onEvent == s.onEvent && r.pending == s.pending && r.numTasks == s.numTasks + 1
      && t in r.tcbs && r.tcbs[t].priority == r.tcbs[t].base == priority && r.tcbs[t].place == Ready(priority)
      && r.tcbs == s.tcbs[t := r.tcbs[t]]
      && Decides(s, r, s.TcbOf(s.current).priority < priority)
  {
    hide Base, AddToReadyList, SwitchContext, RunsHighest;
    var s0 := s.(tcbs := s.tcbs[t := Tcb(priority, priority, 0, Nowhere)], numTasks := s.numTasks + 1);
    NewTaskBase(s, t, priority);
    NewTaskTcbs(s, t, priority);
    SwitchDecides(AddToReadyList(s0, t));
  }

  lemma NewTaskTcbs(s: State, t: Task, priority: nat)
    requires Base(s) && t !in s.tcbs && priority < MAX_PRIORITIES
    ensures var s0 := s.(tcbs := s.tcbs[t := Tcb(priority, priority, 0, Nowhere)], numTasks := s.numTasks + 1);
      AddToReadyList(s0, t).tcbs == s.tcbs[t := Tcb(priority, priority, 0, Ready(priority))]
  {
    hide Core, PositionFor;
    var tcb := Tcb(priority, priority, 0, Nowhere);
    NewTaskCore(s, t, priority);
    AddToReadyCore(s.(tcbs := s.tcbs[t := tcb], numTasks := s.numTasks + 1), t);
    Overwrite(s.tcbs, t, tcb, tcb.(place := Ready(priority)));
  }

  lemma WithoutOut(s: State, t: Task)
    requires Base(s)
    ensures var r := LeaveEventLists(s, t);
      && t !in r.pending && t !in r.onEvent
      && (forall u :: u != t ==> (u in r.onEvent <==> u in s.onEvent) && (u in r.pending <==> u in s.pending))
  {
    hide Core, NoneDue, TasksOk;
    if t in s.pending {
      RemoveKeepsValid(Ring(s.pending, -1), t);
    } else {
      WithoutAbsent(s.pending, t);
    }
  }

  /** The task has left the lists of events and of pending tasks, and no other has. */
  ghost predicate LeftEvents(s: State, r: State, t: Task) {
    && t !in r.pending && t !in r.onEvent
    && (forall u :: u != t ==> (u in r.onEvent <==> u in s.onEvent) && (u in r.pending <==> u in s.pending))
  }

  lemma SuspendsTask(s: State, t: Task)
    requires Inv(s) && t in s.tcbs && t != s.idle
    ensures var r := SuspendTask(s, t);
      && SameTime(s, r) && Moved(s, r, t, Suspended) && LeftEvents(s, r, t) && r.numTasks == s.numTasks
      && Decides(s, r, t == s.current)
  {
    hide Base, Unlink, Link, SwitchContext, LeaveEventLists, HeadWake, RunsHighest;
    LeaveCommutes(s, t);
    LeaveEventListsBase(s, t);
    LeaveKeeps(s, t);
    WithoutOut(s, t);
    var s0 := LeaveEventLists(s, t);
    MoveBase(s0, t, Suspended);
    MoveCore(s0, t, Suspended);
    var s1 := Link(Unlink(s0, t), t, Suspended);
    ResetBase(s1);
    ResetKeeps(s1);
    SwitchDecides(ResetNextUnblock(s1));
  }

  lemma DeletesTask(s: State, t: Task)
    requires Inv(s) && t in s.tcbs && t != s.idle
    ensures var r := DeleteTask(s, t);
      && SameTime(s, r) && LeftEvents(s, r, t) && Decides(s, r, t == s.current)
      && if t == s.current then Moved(s, r, t, Termination) && r.numTasks == s.numTasks
         else r.tcbs == s.tcbs - {t} && r.numTasks == s.numTasks - 1
  {
    hide Base, Unlink, Link, SwitchContext, LeaveEventLists, Forget, HeadWake, RunsHighest;
    LeaveCommutes(s, t);
    LeaveEventListsBase(s, t);
    LeaveKeeps(s, t);
    WithoutOut(s, t);
    var s0 := LeaveEventLists(s, t);
    if t == s.current {
      MoveBase(s0, t, Termination);
      MoveCore(s0, t, Termination);
      SwitchDecides(Link(Unlink(s0, t), t, Termination));
    } else {
      ForgetBase(s0, t);
      ForgetCount(s0, t);
      ResetKeeps(Forget(Unlink(s0, t), t));
    }
  }

  lemma ForgetCount(s: State, t: Task)
    requires Base(s) && t in s.tcbs
    ensures s.numTasks > 0 && Forget(Unlink(s, t), t).numTasks == s.numTasks - 1
  {
    hide Core, NoneDue, EventsOk;
    assert t in s.tcbs.Keys;
  }

  /** The idle task frees the task at the head of the termination list, and nothing else. */
  lemma CleansUp(s: State)
    requires Inv(s) && s.ListAt(Termination).items != []
    requires var t := s.ListAt(Termination).items[0]; t != s.current && t !in s.onEvent && t !in s.pending
    ensures var (r, t) := (CleanUpTask(s), s.ListAt(Termination).items[0]);
      && SameTime(s, r) && r.tcbs == s.tcbs - {t} && r.numTasks == s.numTasks - 1
      && Decides(s, r, false) && r.onEvent == s.onEvent && r.pending == s.pending
  {
    hide Base, Unlink, Forget;
    TerminatedFacts(s);
    ForgetBase(s, s.ListAt(Termination).items[0]);
    ForgetCount(s, s.ListAt(Termination).items[0]);
  }

  // ---- priorities ----

  /** The place of a task with the new control block. */
  function PlaceFor(tcb: Tcb): Place {
    if tcb.place.Ready? then Ready(tcb.priority) else tcb.place
  }

  /** The base priority is the new one, the priority too unless it is inherited; a ready task
      is on the list of its priority, any other stays where it is. A yield is asked for if
      another task is raised to the running one's priority or above, or the running task is
      lowered. */
  lemma SetsPriority(s: State, t: Task, priority: nat)
    requires Inv(s) && t in s.tcbs && priority < MAX_PRIORITIES
    ensures var (r, tcb) := (PrioritySet(s, t, priority), s.tcbs[t]);
      && SameTime(s, r) && r.onEvent == s.onEvent && r.pending == s.pending && t in r.tcbs
      && r.tcbs == s.tcbs[t := r.tcbs[t]] && r.tcbs[t].base == priority && r.tcbs[t].place == PlaceFor(r.tcbs[t])
      && (r.tcbs[t].place.Ready? <==> tcb.place.Ready?) && (!tcb.place.Ready? ==> r.tcbs[t].place == tcb.place)
      && r.tcbs[t].priority == (if tcb.priority == tcb.base then priority else tcb.priority)
      && Decides(s, r,
           || (t != s.current && priority > tcb.base && priority >= s.TcbOf(s.current).priority)
           || (t == s.current && priority < tcb.base))
  {
    hide Base, Reprioritise, SwitchContext, RunsHighest;
    TcbFacts(s, t);
    if s.tcbs[t].base != priority {
      var tcb := Reprioritised(s.tcbs[t], priority);
      PrioritySetBase(s, t, tcb);
      ReprioritisedAre(s, t, tcb);
      SwitchDecides(Reprioritise(s, t, tcb));
    } else {
      assert s.tcbs[t := s.tcbs[t]] == s.tcbs;
    }
  }

  lemma ReprioritisedAre(s: State, t: Task, tcb: Tcb)
    requires Base(s) && t in s.tcbs && tcb == s.tcbs[t].(priority := tcb.priority, base := tcb.base)
    ensures Reprioritise(s, t, tcb).tcbs == s.tcbs[t := tcb.(place := PlaceFor(tcb))]
  {
    hide Base, PositionFor, Ring.Remove, Ring.InsertAt;
    TcbFacts(s, t);
    if tcb.place.Ready? {
      var (m, gone, here) := (s.tcbs, s.tcbs[t].(place := Nowhere), tcb.(place := Nowhere));
      Overwrite(m, t, gone, here);
      Overwrite(m, t, here, tcb.(place := Ready(tcb.priority)));
    } else {
      assert tcb.(place := PlaceFor(tcb)) == tcb;
    }
  }

  // ---- the tick and xNextTaskUnblockTime ----

  /** While the scheduler is suspended a tick is only counted; it still asks for a switch if a
      yield is pending. */
  lemma SuspendedTick(s: State)
    requires s.suspended > 0
    ensures var r := IncrementTick(s);
      r.state == s.(pendedTicks := s.pendedTicks + 1) && (r.switchRequired <==> s.yieldPending)
  {
  }

  /** A switch leaves the head of the delayed list alone. */
  lemma SwitchKeepsHead(s: State)
    ensures HeadWake(SwitchContext(s)) == HeadWake(s) && SwitchContext(s).nextUnblock == s.nextUnblock
  {
    hide TopNonEmpty, Ring.Next;
  }

  /** After a task has been taken off its list the next unblock time is that of the first
      task still delayed. */
  lemma UnblockTimeIsReset(s: State, t: Task)
    ensures var r := SuspendTask(s, t); r.nextUnblock == HeadWake(r)
    ensures t != s.current ==> var r := DeleteTask(s, t); r.nextUnblock == HeadWake(r)
    ensures s.pending != [] ==> var r := Resumed(s); r.nextUnblock == HeadWake(r)
  {
    hide Link, Unlink, LeaveEventLists, SwitchContext, DrainPending, Forget;
    forall u: State ensures HeadWake(SwitchContext(u)) == HeadWake(u) && SwitchContext(u).nextUnblock == u.nextUnblock {
      SwitchKeepsHead(u);
    }
  }

  // ---- xTaskResumeAll ----

  /** A pending task may preempt the running one. */
  ghost predicate PendingAbove(s: State) {
    exists t :: t in s.pending && s.TcbOf(t).priority >= s.TcbOf(s.current).priority
  }

  /** Moving the pending tasks asks for a yield exactly if one of them has at least the
      running priority, or a yield was pending. */
  lemma {:induction false} DrainYields(s: State)
    requires Base(s)
    ensures DrainPending(s).yieldPending <==> s.yieldPending || PendingAbove(s)
    decreases |s.pending|
  {
    hide Base, DrainStep;
    if s.pending != [] {
      DrainOne(s);
      DrainYields(DrainStep(s));
      DrainStepYields(s);
      SamePriorities(s, DrainStep(s));
    }
  }

  /** Pending tasks go to their ready lists in the order in which they became pending: with one
      more at the end, it goes last. */
  lemma {:induction false} DrainsInOrder(s: State, t: Task)
    ensures DrainPending(s.(pending := s.pending + [t])).lists == MakeReady(DrainPending(s), t).lists
    ensures DrainPending(s.(pending := s.pending + [t])).tcbs == MakeReady(DrainPending(s), t).tcbs
    decreases |s.pending|
  {
    hide MakeReady;
    var more := s.(pending := s.pending + [t]);
    if s.pending == [] {
      assert more.pending[1..] == [];
      DrainOnly(more);
      MakeReadyLists(s, s.(pending := []), t);
    } else {
      assert more.pending[1..] == s.pending[1..] + [t];
      DrainStepPending(s, t);
      DrainsInOrder(DrainStep(s), t);
    }
  }

  lemma DrainOnly(s: State)
    requires |s.pending| == 1
    ensures DrainPending(s) == DrainStep(s)
    ensures var r := MakeReady(s.(pending := []), s.pending[0]);
      DrainStep(s).lists == r.lists && DrainStep(s).tcbs == r.tcbs
  {
    hide PositionFor, Ring.Remove, Ring.InsertAt;
    assert s.pending[1..] == [];
  }

  /** The pending tasks are no part of what making a task ready looks at. */
  lemma MakeReadyLists(s: State, r: State, t: Task)
    requires r == s.(pending := r.pending)
    ensures MakeReady(r, t) == MakeReady(s, t).(pending := r.pending)
  {
    hide Ring.Remove, Ring.InsertAt, InsertPos;
    var (u, v) := (Unlink(s, t), Unlink(r, t));
    assert forall p :: Wakes(v, p) == Wakes(u, p);
  }

  lemma DrainStepPending(s: State, t: Task)
    requires s.pending != []
    ensures DrainStep(s.(pending := s.pending + [t])) == DrainStep(s).(pending := s.pending[1..] + [t])
    ensures DrainStep(s).pending == s.pending[1..]
  {
    hide MakeReady;
    var more := s.(pending := s.pending + [t]);
    assert more.pending[1..] == s.pending[1..] + [t];
    MakeReadyLists(s, s.(pending := s.pending[1..]), s.pending[0]);
    MakeReadyLists(s, more.(pending := more.pending[1..]), s.pending[0]);
  }

  lemma DrainStepYields(s: State)
    requires s.pending != []
    ensures DrainStep(s).yieldPending <==>
      s.yieldPending || s.TcbOf(s.pending[0]).priority >= s.TcbOf(s.current).priority
  {
    hide PositionFor, Ring.Remove, Ring.InsertAt;
  }

  lemma SamePriorities(s: State, r: State)
    requires s.pending != [] && s.pending[0] in s.tcbs && r.current == s.current && r.pending == s.pending[1..]
    requires var t := s.pending[0]; r.tcbs == s.tcbs[t := s.tcbs[t].(place := Ready(s.tcbs[t].priority))]
    ensures PendingAbove(s) <==>
      s.TcbOf(s.pending[0]).priority >= s.TcbOf(s.current).priority || PendingAbove(r)
  {
    assert forall t :: t in s.pending <==> t == s.pending[0] || t in s.pending[1..];
    assert forall t :: r.TcbOf(t).priority == s.TcbOf(t).priority;
  }

  lemma {:induction false} TicksKeepYield(s: State, n: nat)
    requires Base(s) && s.suspended == 0 && s.pending == [] && s.yieldPending
    ensures ProcessTicks(s, n).yieldPending
    decreases n
  {
    hide Base, ProcessTick;
    if n > 0 {
      TickWakesOnTime(s);
      var r := ProcessTick(s);
      var s1 := r.state.(yieldPending := r.state.yieldPending || r.switchRequired);
      BaseFrame(r.state, s1);
      TicksKeepYield(s1, n - 1);
    }
  }

  /** When the last suspension ends no yield stays pending: if one was, or a task that became
      ready meanwhile has at least the running priority, a highest ready task runs. */
  lemma ResumeYields(s: State)
    requires Inv(s) && s.suspended > 0
    ensures var r := ResumeAll(s);
      && r.suspended == s.suspended - 1
      && (s.suspended > 1 ==> r == s.(suspended := r.suspended))
      && (s.suspended == 1 ==> r.pending == [] && r.pendedTicks == 0 && !r.yieldPending)
      && (s.suspended == 1 && (s.yieldPending || PendingAbove(s)) ==> CaughtUp(s).yieldPending)
      && (s.suspended == 1 && CaughtUp(s).yieldPending ==> RunsHighest(r))
  {
    hide Base, ProcessTicks, SwitchContext, RunsHighest, PendingAbove, Resumed;
    SomeTask(s);
    if s.suspended == 1 {
      CaughtUpInv(s);
      SwitchDecides(CaughtUp(s));
      ResumedBase(s);
      ResumedYields(s);
      TicksBase(Resumed(s), s.pendedTicks);
      if s.yieldPending || PendingAbove(s) { TicksKeepYield(Resumed(s), s.pendedTicks); }
    }
  }

  lemma ResumedYields(s: State)
    requires Base(s)
    ensures Resumed(s).yieldPending <==> s.yieldPending || PendingAbove(s)
  {
    hide Base, DrainPending, HeadWake;
    BaseFrame(s, s.(suspended := 0));
    DrainYields(s.(suspended := 0));
    SamePending(s, s.(suspended := 0));
  }

  lemma SamePending(s: State, r: State)
    requires r.tcbs == s.tcbs && r.current == s.current && r.pending == s.pending
    ensures PendingAbove(r) <==> PendingAbove(s)
  {
    assert forall t :: r.TcbOf(t) == s.TcbOf(t);
  }
}
