/** tasks.c: the kernel's file-scope variables as fields, its loops as loops. Every
    method is the operation of the same name in module SchedulerOps. */
module Schedulers {
  import opened Common
  import opened Rings
  import opened SchedulerState
  import opened SchedulerOps
  import opened SchedulerTicks
  import opened SchedulerSafety
  import opened SchedulerTasks
  import opened SchedulerRuns
  import opened SchedulerTheorems
  import opened SchedulerEffects

  class Scheduler {
    var tcbs: map<Task, Tcb>
    var lists: map<Place, Ring<Task>>
    var pxDelayedTaskList: nat
    var xPendingReadyList: seq<Task>
    var onEvent: set<Task>
    var pxCurrentTCB: Task
    var xIdleTaskHandle: Task
    var xTickCount: nat
    var xNextTaskUnblockTime: nat
    var uxSchedulerSuspended: nat
    var uxPendedTicks: nat
    var xYieldPending: bool
    var uxTopReadyPriority: nat
    var uxCurrentNumberOfTasks: nat
    var xNumOfOverflows: nat
    ghost var deadline: map<Task, nat>
    ghost var interrupts: nat

    ghost function Abs(): State
      reads this
    {
      State(tcbs, lists, pxDelayedTaskList, xPendingReadyList, onEvent, pxCurrentTCB, xIdleTaskHandle, xTickCount,
        xNextTaskUnblockTime, uxSchedulerSuspended, uxPendedTicks, xYieldPending, uxTopReadyPriority,
        uxCurrentNumberOfTasks, xNumOfOverflows, deadline, interrupts)
    }

    function TcbOf(t: Task): Tcb
      reads this
    {
      if t in tcbs then tcbs[t] else Tcb(0, 0, 0, Nowhere)
    }

    function ListAt(p: Place): Ring<Task>
      reads this
    {
      if p in lists then lists[p] else Ring([], -1)
    }

    function WakesOn(p: Place): (v: seq<nat>)
      reads this
    {
      seq(|ListAt(p).items|, i requires 0 <= i < |ListAt(p).items| reads this => TcbOf(ListAt(p).items[i]).wake)
    }

    // ---- list moves ----

    method ListRemove(t: Task)
      modifies this
      ensures Abs() == Unlink(old(Abs()), t)
    {
      var p := TcbOf(t).place;
      lists := lists[p := ListAt(p).Remove(t)];
      tcbs := tcbs[t := TcbOf(t).(place := Nowhere)];
    }

    method ListInsert(t: Task, p: Place)
      modifies this
      ensures Abs() == Link(old(Abs()), t, p)
    {
      var ring, pos := ListAt(p), 0;
      if p.Delayed? {
        pos := InsertPos(WakesOn(p), TcbOf(t).wake);
        assert WakesOn(p) == Wakes(Abs(), p);
      } else {
        pos := if 0 <= ring.index < |ring.items| then ring.index else |ring.items|;
      }
      lists := lists[p := ring.InsertAt(pos, t)];
      tcbs := tcbs[t := TcbOf(t).(place := p)];
    }

    /** prvAddTaskToReadyList: a task that was on no list is on the ready list of its
        priority, which uxTopReadyPriority covers, and all lists are well formed again. */
    method AddTaskToReadyList(t: Task)
      modifies this
      ensures Abs() == AddToReadyList(old(Abs()), t)
      ensures t in old(tcbs) && old(Core(Abs())) && old(TcbOf(t)).place == Nowhere ==>
        Core(Abs()) && t in ListAt(Ready(TcbOf(t).priority)).items && TcbOf(t).priority <= uxTopReadyPriority
    {
      hide Core, Link;
      if t in tcbs && Core(Abs()) && TcbOf(t).place == Nowhere {
        AddToReadyCore(Abs(), t);
        OnReadyList(AddToReadyList(Abs(), t), t);
      }
      var priority := TcbOf(t).priority;
      if priority > uxTopReadyPriority {
        uxTopReadyPriority := priority;
      }
      ListInsert(t, Ready(priority));
    }

    lemma OnReadyList(s: State, t: Task)
      requires Core(s) && t in s.tcbs && s.tcbs[t].place == Ready(s.tcbs[t].priority)
      ensures t in s.ListAt(Ready(s.tcbs[t].priority)).items && s.tcbs[t].priority <= s.topReady
    {
      hide TimesOk, SortedLists;
    }

    method ResetNextTaskUnblockTime()
      modifies this`xNextTaskUnblockTime
      ensures Abs() == ResetNextUnblock(old(Abs()))
    {
      var items := ListAt(Delayed(pxDelayedTaskList)).items;
      xNextTaskUnblockTime := if items == [] then MAX_DELAY else TcbOf(items[0]).wake;
    }

    // ---- the tick ----

    method UnblockTask(t: Task)
      modifies this
      ensures Abs() == Unblock(old(Abs()), t)
    {
      onEvent := onEvent - {t};
      ListRemove(t);
      AddTaskToReadyList(t);
    }

    /** The increment at the head of xTaskIncrementTick: absolute time goes on by one, and
        afterwards exactly the tasks whose deadline it has reached are due, across the swap
        of the lists when the count wraps. */
    method AdvanceTickCount()
      modifies this
      ensures Abs() == AdvanceTick(old(Abs()))
      ensures old(Base(Abs())) ==>
        && Core(Abs()) && Abs().Now() == old(Abs().Now()) + 1
        && forall t :: t in tcbs && tcbs[t].place.Delayed? ==>
          t in deadline && (Due(Abs(), t) <==> deadline[t] == Abs().Now())
    {
      hide Core, NoneDue, Due, NotOverdue, EventsOk, TasksOk, HeadWake, Base;
      if Base(Abs()) { AdvancesTime(Abs()); }
      if xTickCount + 1 < TICK_MODULUS {
        xTickCount := xTickCount + 1;
      } else {
        xTickCount := 0;
        pxDelayedTaskList := if pxDelayedTaskList == 0 then 1 else 0;
        xNumOfOverflows := xNumOfOverflows + 1;
        ResetNextTaskUnblockTime();
      }
    }

    lemma AdvancesTime(s: State)
      requires Base(s)
      ensures var r := AdvanceTick(s);
        && Core(r) && r.Now() == s.Now() + 1 && r.tcbs == s.tcbs && r.deadline == s.deadline
        && forall t :: t in s.tcbs && s.tcbs[t].place.Delayed? ==>
          t in s.deadline && (Due(r, t) <==> s.deadline[t] == r.Now())
    {
      hide Core, NoneDue, Due, NotOverdue, EventsOk, TasksOk, HeadWake;
      AdvanceCore(s);
    }

    /** The unblocking loop of xTaskIncrementTick. */
    method UnblockDueTasks() returns (switchRequired: bool)
      requires LoopReady(Abs())
      modifies this
      ensures TickResult(Abs(), switchRequired) == UnblockIfDue(old(Abs()))
    {
      hide LoopReady, Unblock, AddToReadyList;
      switchRequired := false;
      if xTickCount >= xNextTaskUnblockTime {
        ghost var n := |ListAt(Delayed(pxDelayedTaskList)).items|;
        while true
          invariant LoopReady(Abs()) && n == |Abs().ListAt(Abs().DelayedList()).items|
          invariant UnblockDue(Abs(), n, switchRequired) == UnblockIfDue(old(Abs()))
          decreases n
        {
          var items := ListAt(Delayed(pxDelayedTaskList)).items;
          assert items == Abs().ListAt(Abs().DelayedList()).items;
          if items == [] || xTickCount < TcbOf(items[0]).wake {
            ResetNextTaskUnblockTime();
            break;
          }
          HeadDue(Abs());
          UnblockOne(Abs(), items[0]);
          switchRequired := switchRequired || TcbOf(items[0]).priority >= TcbOf(pxCurrentTCB).priority;
          UnblockTask(items[0]);
          n := n - 1;
        }
      }
    }

    /** xTaskIncrementTick. */
    method IncrementTick() returns (switchRequired: bool)
      requires Base(Abs()) && (uxSchedulerSuspended == 0 ==> xPendingReadyList == [])
      modifies this
      ensures TickResult(Abs(), switchRequired) == SchedulerOps.IncrementTick(old(Abs()))
    {
      hide Base, Core, Due, LoopReady, AdvanceTick, UnblockIfDue, Unsuspended;
      if uxSchedulerSuspended == 0 {
        AdvanceLoopReady(Abs());
        AdvanceFrame(Abs());
        AdvanceTickCount();
        UnblockFrame(Abs());
        switchRequired := UnblockDueTasks();
        if |ListAt(Ready(TcbOf(pxCurrentTCB).priority)).items| > 1 {
          switchRequired := true;
        }
      } else {
        uxPendedTicks := uxPendedTicks + 1;
        switchRequired := false;
      }
      if xYieldPending {
        switchRequired := true;
      }
    }

    // ---- context switches ----

    /** taskSELECT_HIGHEST_PRIORITY_TASK: the idle task keeps some ready list non-empty. */
    method SelectHighestPriorityTask()
      requires Base(Abs()) && uxSchedulerSuspended == 0
      modifies this
      ensures Abs() == SchedulerOps.SwitchContext(old(Abs())).(yieldPending := xYieldPending)
        && xYieldPending == old(xYieldPending)
    {
      hide Base;
      TopIsHighest(Abs());
      var uxTopPriority := uxTopReadyPriority;
      while ListAt(Ready(uxTopPriority)).items == []
        invariant TopNonEmpty(Abs(), uxTopPriority) == TopNonEmpty(Abs(), uxTopReadyPriority)
        decreases uxTopPriority
      {
        uxTopPriority := uxTopPriority - 1;
      }
      var ring := ListAt(Ready(uxTopPriority)).Next();
      lists := lists[Ready(uxTopPriority) := ring];
      pxCurrentTCB := ring.Current();
      uxTopReadyPriority := uxTopPriority;
    }

    /** vTaskSwitchContext. */
    method SwitchContext()
      requires Base(Abs())
      modifies this
      ensures Abs() == SchedulerOps.SwitchContext(old(Abs()))
    {
      hide Base, TopNonEmpty;
      if uxSchedulerSuspended > 0 {
        xYieldPending := true;
      } else {
        SelectHighestPriorityTask();
        xYieldPending := false;
      }
    }

    /** vTaskSuspendAll. */
    method SuspendAll()
      modifies this`uxSchedulerSuspended
      ensures Abs() == SchedulerOps.SuspendAll(old(Abs()))
    {
      uxSchedulerSuspended := uxSchedulerSuspended + 1;
    }

    /** The first loop of xTaskResumeAll. */
    method MovePendingTasks()
      requires Base(Abs())
      modifies this
      ensures Abs() == DrainPending(old(Abs()))
    {
      hide Base, MakeReady;
      while xPendingReadyList != []
        invariant Base(Abs()) && DrainPending(Abs()) == DrainPending(old(Abs()))
        decreases |xPendingReadyList|
      {
        DrainOne(Abs());
        ghost var s := Abs();
        var t := xPendingReadyList[0];
        var above := TcbOf(t).priority >= TcbOf(pxCurrentTCB).priority;
        xPendingReadyList := xPendingReadyList[1..];
        MoveToReadyList(t);
        if above {
          xYieldPending := true;
        }
        assert Abs() == DrainStep(s);
      }
    }

    method MoveToReadyList(t: Task)
      modifies this
      ensures Abs() == MakeReady(old(Abs()), t)
    {
      ListRemove(t);
      AddTaskToReadyList(t);
    }

    /** The second loop of xTaskResumeAll; uxPendedTicks is cleared at its end only. */
    method ProcessPendedTicks()
      requires Base(Abs()) && uxSchedulerSuspended == 0 && xPendingReadyList == []
      modifies this
      ensures Abs() == ProcessTicks(old(Abs()), old(uxPendedTicks)).(pendedTicks := 0)
    {
      hide Base, ProcessTick;
      var uxPendedCounts := uxPendedTicks;
      while uxPendedCounts > 0
        invariant Base(Abs()) && uxSchedulerSuspended == 0 && xPendingReadyList == []
        invariant ProcessTicks(Abs(), uxPendedCounts) == ProcessTicks(old(Abs()), old(uxPendedTicks))
      {
        ghost var s := Abs();
        TickWakesOnTime(s);
        var switchRequired := IncrementTick();
        ghost var r := Abs();
        if switchRequired {
          xYieldPending := true;
        }
        BaseFrame(r, Abs());
        uxPendedCounts := uxPendedCounts - 1;
      }
      uxPendedTicks := 0;
    }

    /** xTaskResumeAll. */
    method ResumeAll() returns (alreadyYielded: bool)
      requires Inv(Abs()) && uxSchedulerSuspended > 0
      modifies this
      ensures Abs() == SchedulerOps.ResumeAll(old(Abs())) && Inv(Abs())
      ensures alreadyYielded == (old(uxSchedulerSuspended) == 1 && CaughtUp(old(Abs())).yieldPending)
      ensures uxSchedulerSuspended == old(uxSchedulerSuspended) - 1
      ensures uxSchedulerSuspended == 0 ==>
        && xPendingReadyList == [] && uxPendedTicks == 0 && !xYieldPending
        && (old(xYieldPending || PendingAbove(Abs())) ==> alreadyYielded)
        && (alreadyYielded ==> RunsHighest(Abs()))
    {
      hide Base, DrainPending, ProcessTicks, HeadWake, SchedulerOps.SwitchContext, RunsHighest, PendingAbove;
      ghost var s := Abs();
      ResumeAllInv(s);
      ResumeYields(s);
      SomeTask(s);
      alreadyYielded := false;
      uxSchedulerSuspended := uxSchedulerSuspended - 1;
      if uxSchedulerSuspended == 0 && uxCurrentNumberOfTasks > 0 {
        BaseFrame(s, Abs());
        var moved := xPendingReadyList != [];
        MovePendingTasks();
        if moved {
          ResetNextTaskUnblockTime();
        }
        ResumedBase(s);
        ResumedKeeps(s);
        CaughtUpInv(s);
        ProcessPendedTicks();
        if xYieldPending {
          alreadyYielded := true;
          SwitchContext();
        }
      }
    }

    // ---- blocking and waking ----

    /** prvAddCurrentTaskToDelayedList: the lists stay right, and unless it waits without a
        time limit the running task sleeps until xTicksToWait from now. */
    method AddCurrentTaskToDelayedList(xTicksToWait: nat, xCanBlockIndefinitely: bool)
      modifies this
      ensures Abs() == DelayCurrent(old(Abs()), xTicksToWait, xCanBlockIndefinitely)
      ensures old(Base(Abs()) && pxCurrentTCB != xIdleTaskHandle) && 0 < xTicksToWait < TICK_MODULUS ==>
        && Base(Abs()) && Abs().Now() == old(Abs().Now())
        && (pxCurrentTCB !in xPendingReadyList && !(xTicksToWait == MAX_DELAY && xCanBlockIndefinitely) ==>
             Sleeping(Abs(), pxCurrentTCB, Abs().Now() + xTicksToWait))
    {
      hide Base, Sleeping, DelayCurrent;
      ghost var s := Abs();
      if Base(s) && pxCurrentTCB != xIdleTaskHandle && 0 < xTicksToWait < TICK_MODULUS {
        DelaySleeps(s, xTicksToWait, xCanBlockIndefinitely);
      }
      DelayBody(xTicksToWait, xCanBlockIndefinitely);
    }

    /** The body of prvAddCurrentTaskToDelayedList. */
    method DelayBody(xTicksToWait: nat, xCanBlockIndefinitely: bool)
      modifies this
      ensures Abs() == DelayCurrent(old(Abs()), xTicksToWait, xCanBlockIndefinitely)
    {
      hide Link, Unlink, AddToDelayedList;
      var t := pxCurrentTCB;
      ListRemove(t);
      UnlinkKeeps(old(Abs()), t);
      if xTicksToWait == MAX_DELAY && xCanBlockIndefinitely {
        ListInsert(t, Suspended);
      } else {
        AddToTimedList(t, xTicksToWait);
      }
    }

    lemma UnlinkKeeps(s: State, t: Task)
      ensures Unlink(s, t).current == s.current
    {
    }

    /** Its timed half, for a task already off its list. */
    method AddToTimedList(t: Task, xTicksToWait: nat)
      modifies this
      ensures Abs() == AddToDelayedList(old(Abs()), t, xTicksToWait)
    {
      hide Link;
      var xTimeToWake := WakeTime(xTickCount, xTicksToWait);
      deadline := deadline[t := Abs().Now() + xTicksToWait];
      tcbs := tcbs[t := TcbOf(t).(wake := xTimeToWake)];
      if xTimeToWake < xTickCount {
        ListInsert(t, Delayed(if pxDelayedTaskList == 0 then 1 else 0));
      } else {
        if xTimeToWake < xNextTaskUnblockTime {
          xNextTaskUnblockTime := xTimeToWake;
        }
        ListInsert(t, Delayed(pxDelayedTaskList));
      }
    }

    /** vTaskPlaceOnEventList: the running task waits for an event, but no longer than
        xTicksToWait from now unless that is portMAX_DELAY. */
    method PlaceOnEventList(xTicksToWait: nat)
      modifies this
      ensures Abs() == SchedulerOps.PlaceOnEventList(old(Abs()), xTicksToWait)
      ensures old(Inv(Abs()) && CanBlock(Abs())) && 0 < xTicksToWait < TICK_MODULUS ==>
        && Inv(Abs()) && pxCurrentTCB in onEvent
        && if xTicksToWait == MAX_DELAY then TcbOf(pxCurrentTCB).place == Suspended
           else Sleeping(Abs(), pxCurrentTCB, Abs().Now() + xTicksToWait)
    {
      hide Base, Sleeping, DelayCurrent;
      if Inv(Abs()) && CanBlock(Abs()) && 0 < xTicksToWait < TICK_MODULUS {
        BlockInv(Abs(), xTicksToWait);
        WaitSleeps(Abs(), xTicksToWait);
      }
      onEvent := onEvent + {pxCurrentTCB};
      AddCurrentTaskToDelayedList(xTicksToWait, true);
    }

    /** xTaskRemoveFromEventList for the owner of the head entry: it is ready, or with the
        scheduler suspended the last of the pending tasks. */
    method RemoveFromEventList(t: Task) returns (higher: bool)
      modifies this
      ensures Abs() == SchedulerOps.RemoveFromEventList(old(Abs()), t)
      ensures old(Inv(Abs())) && t in old(onEvent) ==>
        && Inv(Abs()) && onEvent == old(onEvent) - {t} && t in tcbs
        && if uxSchedulerSuspended == 0 then
             && tcbs == old(tcbs)[t := tcbs[t]] && tcbs[t].place == Ready(tcbs[t].priority)
             && t in ListAt(tcbs[t].place).items && xPendingReadyList == old(xPendingReadyList)
           else xPendingReadyList == old(xPendingReadyList) + [t] && tcbs == old(tcbs) && lists == old(lists)
      ensures higher == (old(TcbOf(t)).priority > old(TcbOf(pxCurrentTCB)).priority)
      ensures xYieldPending == (old(xYieldPending) || higher)
    {
      hide MakeReady, Inv;
      if Inv(Abs()) && t in onEvent {
        RemoveFromEventListInv(Abs(), t);
        EventWakes(Abs(), t);
      }
      higher := TcbOf(t).priority > TcbOf(pxCurrentTCB).priority;
      onEvent := onEvent - {t};
      if uxSchedulerSuspended == 0 {
        MakeReadyYield(Abs(), t);
        MoveToReadyList(t);
      } else {
        xPendingReadyList := xPendingReadyList + [t];
      }
      if higher {
        xYieldPending := true;
      }
    }

    lemma MakeReadyYield(s: State, t: Task)
      ensures MakeReady(s, t).yieldPending == s.yieldPending
    {
    }

    // ---- tasks ----

    /** prvAddNewTaskToReadyList, with the scheduler running. */
    method CreateTask(t: Task, priority: nat)
      requires Inv(Abs()) && t !in tcbs && priority < MAX_PRIORITIES
      modifies this
      ensures Abs() == SchedulerOps.CreateTask(old(Abs()), t, priority) && Inv(Abs())
      ensures t in tcbs && tcbs == old(tcbs)[t := tcbs[t]] && tcbs[t].place == Ready(priority)
      ensures tcbs[t].priority == tcbs[t].base == priority
      ensures Decides(old(Abs()), Abs(), old(TcbOf(pxCurrentTCB)).priority < priority)
    {
      hide Base, AddToReadyList, SchedulerOps.SwitchContext, Switched;
      CreatesTask(Abs(), t, priority);
      CreateTaskInv(Abs(), t, priority);
      NewTaskBase(Abs(), t, priority);
      var higher := TcbOf(pxCurrentTCB).priority < priority;
      uxCurrentNumberOfTasks := uxCurrentNumberOfTasks + 1;
      tcbs := tcbs[t := Tcb(priority, priority, 0, Nowhere)];
      AddTaskToReadyList(t);
      if higher {
        SwitchContext();
      }
    }

    /** The event list item leaves its event list or xPendingReadyList. */
    method LeaveEventLists(t: Task)
      modifies this`onEvent, this`xPendingReadyList
      ensures Abs() == SchedulerOps.LeaveEventLists(old(Abs()), t)
    {
      onEvent := onEvent - {t};
      xPendingReadyList := Without(xPendingReadyList, t);
    }

    lemma MovesKeepCurrent(s: State, t: Task)
      ensures SchedulerOps.LeaveEventLists(Unlink(s, t), t).current == s.current
      ensures Link(SchedulerOps.LeaveEventLists(Unlink(s, t), t), t, Suspended).current == s.current
    {
    }

    /** vTaskSuspend. */
    method SuspendTask(t: Task)
      requires Inv(Abs()) && t in tcbs && t != xIdleTaskHandle
      modifies this
      ensures Abs() == SchedulerOps.SuspendTask(old(Abs()), t) && Inv(Abs())
      ensures Moved(old(Abs()), Abs(), t, Suspended) && t !in onEvent && t !in xPendingReadyList
      ensures Decides(old(Abs()), Abs(), t == old(pxCurrentTCB))
    {
      hide Base, Unlink, Link, SchedulerOps.SwitchContext, SchedulerOps.LeaveEventLists, HeadWake, Switched;
      ghost var s := Abs();
      SuspendsTask(s, t);
      SuspendTaskInv(s, t);
      SuspendedBase(s, t);
      MovesKeepCurrent(s, t);
      ListRemove(t);
      LeaveEventLists(t);
      ListInsert(t, Suspended);
      ResetNextTaskUnblockTime();
      if t == pxCurrentTCB {
        SwitchContext();
      }
    }

    /** prvTaskIsTaskSuspended. */
    method TaskIsTaskSuspended(t: Task) returns (suspended: bool)
      ensures suspended == IsTaskSuspended(Abs(), t)
    {
      suspended := false;
      if TcbOf(t).place == Suspended {
        if t !in xPendingReadyList {
          if t !in onEvent {
            suspended := true;
          }
        }
      }
    }

    /** vTaskResume. */
    method ResumeTask(t: Task)
      requires Inv(Abs()) && t in tcbs
      modifies this
      ensures Abs() == SchedulerOps.ResumeTask(old(Abs()), t) && Inv(Abs())
      ensures old(t != pxCurrentTCB && tcbs[t].place == Suspended && t !in xPendingReadyList && t !in onEvent) ==>
        && Moved(old(Abs()), Abs(), t, Ready(old(tcbs[t]).priority))
        && Decides(old(Abs()), Abs(), old(tcbs[t]).priority >= old(TcbOf(pxCurrentTCB)).priority)
      ensures old(t == pxCurrentTCB || tcbs[t].place != Suspended || t in xPendingReadyList || t in onEvent) ==>
        Abs() == old(Abs())
    {
      hide Base, MakeReady, IsTaskSuspended, SchedulerOps.SwitchContext, Switched;
      ghost var s := Abs();
      ResumeWakes(s, t);
      ResumeTaskInv(s, t);
      if t != pxCurrentTCB {
        var suspended := TaskIsTaskSuspended(t);
        if suspended {
          MakeReadyBase(s, t);
          var higher := TcbOf(t).priority >= TcbOf(pxCurrentTCB).priority;
          MoveToReadyList(t);
          if higher {
            SwitchContext();
          }
        }
      }
    }

    /** vTaskDelete: a task that deletes itself waits for the idle task to free it. */
    method DeleteTask(t: Task)
      requires Inv(Abs()) && t in tcbs && t != xIdleTaskHandle
      modifies this
      ensures Abs() == SchedulerOps.DeleteTask(old(Abs()), t) && Inv(Abs())
      ensures t !in onEvent && t !in xPendingReadyList
      ensures if t == old(pxCurrentTCB) then Moved(old(Abs()), Abs(), t, Termination) else tcbs == old(tcbs) - {t}
      ensures Decides(old(Abs()), Abs(), t == old(pxCurrentTCB))
    {
      hide Base, Unlink, Link, SchedulerOps.SwitchContext, SchedulerOps.LeaveEventLists, HeadWake, Switched;
      ghost var s := Abs();
      DeletesTask(s, t);
      DeleteTaskInv(s, t);
      MovesKeepCurrent(s, t);
      ListRemove(t);
      LeaveEventLists(t);
      if t == pxCurrentTCB {
        TerminatedBase(s, t);
        ListInsert(t, Termination);
        SwitchContext();
      } else {
        ForgetTask(t);
        ResetNextTaskUnblockTime();
      }
    }

    method ForgetTask(t: Task)
      modifies this`tcbs, this`uxCurrentNumberOfTasks
      ensures Abs() == Forget(old(Abs()), t)
    {
      if uxCurrentNumberOfTasks > 0 {
        uxCurrentNumberOfTasks := uxCurrentNumberOfTasks - 1;
      }
      tcbs := tcbs - {t};
    }

    /** One turn of prvCheckTasksWaitingTermination. */
    method CleanUpTask()
      requires Inv(Abs()) && ListAt(Termination).items != []
      requires var t := ListAt(Termination).items[0]; t != pxCurrentTCB && t !in onEvent && t !in xPendingReadyList
      modifies this
      ensures var s := old(Abs());
        && s.ListAt(Termination).items != [] && Abs() == SchedulerOps.CleanUpTask(s) && Inv(Abs())
        && tcbs == s.tcbs - {s.ListAt(Termination).items[0]}
    {
      hide Base, Unlink, Forget;
      CleansUp(Abs());
      CleanUpInv(Abs());
      var t := ListAt(Termination).items[0];
      ListRemove(t);
      ForgetTask(t);
    }

    /** vTaskPrioritySet. */
    method PrioritySet(t: Task, uxNewPriority: nat)
      requires Inv(Abs()) && t in tcbs && uxNewPriority < MAX_PRIORITIES
      modifies this
      ensures Abs() == SchedulerOps.PrioritySet(old(Abs()), t, uxNewPriority) && Inv(Abs())
      ensures t in tcbs && tcbs == old(tcbs)[t := tcbs[t]] && tcbs[t].base == uxNewPriority
      ensures tcbs[t].place == PlaceFor(tcbs[t]) && (tcbs[t].place.Ready? <==> old(tcbs[t]).place.Ready?)
      ensures tcbs[t].priority == if old(tcbs[t].priority == tcbs[t].base) then uxNewPriority else old(tcbs[t].priority)
      ensures Decides(old(Abs()), Abs(),
        || (t != old(pxCurrentTCB) && uxNewPriority > old(tcbs[t].base)
            && uxNewPriority >= old(TcbOf(pxCurrentTCB).priority))
        || (t == old(pxCurrentTCB) && uxNewPriority < old(tcbs[t].base)))
    {
      hide Inv, Switched, SchedulerOps.PrioritySet;
      PrioritySetBody(t, uxNewPriority);
      PrioritySetInv(old(Abs()), t, uxNewPriority);
      SetsPriority(old(Abs()), t, uxNewPriority);
    }

    /** A ready task moves to the list of its new priority. */
    method ReprioritiseTask(t: Task, tcb: Tcb)
      modifies this
      ensures Abs() == Reprioritise(old(Abs()), t, tcb)
    {
      hide Core, Unlink, AddToReadyList;
      if TcbOf(t).place == Ready(TcbOf(t).priority) {
        ListRemove(t);
        tcbs := tcbs[t := tcb.(place := Nowhere)];
        AddTaskToReadyList(t);
      } else {
        tcbs := tcbs[t := tcb];
      }
    }

    /** The body of vTaskPrioritySet. */
    method PrioritySetBody(t: Task, uxNewPriority: nat)
      requires Inv(Abs()) && t in tcbs && uxNewPriority < MAX_PRIORITIES
      modifies this
      ensures Abs() == SchedulerOps.PrioritySet(old(Abs()), t, uxNewPriority)
    {
      hide Base, Reprioritise, SchedulerOps.SwitchContext;
      TcbFacts(Abs(), t);
      var tcb := TcbOf(t);
      if tcb.base != uxNewPriority {
        var yieldRequired := false;
        if uxNewPriority > tcb.base {
          if t != pxCurrentTCB && uxNewPriority >= TcbOf(pxCurrentTCB).priority {
            yieldRequired := true;
          }
        } else if t == pxCurrentTCB {
          yieldRequired := true;
        }
        PrioritySetBase(Abs(), t, Reprioritised(tcb, uxNewPriority));
        var uxPriority := if tcb.base == tcb.priority then uxNewPriority else tcb.priority;
        tcb := tcb.(base := uxNewPriority, priority := uxPriority);
        ReprioritiseTask(t, tcb);
        if yieldRequired {
          SwitchContext();
        }
      }
    }
  }
}
