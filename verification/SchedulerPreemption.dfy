/** Over whole runs: the processor runs a highest ready task unless a switch is asked for,
    an event wakes the task that waits for it, and a suspended scheduler switches nothing. */
module SchedulerPreemption {
  import opened Common
  import opened SchedulerState
  import opened SchedulerOps
  import opened SchedulerTicks
  import opened SchedulerSafety
  import opened SchedulerTasks
  import opened SchedulerRuns
  import opened SchedulerEffects

  // ---- the running task is a highest ready one ----

  /** The caller has to yield after e: the tick says so, or the running task has blocked. */
  predicate Asks(s: State, e: Event) {
    match e
    case TickInterrupt => IncrementTick(s.(interrupts := s.interrupts + 1)).switchRequired
    case Delay(_) => true
    case WaitForEvent(_) => true
    case _ => false
  }

  /** A yield asked for before k has not been taken yet. */
  predicate Owed(states: seq<State>, events: seq<Event>, k: nat)
    requires k < |states| == |events| + 1
  {
    k > 0 && !events[k - 1].Switch? && (Owed(states, events, k - 1) || Asks(states[k - 1], events[k - 1]))
  }

  ghost predicate Preemptive(s: State) {
    RunsHighest(s) || s.yieldPending
  }

  /** The running task stays, no lower than before, and no other ready task is above it. */
  lemma StaysHighest(s: State, r: State)
    requires RunsHighest(s) && r.current == s.current && r.current in r.tcbs && r.tcbs[r.current].place.Ready?
    requires s.tcbs[s.current].priority <= r.tcbs[r.current].priority
    requires forall u :: u in r.tcbs && r.tcbs[u].place.Ready? && u != r.current ==>
      || r.tcbs[u].priority <= r.tcbs[r.current].priority
      || (u in s.tcbs && s.tcbs[u].place.Ready? && r.tcbs[u].priority <= s.tcbs[u].priority)
    ensures RunsHighest(r)
  {
  }

  lemma EventPreemptive(s: State, t: Task)
    requires Inv(s) && t in s.onEvent && Preemptive(s)
    ensures Preemptive(RemoveFromEventList(s, t))
  {
    hide Base, RemoveFromEventList;
    EventWakes(s, t);
    var r := RemoveFromEventList(s, t);
    if !r.yieldPending { StaysHighest(s, r); }
  }

  lemma ResumeTaskPreemptive(s: State, t: Task)
    requires Inv(s) && t in s.tcbs && Preemptive(s)
    ensures Preemptive(ResumeTask(s, t))
  {
    hide Base, ResumeTask;
    ResumeWakes(s, t);
    var r := ResumeTask(s, t);
    if RunsHighest(s) && r != s && s.tcbs[t].priority < s.tcbs[s.current].priority { StaysHighest(s, r); }
  }

  lemma CreatePreemptive(s: State, t: Task, priority: nat)
    requires Inv(s) && t !in s.tcbs && priority < MAX_PRIORITIES && Preemptive(s)
    ensures Preemptive(CreateTask(s, t, priority))
  {
    hide Base, CreateTask;
    CreatesTask(s, t, priority);
    if RunsHighest(s) && s.tcbs[s.current].priority >= priority { StaysHighest(s, CreateTask(s, t, priority)); }
  }

  lemma LeavePreemptive(s: State, e: Event)
    requires Inv(s) && Enabled(s, e) && (e.SuspendOther? || e.Delete? || e.CleanUp?) && Preemptive(s)
    ensures Preemptive(Step(s, e))
  {
    hide Base, SuspendTask, DeleteTask, CleanUpTask;
    match e {
      case SuspendOther(t) =>
        SuspendsTask(s, t);
        if RunsHighest(s) && t != s.current { StaysHighest(s, SuspendTask(s, t)); }
      case Delete(t) =>
        DeletesTask(s, t);
        if RunsHighest(s) && t != s.current { StaysHighest(s, DeleteTask(s, t)); }
      case CleanUp =>
        CleansUp(s);
        if RunsHighest(s) { StaysHighest(s, CleanUpTask(s)); }
    }
  }

  lemma PriorityPreemptive(s: State, t: Task, priority: nat)
    requires Inv(s) && t in s.tcbs && priority < MAX_PRIORITIES && Preemptive(s)
    ensures Preemptive(PrioritySet(s, t, priority))
  {
    hide Base, PrioritySet;
    TcbFacts(s, t);
    SetsPriority(s, t, priority);
    var (r, tcb) := (PrioritySet(s, t, priority), s.tcbs[t]);
    var asked := || (t != s.current && priority > tcb.base && priority >= s.TcbOf(s.current).priority)
                 || (t == s.current && priority < tcb.base);
    if RunsHighest(s) && !asked { StaysHighest(s, r); }
  }

  /** A tick wakes a higher task only if it asks for a switch. */
  lemma TickPreemptive(s: State)
    requires Inv(s) && Preemptive(s)
    ensures Preemptive(Step(s, TickInterrupt)) || Asks(s, TickInterrupt)
  {
    hide Base, ProcessTick;
    var s1 := s.(interrupts := s.interrupts + 1);
    BaseFrame(s, s1);
    if s.suspended == 0 {
      TickWakesOnTime(s1);
      TickRequestsSwitch(s1);
      if RunsHighest(s) && !Asks(s, TickInterrupt) { TickStays(s, s1); }
    }
  }

  lemma TickStays(s: State, s1: State)
    requires Base(s1) && s1 == s.(interrupts := s1.interrupts) && RunsHighest(s)
    requires var r := ProcessTick(s1).state; WokenBy(s1, r, s1.Now() + 1) && r.current == s1.current
    requires forall t :: WokenNow(s1, t) ==> s1.tcbs[t].priority < s1.TcbOf(s1.current).priority
    ensures RunsHighest(ProcessTick(s1).state)
  {
    hide Base, ProcessTick;
    DeadlinesAhead(s1);
    StaysHighest(s, ProcessTick(s1).state);
  }

  // ---- the end of a suspension ----

  lemma {:induction false} TicksPreemptive(s: State, n: nat)
    requires Base(s) && s.suspended == 0 && s.pending == [] && Preemptive(s)
    ensures Preemptive(ProcessTicks(s, n))
    decreases n
  {
    hide Base, ProcessTick, RunsHighest;
    if n > 0 {
      TickWakesOnTime(s);
      var r := ProcessTick(s);
      var s1 := r.state.(yieldPending := r.state.yieldPending || r.switchRequired);
      BaseFrame(r.state, s1);
      if !s1.yieldPending {
        TickRequestsSwitch(s);
        TickStays(s, s);
        SameRuns(r.state, s1);
      }
      TicksPreemptive(s1, n - 1);
    }
  }

  lemma SameRuns(s: State, r: State)
    requires RunsHighest(s) && r.tcbs == s.tcbs && r.current == s.current
    ensures RunsHighest(r)
  {
  }

  lemma ResumedPreemptive(s: State)
    requires Base(s) && RunsHighest(s)
    ensures Preemptive(Resumed(s))
  {
    hide Base, DrainPending, HeadWake;
    ResumedBase(s);
    ResumedYields(s);
    var r := Resumed(s);
    if !r.yieldPending { StaysHighest(s, r); }
  }

  lemma ResumePreemptive(s: State)
    requires Inv(s) && s.suspended > 0 && Preemptive(s)
    ensures Preemptive(ResumeAll(s))
  {
    hide Base, Resumed, ProcessTicks, SwitchContext, RunsHighest, PendingAbove;
    ResumeYields(s);
    SomeTask(s);
    if s.suspended > 1 {
      if RunsHighest(s) { SameRuns(s, ResumeAll(s)); }
    } else if !s.yieldPending {
      ResumedPreemptive(s);
      ResumedBase(s);
      TicksPreemptive(Resumed(s), s.pendedTicks);
      CaughtUpInv(s);
      SwitchDecides(CaughtUp(s));
      if RunsHighest(ProcessTicks(Resumed(s), s.pendedTicks)) {
        SameRuns(ProcessTicks(Resumed(s), s.pendedTicks), CaughtUp(s));
      }
    }
  }

  lemma StepPreemptive(s: State, e: Event)
    requires Inv(s) && Enabled(s, e) && Preemptive(s)
    ensures Preemptive(Step(s, e)) || Asks(s, e)
  {
    hide Base, RunsHighest, SwitchContext, IncrementTick, ResumeAll, RemoveFromEventList, CreateTask, SuspendTask,
      ResumeTask, DeleteTask, CleanUpTask, PrioritySet, DelayCurrent;
    match e {
      case TickInterrupt => TickPreemptive(s);
      case Suspend => if RunsHighest(s) { SameRuns(s, SuspendAll(s)); }
      case Resume => ResumePreemptive(s);
      case Switch => SwitchDecides(s);
      case Delay(_) =>
      case WaitForEvent(_) =>
      case EventHappened(t) => EventPreemptive(s, t);
      case Create(t, priority) => CreatePreemptive(s, t, priority);
      case ResumeOther(t) => ResumeTaskPreemptive(s, t);
      case SetPriority(t, priority) => PriorityPreemptive(s, t, priority);
      case _ => LeavePreemptive(s, e);
    }
  }

  lemma SwitchPreemptive(s: State)
    requires Inv(s)
    ensures Preemptive(Step(s, Switch))
  {
    hide Base, SwitchContext;
    SwitchDecides(s);
  }

  /** Preemption. In every state of every run the running task is ready and no ready task is
      above it, unless a yield is pending or one asked for by a tick or a task that blocked
      has not been taken yet. */
  lemma {:induction false} AlwaysPreemptive(states: seq<State>, events: seq<Event>, k: nat)
    requires Run(states, events) && Inv(states[0]) && RunsHighest(states[0]) && k < |states|
    ensures Preemptive(states[k]) || Owed(states, events, k)
    decreases k
  {
    hide Inv, Step, Enabled, Preemptive, Asks;
    if k == 0 {
      RunsIsPreemptive(states[0]);
    } else {
      AlwaysPreemptive(states, events, k - 1);
      RunInv(states, events, k - 1);
      var (s, e) := (states[k - 1], events[k - 1]);
      if e.Switch? { SwitchPreemptive(s); } else if Preemptive(s) { StepPreemptive(s, e); }
    }
  }

  lemma RunsIsPreemptive(s: State)
    requires RunsHighest(s)
    ensures Preemptive(s)
  {
  }

  // ---- a suspended scheduler ----

  /** From one suspension of the scheduler to its end the running task keeps the processor,
      and suspensions nest. */
  lemma SuspendedKeepsRunning(s: State, e: Event)
    requires Inv(s) && Enabled(s, e) && s.suspended > 0
    ensures var r := Step(s, e);
      && r.suspended == (if e.Suspend? then s.suspended + 1 else if e.Resume? then s.suspended - 1 else s.suspended)
      && (r.suspended > 0 ==> r.current == s.current)
      && (e.TickInterrupt? ==> r.tcbs == s.tcbs && r.tick == s.tick && r.pendedTicks == s.pendedTicks + 1)
  {
    hide Base, RunsHighest, SwitchContext, ResumeAll, RemoveFromEventList, CreateTask, SuspendTask, ResumeTask,
      DeleteTask, CleanUpTask, PrioritySet, DelayCurrent, ProcessTick;
    match e {
      case Resume => ResumeYields(s);
      case Switch => SwitchDecides(s);
      case Delay(ticks) => DelayBase(s, ticks, false);
      case WaitForEvent(ticks) => WaitKeeps(s, ticks);
      case EventHappened(t) => EventWakes(s, t);
      case Create(t, priority) => CreatesTask(s, t, priority);
      case SuspendOther(t) => SuspendsTask(s, t);
      case ResumeOther(t) => ResumeWakes(s, t);
      case Delete(t) => DeletesTask(s, t);
      case CleanUp => CleansUp(s);
      case SetPriority(t, priority) => SetsPriority(s, t, priority);
      case _ =>
    }
  }

  lemma WaitKeeps(s: State, ticks: nat)
    requires Inv(s) && CanBlock(s) && 0 < ticks < TICK_MODULUS
    ensures var r := PlaceOnEventList(s, ticks);
      && r == s.(tcbs := r.tcbs, lists := r.lists, nextUnblock := r.nextUnblock, deadline := r.deadline,
        onEvent := s.onEvent + {s.current})
      && r.tcbs.Keys == s.tcbs.Keys
  {
    hide Base, DelayCurrent;
    EventTasks(s);
    EventsBase(s, s.onEvent + {s.current});
    DelayBase(s.(onEvent := s.onEvent + {s.current}), ticks, true);
  }

  // ---- an event is not lost ----

  /** e takes t from where it is, other than by waking it. */
  predicate TakesAway(e: Event, t: Task) {
    e == SuspendOther(t) || e == Delete(t)
  }

  /** t is to become ready when the scheduler is resumed. */
  ghost predicate Woken(s: State, t: Task) {
    t in s.tcbs && if s.suspended > 0 then t in s.pending else s.tcbs[t].place == Ready(s.tcbs[t].priority)
  }

  lemma ResumeReadies(s: State, t: Task)
    requires Inv(s) && s.suspended > 0 && t in s.tcbs && t in s.pending
    ensures Woken(ResumeAll(s), t)
  {
    hide Base, SwitchContext, ProcessTicks, DrainPending, HeadWake;
    SomeTask(s);
    if s.suspended == 1 {
      ResumedBase(s);
      TicksBase(Resumed(s), s.pendedTicks);
      CaughtUpInv(s);
      SwitchDecides(CaughtUp(s));
    }
  }

  lemma StepKeepsWoken(s: State, e: Event, t: Task)
    requires Inv(s) && Enabled(s, e) && s.suspended > 0 && Woken(s, t) && !TakesAway(e, t)
    ensures Woken(Step(s, e), t)
  {
    hide Base, RunsHighest, SwitchContext, ResumeAll, RemoveFromEventList, CreateTask, SuspendTask, ResumeTask,
      DeleteTask, CleanUpTask, PrioritySet, DelayCurrent, ProcessTick;
    SuspendedKeepsRunning(s, e);
    match e {
      case Resume => ResumeReadies(s, t);
      case Switch => SwitchDecides(s);
      case Delay(ticks) => DelayBase(s, ticks, false);
      case WaitForEvent(ticks) => WaitKeeps(s, ticks);
      case EventHappened(u) => EventWakes(s, u);
      case Create(u, priority) => CreatesTask(s, u, priority);
      case SuspendOther(u) => SuspendsTask(s, u);
      case ResumeOther(u) => ResumeWakes(s, u);
      case Delete(u) => DeletesTask(s, u);
      case CleanUp => CleansUp(s);
      case SetPriority(u, priority) => SetsPriority(s, u, priority);
      case _ =>
    }
  }

  lemma EventWokes(s: State, t: Task)
    requires Inv(s) && t in s.onEvent
    ensures Woken(Step(s, EventHappened(t)), t)
  {
    hide Base, RemoveFromEventList;
    EventWakes(s, t);
  }

  /** An event is not lost. A task whose event has happened is pending as long as the scheduler
      stays suspended, and ready in the first state in which it is not, unless it is suspended
      or deleted in between. */
  lemma {:induction false} EventIsNotLost(states: seq<State>, events: seq<Event>, t: Task, k: nat)
    requires Run(states, events) && Inv(states[0]) && t in states[0].onEvent && events != []
    requires events[0] == EventHappened(t) && 1 <= k < |states|
    requires forall i :: 1 <= i < k ==> states[i].suspended > 0 && !TakesAway(events[i], t)
    ensures Woken(states[k], t)
    decreases k
  {
    hide Inv, Step, Enabled, Woken;
    if k == 1 {
      EventWokes(states[0], t);
    } else {
      EventIsNotLost(states, events, t, k - 1);
      RunInv(states, events, k - 1);
      StepKeepsWoken(states[k - 1], events[k - 1], t);
    }
  }
}
