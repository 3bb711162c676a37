/** The scheduler over whole runs: every order of tick interrupts, suspensions,
    switches and task operations. */
module SchedulerRuns {
  import opened Common
  import opened SchedulerState
  import opened SchedulerOps
  import opened SchedulerTicks
  import opened SchedulerSafety
  import opened SchedulerTasks

  datatype Event =
    | TickInterrupt
    | Suspend
    | Resume
    | Switch
    | Delay(ticks: nat)
    | WaitForEvent(ticks: nat)
    | EventHappened(task: Task)
    | Create(task: Task, priority: nat)
    | SuspendOther(task: Task)
    | ResumeOther(task: Task)
    | Delete(task: Task)
    | CleanUp
    | SetPriority(task: Task, priority: nat)

  /** The running task has not just blocked itself, and may block. */
  ghost predicate CanBlock(s: State) {
    && s.current in s.tcbs && s.current != s.idle && s.tcbs[s.current].place.Ready?
    && s.current !in s.onEvent && s.current !in s.pending
  }

  /** What the kernel's callers keep to: its assertions, and that the idle task never
      blocks. Delays are of at least one tick. */
  ghost predicate Enabled(s: State, e: Event) {
    match e
    case Resume => s.suspended > 0
    case Delay(ticks) => CanBlock(s) && 0 < ticks < TICK_MODULUS
    case WaitForEvent(ticks) => CanBlock(s) && 0 < ticks < TICK_MODULUS
    case EventHappened(t) => t in s.onEvent
    case Create(t, priority) => t !in s.tcbs && priority < MAX_PRIORITIES
    case SuspendOther(t) => t in s.tcbs && t != s.idle && s.tcbs[t].place != Termination
    case ResumeOther(t) => t in s.tcbs
    case Delete(t) => t in s.tcbs && t != s.idle && s.tcbs[t].place != Termination
    case CleanUp =>
      var items := s.ListAt(Termination).items;
      items != [] && items[0] != s.current && items[0] !in s.onEvent && items[0] !in s.pending
    case SetPriority(t, priority) => t in s.tcbs && priority < MAX_PRIORITIES
    case _ => true
  }

  function Step(s: State, e: Event): State
    requires e.Resume? ==> s.suspended > 0
    requires e.CleanUp? ==> s.ListAt(Termination).items != []
  {
    match e
    case TickInterrupt => IncrementTick(s.(interrupts := s.interrupts + 1)).state
    case Suspend => SuspendAll(s)
    case Resume => ResumeAll(s)
    case Switch => SwitchContext(s)
    case Delay(ticks) => DelayCurrent(s, ticks, false)
    case WaitForEvent(ticks) => PlaceOnEventList(s, ticks)
    case EventHappened(t) => RemoveFromEventList(s, t)
    case Create(t, priority) => CreateTask(s, t, priority)
    case SuspendOther(t) => SuspendTask(s, t)
    case ResumeOther(t) => ResumeTask(s, t)
    case Delete(t) => DeleteTask(s, t)
    case CleanUp => CleanUpTask(s)
    case SetPriority(t, priority) => PrioritySet(s, t, priority)
  }

  /** A run: states linked by enabled events. */
  ghost predicate Run(states: seq<State>, events: seq<Event>) {
    && |states| == |events| + 1
    && forall i :: 0 <= i < |events| ==> Enabled(states[i], events[i]) && states[i + 1] == Step(states[i], events[i])
  }

  lemma TickInterruptInv(s: State)
    requires Inv(s)
    ensures Inv(Step(s, TickInterrupt))
  {
    hide Base, ProcessTick;
    var s1 := s.(interrupts := s.interrupts + 1);
    BaseFrame(s, s1);
    if s.suspended == 0 {
      TickWakesOnTime(s1);
    } else {
      BaseFrame(s, s1.(pendedTicks := s.pendedTicks + 1));
    }
  }

  lemma BlockInv(s: State, ticks: nat)
    requires Inv(s) && CanBlock(s) && 0 < ticks < TICK_MODULUS
    ensures Inv(DelayCurrent(s, ticks, false)) && Inv(PlaceOnEventList(s, ticks))
  {
    hide Base, DelayCurrent;
    DelayBase(s, ticks, false);
    var onEvent := s.onEvent + {s.current};
    EventTasks(s);
    EventsBase(s, onEvent);
    DelayBase(s.(onEvent := onEvent), ticks, true);
  }

  lemma EventTasks(s: State)
    requires Base(s)
    ensures forall t :: t in s.onEvent ==> t in s.tcbs && t != s.idle && t !in s.pending
  {
    hide Core, NoneDue, TasksOk;
  }

  lemma StepInv(s: State, e: Event)
    requires Inv(s) && Enabled(s, e)
    ensures Inv(Step(s, e))
  {
    hide Inv, IncrementTick, ResumeAll, SwitchContext, DelayCurrent, PlaceOnEventList, RemoveFromEventList, CreateTask,
      SuspendTask, ResumeTask, DeleteTask, PrioritySet, CleanUpTask;
    match e {
      case TickInterrupt => TickInterruptInv(s);
      case Suspend => SuspendInv(s);
      case Resume => ResumeAllInv(s);
      case Switch => SwitchInv(s);
      case Delay(ticks) => BlockInv(s, ticks);
      case WaitForEvent(ticks) => BlockInv(s, ticks);
      case EventHappened(t) => RemoveFromEventListInv(s, t);
      case Create(t, priority) => CreateTaskInv(s, t, priority);
      case SuspendOther(t) => SuspendTaskInv(s, t);
      case ResumeOther(t) => ResumeTaskInv(s, t);
      case Delete(t) => DeleteTaskInv(s, t);
      case CleanUp => CleanUpInv(s);
      case SetPriority(t, priority) => PrioritySetInv(s, t, priority);
    }
  }

  lemma SuspendInv(s: State)
    requires Inv(s)
    ensures Inv(SuspendAll(s))
  {
    hide Base;
    BaseFrame(s, SuspendAll(s));
  }

  /** The invariant holds in every state of every run that starts in it. */
  lemma {:induction false} RunInv(states: seq<State>, events: seq<Event>, k: nat)
    requires Run(states, events) && Inv(states[0]) && k < |states|
    ensures Inv(states[k])
    decreases k
  {
    hide Inv, Step, Enabled;
    if k > 0 {
      RunInv(states, events, k - 1);
      StepInv(states[k - 1], events[k - 1]);
    }
  }
}
