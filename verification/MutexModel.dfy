/** Mutexes with priority inheritance (queue.c and tasks.c): the critical sections of
    xQueueSemaphoreTake and of giving a mutex, as steps that any number of tasks
    interleave. */
module MutexModel {
  import opened Common
  import opened Rings

  type MutexId = nat

  /** Where a task is in xQueueSemaphoreTake: about to run the critical section at the top
      of the loop; past it with the mutex unavailable; on the wait list; past an expired
      timeout; about to undo the inheritance it caused. inherited is
      xInheritanceOccurred, wait says that xTicksToWait is not 0. */
  datatype Pc =
    | Outside
    | Top(m: MutexId, inherited: bool, wait: bool)
    | Checked(m: MutexId, inherited: bool, wait: bool)
    | Waiting(m: MutexId, inherited: bool, wait: bool)
    | Expired(m: MutexId, inherited: bool, wait: bool)
    | Undoing(m: MutexId)

  /** value is the value of xEventListItem; asleep means blocked on something else. */
  datatype Tcb = Tcb(priority: nat, base: nat, held: nat, value: int, pc: Pc, asleep: bool)

  /** available is uxMessagesWaiting == 1. */
  datatype Mutex = Mutex(available: bool, holder: Option<Task>, waiters: seq<Task>)

  datatype State = State(tcbs: map<Task, Tcb>, mutexes: map<MutexId, Mutex>, current: Task)

  function TcbOf(s: State, t: Task): Tcb {
    if t in s.tcbs then s.tcbs[t] else Tcb(0, 0, 0, MAX_PRIORITIES, Outside, false)
  }

  function MutexOf(s: State, m: MutexId): Mutex {
    if m in s.mutexes then s.mutexes[m] else Mutex(false, None, [])
  }

  function SetTcb(s: State, t: Task, tcb: Tcb): State {
    s.(tcbs := s.tcbs[t := tcb])
  }

  function SetPc(s: State, t: Task, pc: Pc): State {
    SetTcb(s, t, TcbOf(s, t).(pc := pc))
  }

  function SetMutex(s: State, m: MutexId, mutex: Mutex): State {
    s.(mutexes := s.mutexes[m := mutex])
  }

  predicate Ready(s: State, t: Task) {
    t in s.tcbs && !s.tcbs[t].asleep && !s.tcbs[t].pc.Waiting?
  }

  // ---- priority inheritance (tasks.c) ----

  function SetPriority(s: State, t: Task, priority: nat): State {
    SetTcb(s, t, TcbOf(s, t).(priority := priority, value := MAX_PRIORITIES - priority))
  }

  /** xTaskPriorityInherit: the holder rises to the running task's priority. */
  function Inherit(s: State, holder: Option<Task>): State {
    if holder.Some? && TcbOf(s, holder.value).priority < TcbOf(s, s.current).priority
    then SetPriority(s, holder.value, TcbOf(s, s.current).priority)
    else s
  }

  /** The value xTaskPriorityInherit returns. */
  function InheritanceOccurred(s: State, holder: Option<Task>): bool {
    holder.Some? &&
    var (h, c) := (TcbOf(s, holder.value), TcbOf(s, s.current));
    h.priority < c.priority || h.base < c.priority
  }

  /** xTaskPriorityDisinherit: back to the base priority with the last mutex. */
  function Disinherit(s: State, holder: Option<Task>): State {
    if holder.None? then s
    else
      var t := holder.value;
      var tcb := TcbOf(s, t);
      var tcb' := tcb.(held := if tcb.held == 0 then 0 else tcb.held - 1);
      SetTcb(s, t, if tcb'.priority != tcb'.base && tcb'.held == 0
                   then tcb'.(priority := tcb'.base, value := MAX_PRIORITIES - tcb'.base) else tcb')
  }

  /** prvGetDisinheritPriorityAfterTimeout: read off the item value at the head. */
  function HighestWaiting(s: State, m: MutexId): int {
    var waiters := MutexOf(s, m).waiters;
    if waiters == [] then 0 else MAX_PRIORITIES - TcbOf(s, waiters[0]).value
  }

  /** vTaskPriorityDisinheritAfterTimeout. */
  function DisinheritAfterTimeout(s: State, holder: Option<Task>, highestWaiting: int): State {
    if holder.None? then s
    else
      var tcb := TcbOf(s, holder.value);
      var priority := if tcb.base < highestWaiting then highestWaiting else tcb.base;
      if tcb.priority != priority && tcb.held == 1 then SetPriority(s, holder.value, priority) else s
  }

  // ---- taking (queue.c) ----

  function WaiterValues(s: State, m: MutexId): (v: seq<nat>)
    ensures |v| == |MutexOf(s, m).waiters|
  {
    seq(|MutexOf(s, m).waiters|, i requires 0 <= i < |MutexOf(s, m).waiters| =>
      var v := TcbOf(s, MutexOf(s, m).waiters[i]).value; if v < 0 then 0 else v)
  }

  /** vTaskPlaceOnEventList: the wait list is in item value order. */
  function Enqueue(s: State, m: MutexId, t: Task): State {
    var value := TcbOf(s, t).value;
    var pos := InsertPos(WaiterValues(s, m), if value < 0 then 0 else value);
    var waiters := MutexOf(s, m).waiters;
    SetMutex(s, m, MutexOf(s, m).(waiters := waiters[..pos] + [t] + waiters[pos..]))
  }

  /** The critical section at the top of the loop: take the mutex if it is available. */
  function TryTake(s: State): State {
    var t := s.current;
    var pc := TcbOf(s, t).pc;
    if !pc.Top? then s
    else if MutexOf(s, pc.m).available then
      SetMutex(SetTcb(s, t, TcbOf(s, t).(pc := Outside, held := TcbOf(s, t).held + 1)), pc.m,
        MutexOf(s, pc.m).(available := false, holder := Some(t)))
    else SetPc(s, t, if pc.wait then Checked(pc.m, pc.inherited, true) else Outside)
  }

  /** The section run with the scheduler suspended, when the timeout has not expired and
      the mutex is still unavailable: inherit, then wait. */
  function BeginWait(s: State): State {
    var t := s.current;
    var pc := TcbOf(s, t).pc;
    if !pc.Checked? then s
    else
      var holder := MutexOf(s, pc.m).holder;
      var s1 := Inherit(s, holder);
      Enqueue(SetPc(s1, t, Waiting(pc.m, InheritanceOccurred(s, holder), pc.wait)), pc.m, t)
  }

  /** After an expired timeout: give up only if the mutex is still unavailable. */
  function CheckEmpty(s: State): State {
    var pc := TcbOf(s, s.current).pc;
    if !pc.Expired? then s
    else if MutexOf(s, pc.m).available then SetPc(s, s.current, Top(pc.m, pc.inherited, pc.wait))
    else SetPc(s, s.current, if pc.inherited then Undoing(pc.m) else Outside)
  }

  /** The last critical section of a take that timed out. */
  function UndoInheritance(s: State): State {
    var pc := TcbOf(s, s.current).pc;
    if !pc.Undoing? then s
    else SetPc(DisinheritAfterTimeout(s, MutexOf(s, pc.m).holder, HighestWaiting(s, pc.m)), s.current, Outside)
  }

  /** t leaves the wait list of m and goes back to the top of its loop. */
  function Awaken(s: State, m: MutexId, t: Task): State {
    var pc := TcbOf(s, t).pc;
    var s1 := SetMutex(s, m, MutexOf(s, m).(waiters := Without(MutexOf(s, m).waiters, t)));
    if pc.Waiting? then SetPc(s1, t, Top(m, pc.inherited, pc.wait)) else s1
  }

  /** The critical section of giving a mutex: prvCopyDataToQueue, then the head of the
      wait list is woken. */
  function GiveMutex(s: State, m: MutexId): State {
    var s1 := Disinherit(s, MutexOf(s, m).holder);
    var s2 := SetMutex(s1, m, MutexOf(s1, m).(available := true, holder := None));
    var waiters := MutexOf(s, m).waiters;
    if waiters == [] then s2 else Awaken(s2, m, waiters[0])
  }

  /** The value xTaskPriorityDisinherit returns. */
  predicate DisinheritYields(s: State, holder: Option<Task>) {
    holder.Some? && TcbOf(s, holder.value).held <= 1 && TcbOf(s, holder.value).priority != TcbOf(s, holder.value).base
  }

  /** With a task to wake, only xTaskRemoveFromEventList is asked for a yield; what
      xTaskPriorityDisinherit asked for counts only if there is none. */
  predicate GiveYields(s: State, m: MutexId) {
    var waiters := MutexOf(s, m).waiters;
    if waiters == [] then DisinheritYields(s, MutexOf(s, m).holder)
    else TcbOf(GiveMutex(s, m), waiters[0]).priority > TcbOf(GiveMutex(s, m), s.current).priority
  }

  // ---- events ----

  /** next is the task a context switch picks. */
  datatype Event =
    | StartTake(m: MutexId, wait: bool)
    | Try
    | Wait(next: Task)
    | Expire(wait: bool)
    | Recheck
    | Undo
    | Give(m: MutexId, next: Task)
    | TimeOut(task: Task)
    | Switch(next: Task)
    | Sleep(next: Task)
    | WakeUp(task: Task)
    | SetBase(task: Task, priority: nat)

  function RunNext(s: State, next: Task): State {
    s.(current := next)
  }

  /** vTaskPrioritySet on the fields of this model; note the item value. */
  function PrioritySet(s: State, t: Task, priority: nat): State {
    var tcb := TcbOf(s, t);
    if tcb.base == priority then s
    else SetTcb(s, t, tcb.(base := priority, value := MAX_PRIORITIES - priority,
      priority := if tcb.base == tcb.priority then priority else tcb.priority))
  }

  function Step(s: State, e: Event): State {
    match e
    case StartTake(m, wait) => SetPc(s, s.current, Top(m, false, wait))
    case Try => TryTake(s)
    case Wait(next) =>
      var pc := TcbOf(s, s.current).pc;
      if !pc.Checked? then s
      else if MutexOf(s, pc.m).available then SetPc(s, s.current, Top(pc.m, pc.inherited, pc.wait))
      else RunNext(BeginWait(s), next)
    case Expire(wait) =>
      var pc := TcbOf(s, s.current).pc;
      if pc.Checked? then SetPc(s, s.current, Expired(pc.m, pc.inherited, wait)) else s
    case Recheck => CheckEmpty(s)
    case Undo => UndoInheritance(s)
    case Give(m, next) => if GiveYields(s, m) then RunNext(GiveMutex(s, m), next) else GiveMutex(s, m)
    case TimeOut(t) => var pc := TcbOf(s, t).pc; if pc.Waiting? then Awaken(s, pc.m, t) else s
    case Switch(next) => RunNext(s, next)
    case Sleep(next) => RunNext(SetTcb(s, s.current, TcbOf(s, s.current).(asleep := true)), next)
    case WakeUp(t) => SetTcb(s, t, TcbOf(s, t).(asleep := false))
    case SetBase(t, priority) => PrioritySet(s, t, priority)
  }

  ghost predicate IsHighestReady(s: State, t: Task) {
    Ready(s, t) && forall u :: Ready(s, u) ==> TcbOf(s, u).priority <= TcbOf(s, t).priority
  }

  /** A context switch happens in this step. */
  predicate Switches(s: State, e: Event) {
    match e
    case Wait(_) => TcbOf(s, s.current).pc.Checked? && !MutexOf(s, TcbOf(s, s.current).pc.m).available
    case Give(m, _) => GiveYields(s, m)
    case Switch(_) => true
    case Sleep(_) => true
    case _ => false
  }

  /** The running task follows xQueueSemaphoreTake and gives only what it holds, and every
      context switch picks a ready task of the highest priority. */
  ghost predicate Enabled(s: State, e: Event) {
    && Ready(s, s.current)
    && (Switches(s, e) ==> IsHighestReady(Step(s, e), e.next))
    && match e
       case StartTake(m, _) => TcbOf(s, s.current).pc == Outside && m in s.mutexes
       case Try => TcbOf(s, s.current).pc.Top?
       case Wait(_) => TcbOf(s, s.current).pc.Checked?
       case Expire(_) => TcbOf(s, s.current).pc.Checked?
       case Recheck => TcbOf(s, s.current).pc.Expired?
       case Undo => TcbOf(s, s.current).pc.Undoing?
       case Give(m, _) => TcbOf(s, s.current).pc == Outside && m in s.mutexes && s.mutexes[m].holder == Some(s.current)
       case TimeOut(t) => TcbOf(s, t).pc.Waiting?
       case Switch(_) => true
       case Sleep(_) => TcbOf(s, s.current).pc == Outside
       case WakeUp(t) => t in s.tcbs
       case SetBase(t, priority) => t in s.tcbs && priority < MAX_PRIORITIES
  }

  ghost predicate Run(states: seq<State>, events: seq<Event>) {
    && |states| == |events| + 1
    && forall i :: 0 <= i < |events| ==> Enabled(states[i], events[i]) && states[i + 1] == Step(states[i], events[i])
  }
}
