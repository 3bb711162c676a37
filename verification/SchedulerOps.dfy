/** The operations of tasks.c as functions on the scheduler state. */
module SchedulerOps {
  import opened Common
  import opened Rings
  import opened SchedulerState

  /** The wake value at the head of the delayed list. */
  function HeadWake(s: State): nat {
    var items := s.ListAt(s.DelayedList()).items;
    if items == [] then MAX_DELAY else s.TcbOf(items[0]).wake
  }

  /** prvResetNextTaskUnblockTime. */
  function ResetNextUnblock(s: State): State {
    s.(nextUnblock := HeadWake(s))
  }

  /** The increment of xTickCount, with taskSWITCH_DELAYED_LISTS when it wraps to 0. */
  function AdvanceTick(s: State): State {
    if s.tick + 1 < TICK_MODULUS then s.(tick := s.tick + 1)
    else ResetNextUnblock(s.(tick := 0, delayed := if s.delayed == 0 then 1 else 0, overflows := s.overflows + 1))
  }

  datatype TickResult = TickResult(state: State, switchRequired: bool)

  /** One task leaves the delayed list, and its event list if it is on one. */
  function Unblock(s: State, t: Task): State {
    MakeReady(s.(onEvent := s.onEvent - {t}), t)
  }

  /** The unblocking loop of xTaskIncrementTick over the n tasks left on the delayed list. */
  function UnblockDue(s: State, n: nat, switchRequired: bool): TickResult
    decreases n
  {
    var items := s.ListAt(s.DelayedList()).items;
    if n == 0 || items == [] || s.tick < HeadWake(s) then TickResult(ResetNextUnblock(s), switchRequired)
    else UnblockDue(Unblock(s, items[0]), n - 1,
      switchRequired || s.TcbOf(items[0]).priority >= s.TcbOf(s.current).priority)
  }

  /** The loop is entered only if xNextTaskUnblockTime has been reached. */
  function UnblockIfDue(s: State): TickResult {
    if s.tick >= s.nextUnblock then UnblockDue(s, |s.ListAt(s.DelayedList()).items|, false)
    else TickResult(s, false)
  }

  /** xTaskIncrementTick while the scheduler is not suspended. */
  function ProcessTick(s: State): TickResult {
    var r := UnblockIfDue(AdvanceTick(s));
    TickResult(r.state, r.switchRequired
      || |r.state.ListAt(Ready(r.state.TcbOf(r.state.current).priority)).items| > 1 || s.yieldPending)
  }

  /** xTaskIncrementTick. */
  function IncrementTick(s: State): TickResult {
    if s.suspended == 0 then ProcessTick(s)
    else TickResult(s.(pendedTicks := s.pendedTicks + 1), s.yieldPending)
  }

  /** The highest non-empty ready list at or below priority n. */
  function TopNonEmpty(s: State, n: nat): (p: nat)
    ensures p <= n
    ensures p == 0 || s.ListAt(Ready(p)).items != []
    ensures forall q :: p < q <= n ==> s.ListAt(Ready(q)).items == []
  {
    if n == 0 || s.ListAt(Ready(n)).items != [] then n else TopNonEmpty(s, n - 1)
  }

  /** vTaskSwitchContext with taskSELECT_HIGHEST_PRIORITY_TASK. */
  function SwitchContext(s: State): State {
    if s.suspended > 0 then s.(yieldPending := true)
    else
      var p := TopNonEmpty(s, s.topReady);
      var ring := s.ListAt(Ready(p));
      if ring.items == [] || !(-1 <= ring.index < |ring.items|) then s.(yieldPending := false)
      else s.(yieldPending := false, topReady := p, lists := s.lists[Ready(p) := ring.Next()],
              current := ring.Next().Current())
  }

  /** vTaskSuspendAll. */
  function SuspendAll(s: State): State {
    s.(suspended := s.suspended + 1)
  }

  /** The head of xPendingReadyList moves to its ready list. */
  function DrainStep(s: State): State
    requires s.pending != []
  {
    var t := s.pending[0];
    var s1 := MakeReady(s.(pending := s.pending[1..]), t);
    s1.(yieldPending := s1.yieldPending || s.TcbOf(t).priority >= s.TcbOf(s.current).priority)
  }

  /** The loop of xTaskResumeAll over xPendingReadyList. */
  function DrainPending(s: State): State
    decreases |s.pending|
  {
    if s.pending == [] then s else DrainPending(DrainStep(s))
  }

  /** The loop of xTaskResumeAll over the pended ticks. */
  function ProcessTicks(s: State, n: nat): State
    decreases n
  {
    if n == 0 then s
    else
      var r := ProcessTick(s);
      ProcessTicks(r.state.(yieldPending := r.state.yieldPending || r.switchRequired), n - 1)
  }

  /** xTaskResumeAll between its two loops. */
  function Resumed(s: State): State {
    var s1 := DrainPending(s.(suspended := 0));
    if s.pending != [] then ResetNextUnblock(s1) else s1
  }

  /** xTaskResumeAll up to the yield. */
  function CaughtUp(s: State): State {
    ProcessTicks(Resumed(s), s.pendedTicks).(pendedTicks := 0)
  }

  /** xTaskResumeAll. */
  function ResumeAll(s: State): State
    requires s.suspended > 0
  {
    if s.suspended > 1 || s.numTasks == 0 then s.(suspended := s.suspended - 1)
    else if CaughtUp(s).yieldPending then SwitchContext(CaughtUp(s)) else CaughtUp(s)
  }

  /** prvAddCurrentTaskToDelayedList. */
  function DelayCurrent(s: State, ticks: nat, indefinitely: bool): State {
    var s1 := Unlink(s, s.current);
    if ticks == MAX_DELAY && indefinitely then Link(s1, s.current, Suspended)
    else AddToDelayedList(s1, s.current, ticks)
  }

  /** vTaskPlaceOnEventList. */
  function PlaceOnEventList(s: State, ticks: nat): State {
    DelayCurrent(s.(onEvent := s.onEvent + {s.current}), ticks, true)
  }

  /** xTaskRemoveFromEventList, t being the owner of the head entry. */
  function RemoveFromEventList(s: State, t: Task): State {
    var s1 := s.(onEvent := s.onEvent - {t});
    var s2 := if s.suspended == 0 then MakeReady(s1, t) else s1.(pending := s.pending + [t]);
    s2.(yieldPending := s.yieldPending || s.TcbOf(t).priority > s.TcbOf(s.current).priority)
  }

  /** prvAddNewTaskToReadyList once the scheduler runs. */
  function CreateTask(s: State, t: Task, priority: nat): State {
    var s1 := AddToReadyList(s.(tcbs := s.tcbs[t := Tcb(priority, priority, 0, Nowhere)], numTasks := s.numTasks + 1),
      t);
    if s.TcbOf(s.current).priority < priority then SwitchContext(s1) else s1
  }

  function LeaveEventLists(s: State, t: Task): State {
    s.(onEvent := s.onEvent - {t}, pending := Without(s.pending, t))
  }

  /** vTaskSuspend. */
  function SuspendTask(s: State, t: Task): State {
    var s1 := ResetNextUnblock(Link(LeaveEventLists(Unlink(s, t), t), t, Suspended));
    if t == s.current then SwitchContext(s1) else s1
  }

  /** prvTaskIsTaskSuspended. */
  predicate IsTaskSuspended(s: State, t: Task) {
    s.TcbOf(t).place == Suspended && t !in s.pending && t !in s.onEvent
  }

  /** vTaskResume. */
  function ResumeTask(s: State, t: Task): State {
    if t == s.current || !IsTaskSuspended(s, t) then s
    else
      var s1 := MakeReady(s, t);
      if s.TcbOf(t).priority >= s.TcbOf(s.current).priority then SwitchContext(s1) else s1
  }

  /** vTaskDelete. */
  function DeleteTask(s: State, t: Task): State {
    var s1 := LeaveEventLists(Unlink(s, t), t);
    if t == s.current then SwitchContext(Link(s1, t, Termination))
    else ResetNextUnblock(Forget(s1, t))
  }

  /** The TCB is freed. */
  function Forget(s: State, t: Task): State {
    s.(tcbs := s.tcbs - {t}, numTasks := if s.numTasks == 0 then 0 else s.numTasks - 1)
  }

  /** prvCheckTasksWaitingTermination, for the head of the termination list. */
  function CleanUpTask(s: State): State
    requires s.ListAt(Termination).items != []
  {
    var t := s.ListAt(Termination).items[0];
    Forget(Unlink(s, t), t)
  }

  /** t gets a control block with other priorities; in its ready list it moves. */
  function Reprioritise(s: State, t: Task, tcb: Tcb): State {
    if s.TcbOf(t).place == Ready(s.TcbOf(t).priority)
    then AddToReadyList(SetTcb(Unlink(s, t), t, tcb.(place := Nowhere)), t)
    else SetTcb(s, t, tcb)
  }

  /** vTaskPrioritySet: an inherited priority stays, the base priority changes whatever. */
  function PrioritySet(s: State, t: Task, priority: nat): State {
    var tcb := s.TcbOf(t);
    if tcb.base == priority then s
    else
      var tcb' := tcb.(base := priority, priority := if tcb.base == tcb.priority then priority else tcb.priority);
      var s1 := Reprioritise(s, t, tcb');
      var yieldRequired := if priority > tcb.base then t != s.current && priority >= s.TcbOf(s.current).priority
                           else t == s.current;
      if yieldRequired then SwitchContext(s1) else s1
  }
}
