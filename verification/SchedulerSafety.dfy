/** Every operation of the scheduler keeps its invariant. */
module SchedulerSafety {
  import opened Common
  import opened Rings
  import opened SchedulerState
  import opened SchedulerOps
  import opened SchedulerTicks

  lemma BaseFrame(s: State, r: State)
    requires Base(s)
    requires r == s.(yieldPending := r.yieldPending, suspended := r.suspended, pendedTicks := r.pendedTicks,
      interrupts := r.interrupts)
    ensures Base(r)
  {
    hide Linked, ReadyOk, DeadlinesOk, SortedLists;
    CoreFrame(s, r);
  }

  lemma MakeReadyBase(s: State, t: Task)
    requires Base(s) && t in s.tcbs
    ensures Base(MakeReady(s, t))
    ensures var r := MakeReady(s, t);
      && r == s.(tcbs := r.tcbs, lists := r.lists, topReady := r.topReady)
      && r.tcbs == s.tcbs[t := s.tcbs[t].(place := Ready(s.tcbs[t].priority))]
  {
    hide Core, MakeReady, NoneDue, TasksOk;
    Placed(s, t);
    MakeReadyCore(s, t);
    NoneDueReady(s, t, MakeReady(s, t));
    TasksReady(s, t, MakeReady(s, t));
  }

  lemma Placed(s: State, t: Task)
    requires TasksOk(s) && t in s.tcbs
    ensures s.tcbs[t].place != Nowhere
  {
  }

  lemma NoneDueReady(s: State, t: Task, r: State)
    requires NoneDue(s) && t in s.tcbs
    requires r == s.(tcbs := r.tcbs, lists := r.lists, topReady := r.topReady)
    requires r.tcbs == s.tcbs[t := s.tcbs[t].(place := Ready(s.tcbs[t].priority))]
    ensures NoneDue(r)
  {
  }

  lemma TasksReady(s: State, t: Task, r: State)
    requires TasksOk(s) && t in s.tcbs
    requires r == s.(tcbs := r.tcbs, lists := r.lists, topReady := r.topReady)
    requires r.tcbs == s.tcbs[t := s.tcbs[t].(place := Ready(s.tcbs[t].priority))]
    ensures TasksOk(r)
  {
    assert r.tcbs.Keys == s.tcbs.Keys;
  }

  lemma LeaveEventsBase(s: State, onEvent: set<Task>, pending: seq<Task>)
    requires Base(s) && onEvent <= s.onEvent && Distinct(pending)
    requires forall t :: t in pending ==> t in s.tcbs && t != s.idle && t !in onEvent
    ensures Base(s.(onEvent := onEvent, pending := pending))
  {
    hide Linked, ReadyOk, DeadlinesOk, SortedLists;
    CoreFrame(s, s.(onEvent := onEvent, pending := pending));
  }

  /** The pending tasks have become ready, in state r. */
  ghost predicate Drained(s: State, r: State) {
    && r.pending == [] && r.tcbs.Keys == s.tcbs.Keys
    && r == s.(tcbs := r.tcbs, lists := r.lists, topReady := r.topReady, yieldPending := r.yieldPending, pending := [])
    && forall t :: t in s.tcbs ==>
         r.tcbs[t] == if t in s.pending then s.tcbs[t].(place := Ready(s.tcbs[t].priority)) else s.tcbs[t]
  }

  lemma {:induction false} DrainBase(s: State)
    requires Base(s)
    ensures Base(DrainPending(s)) && Drained(s, DrainPending(s))
    decreases |s.pending|
  {
    hide Base, DrainStep, Drained;
    if s.pending == [] {
      NothingDrained(s);
    } else {
      DrainOne(s);
      DrainBase(DrainStep(s));
      DrainedChain(s, DrainStep(s), DrainPending(s));
    }
  }

  lemma NothingDrained(s: State)
    requires s.pending == []
    ensures Drained(s, s)
  {
  }

  lemma DrainedChain(s: State, s1: State, r: State)
    requires s.pending != [] && s.pending[0] in s.tcbs && Drained(s1, r)
    requires s1 == s.(tcbs := s1.tcbs, lists := s1.lists, topReady := s1.topReady, yieldPending := s1.yieldPending,
      pending := s.pending[1..])
    requires var t := s.pending[0]; s1.tcbs == s.tcbs[t := s.tcbs[t].(place := Ready(s.tcbs[t].priority))]
    ensures Drained(s, r)
  {
    assert s.pending == [s.pending[0]] + s.pending[1..];
    assert s1.tcbs.Keys == s.tcbs.Keys;
  }

  lemma DrainOne(s: State)
    requires Base(s) && s.pending != []
    ensures var (r, t) := (DrainStep(s), s.pending[0]);
      && Base(r) && t in s.tcbs
      && r == s.(tcbs := r.tcbs, lists := r.lists, topReady := r.topReady, yieldPending := r.yieldPending,
        pending := s.pending[1..])
      && r.tcbs == s.tcbs[t := s.tcbs[t].(place := Ready(s.tcbs[t].priority))]
  {
    hide Base, MakeReady;
    var t := s.pending[0];
    var s0 := s.(pending := s.pending[1..]);
    DropFirstPending(s);
    MakeReadyBase(s0, t);
    BaseFrame(MakeReady(s0, t), DrainStep(s));
  }

  lemma DropFirstPending(s: State)
    requires Base(s) && s.pending != []
    ensures Base(s.(pending := s.pending[1..])) && s.pending[0] in s.tcbs
  {
    hide Core, NoneDue, TasksOk;
    assert forall u :: u in s.pending[1..] ==> u in s.pending;
    IdleIsTask(s);
    LeaveEventsBase(s, s.onEvent, s.pending[1..]);
  }

  lemma IdleIsTask(s: State)
    requires TasksOk(s)
    ensures s.idle in s.tcbs
  {
  }

  /** n pended ticks are n ticks. */
  ghost predicate TicksDone(s: State, n: nat, r: State) {
    && Base(r) && r.Now() == s.Now() + n && WokenBy(s, r, r.Now())
    && r == s.(tcbs := r.tcbs, lists := r.lists, topReady := r.topReady, nextUnblock := r.nextUnblock,
      onEvent := r.onEvent,
         tick := r.tick, overflows := r.overflows, delayed := r.delayed, yieldPending := r.yieldPending)
  }

  lemma {:induction false} TicksBase(s: State, n: nat)
    requires Base(s) && s.suspended == 0 && s.pending == []
    ensures TicksDone(s, n, ProcessTicks(s, n))
    decreases n
  {
    hide Base, WokenBy, ProcessTick;
    if n == 0 {
      NoTicks(s);
    } else {
      TickWakesOnTime(s);
      var r := ProcessTick(s);
      var s1 := r.state.(yieldPending := r.state.yieldPending || r.switchRequired);
      BaseFrame(r.state, s1);
      TicksBase(s1, n - 1);
      TicksChain(s, r.state, s1, ProcessTicks(s, n));
    }
  }

  lemma NoTicks(s: State)
    requires Base(s)
    ensures WokenBy(s, s, s.Now())
  {
    DeadlinesAhead(s);
  }

  lemma TicksChain(s: State, r1: State, s1: State, r: State)
    requires Base(s) && WokenBy(s, r1, r1.Now()) && WokenBy(s1, r, r.Now()) && r1.Now() <= r.Now()
    requires s1 == r1.(yieldPending := s1.yieldPending) && s1.deadline == s.deadline
    ensures WokenBy(s, r, r.Now())
  {
    hide Base;
  }

  // ---- vTaskSwitchContext ----

  /** A task is picked that no ready task outranks. */
  ghost predicate RunsHighest(s: State) {
    && s.current in s.tcbs && s.tcbs[s.current].place.Ready?
    && forall t :: t in s.tcbs && s.tcbs[t].place.Ready? ==> s.tcbs[t].priority <= s.tcbs[s.current].priority
  }

  lemma TopIsHighest(s: State)
    requires Base(s)
    ensures var p := TopNonEmpty(s, s.topReady);
      && p < MAX_PRIORITIES && Ready(p) in s.lists && s.lists[Ready(p)].Valid() && s.lists[Ready(p)].items != []
      && (forall t :: t in s.tcbs && s.tcbs[t].place.Ready? ==> s.tcbs[t].priority <= p)
      && (forall t :: t in s.lists[Ready(p)].items ==>
        t in s.tcbs && s.tcbs[t].place == Ready(p) && s.tcbs[t].priority == p)
  {
    hide TimesOk, SortedLists, NoneDue, EventsOk, Ring.Valid;
    var p := TopNonEmpty(s, s.topReady);
    forall t | t in s.tcbs && s.tcbs[t].place.Ready?
      ensures s.tcbs[t].priority <= p && (p == 0 ==> s.tcbs[t].place == Ready(0))
    {
      assert t in s.lists[s.tcbs[t].place].items;
    }
    assert s.tcbs[s.idle].place.Ready?;
  }

  /** The running task is the next one in its ready list. */
  ghost predicate PicksNext(s: State, r: State) {
    var ring := s.ListAt(Ready(r.topReady));
    && ring.items != [] && -1 <= ring.index < |ring.items|
    && r.lists == s.lists[Ready(r.topReady) := ring.Next()] && r.current == ring.Next().Current()
  }

  /** With the scheduler running, a context switch picks a task of the highest priority
      that has a ready task: the next one in that priority's ready list. */
  lemma SwitchPicksHighest(s: State)
    requires Base(s) && s.suspended == 0
    ensures var r := SwitchContext(s);
      && Base(r) && RunsHighest(r) && !r.yieldPending
      && r == s.(yieldPending := false, topReady := r.topReady, lists := r.lists, current := r.current)
      && r.topReady == r.TcbOf(r.current).priority && PicksNext(s, r)
  {
    hide Base, TopNonEmpty;
    TopIsHighest(s);
    var p := TopNonEmpty(s, s.topReady);
    SwitchBase(s, p, SwitchContext(s));
  }

  lemma SwitchBase(s: State, p: nat, r: State)
    requires Base(s) && p < MAX_PRIORITIES && Ready(p) in s.lists && s.lists[Ready(p)].Valid()
      && s.lists[Ready(p)].items != []
    requires forall t :: t in s.tcbs && s.tcbs[t].place.Ready? ==> s.tcbs[t].priority <= p
    requires r == s.(yieldPending := false, topReady := p, lists := s.lists[Ready(p) := s.lists[Ready(p)].Next()],
      current := s.lists[Ready(p)].Next().Current())
    ensures Base(r) && r.current in s.lists[Ready(p)].items && r.current in s.tcbs
      && s.tcbs[r.current].place == Ready(p)
  {
    hide Linked, ReadyOk, DeadlinesOk, SortedLists;
    SwitchLinked(s, p, r);
    DeadlinesFrame(s, r);
  }

  lemma SwitchLinked(s: State, p: nat, r: State)
    requires Linked(s) && ReadyOk(s) && SortedLists(s)
    requires p < MAX_PRIORITIES && Ready(p) in s.lists && s.lists[Ready(p)].Valid() && s.lists[Ready(p)].items != []
    requires forall t :: t in s.tcbs && s.tcbs[t].place.Ready? ==> s.tcbs[t].priority <= p
    requires r.tcbs == s.tcbs && r.delayed == s.delayed && r.topReady == p
    requires r.lists == s.lists[Ready(p) := s.lists[Ready(p)].Next()] && r.current == s.lists[Ready(p)].Next().Current()
    ensures Linked(r) && ReadyOk(r) && SortedLists(r)
    ensures r.current in s.lists[Ready(p)].items && r.current in s.tcbs && s.tcbs[r.current].place == Ready(p)
  {
  }
  /** While the scheduler is suspended the switch is only noted. */
  lemma SwitchInv(s: State)
    requires Inv(s)
    ensures var r := SwitchContext(s);
      Inv(r) && r == s.(yieldPending := r.yieldPending, topReady := r.topReady, lists := r.lists, current := r.current)
  {
    hide Base, TopNonEmpty;
    if s.suspended == 0 {
      SwitchPicksHighest(s);
      SwitchNow(s);
    } else {
      BaseFrame(s, SwitchContext(s));
    }
  }

  lemma SwitchNow(s: State)
    ensures SwitchContext(s).Now() == s.Now()
  {
  }

  // ---- xTaskResumeAll ----

  lemma ResetBase(s: State)
    requires Base(s)
    ensures Base(ResetNextUnblock(s))
  {
    hide Linked, ReadyOk, DeadlinesOk, UnblockOk, SortedLists, HeadWake;
    ResetCore(s);
  }

  lemma ResumedBase(s: State)
    requires Base(s)
    ensures Base(Resumed(s)) && Resumed(s).pending == [] && Resumed(s).suspended == 0
    ensures Drained(s.(suspended := 0), DrainPending(s.(suspended := 0)))
  {
    hide Base, ResetNextUnblock;
    BaseFrame(s, s.(suspended := 0));
    DrainBase(s.(suspended := 0));
    ResetBase(DrainPending(s.(suspended := 0)));
    ResetKeeps(DrainPending(s.(suspended := 0)));
  }

  lemma ResetKeeps(s: State)
    ensures ResetNextUnblock(s) == s.(nextUnblock := ResetNextUnblock(s).nextUnblock)
  {
  }

  /** Resuming moves the pending tasks, then catches up: afterwards every tick interrupt
      has been processed, and exactly the tasks whose deadline has come are ready. */
  lemma CaughtUpInv(s: State)
    requires Inv(s) && s.suspended == 1
    ensures Inv(CaughtUp(s)) && CaughtUp(s).suspended == 0 && CaughtUp(s).Now() == s.interrupts
    ensures forall t :: t in s.tcbs && t !in s.pending ==>
      t in CaughtUp(s).tcbs && CaughtUp(s).tcbs[t] == AtTime(s, t, s.interrupts)
  {
    hide Base, ProcessTicks, Resumed;
    ResumedBase(s);
    TicksBase(Resumed(s), s.pendedTicks);
    BaseFrame(ProcessTicks(Resumed(s), s.pendedTicks), CaughtUp(s));
    ResumedKeeps(s);
  }

  lemma ResumedKeeps(s: State)
    requires Base(s)
    ensures var r := Resumed(s);
      && r == s.(tcbs := r.tcbs, lists := r.lists, topReady := r.topReady, yieldPending := r.yieldPending,
        pending := [],
           suspended := 0, nextUnblock := r.nextUnblock)
      && forall t :: t in s.tcbs && t !in s.pending ==> t in r.tcbs && r.tcbs[t] == s.tcbs[t]
  {
    hide Base, DrainPending, HeadWake;
    ResumedBase(s);
  }

  lemma ResumeAllInv(s: State)
    requires Inv(s) && s.suspended > 0
    ensures Inv(ResumeAll(s))
  {
    hide Base, CaughtUp, SwitchContext;
    SomeTask(s);
    if s.suspended > 1 {
      BaseFrame(s, s.(suspended := s.suspended - 1));
    } else {
      CaughtUpInv(s);
      SwitchInv(CaughtUp(s));
    }
  }

  lemma SomeTask(s: State)
    requires Base(s)
    ensures s.numTasks > 0
  {
    hide Core, NoneDue, EventsOk;
    assert s.idle in s.tcbs.Keys;
  }
}
