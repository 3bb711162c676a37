/** What the scheduler invariant means for a task, for the lists and for the processor. */
module SchedulerTheorems {
  import opened Common
  import opened Rings
  import opened SchedulerState
  import opened SchedulerOps
  import opened SchedulerTicks
  import opened SchedulerSafety
  import opened SchedulerTasks
  import opened SchedulerRuns

  // ---- a start state ----

  function AllPlaces(): set<Place> {
    (set n | 0 <= n < MAX_PRIORITIES :: Ready(n)) + {Delayed(0), Delayed(1), Suspended, Termination}
  }

  /** The scheduler as vTaskStartScheduler leaves it when only the idle task exists. */
  function Initial(idle: Task): State {
    State(tcbs := map[idle := Tcb(0, 0, 0, Ready(0))],
          lists := (map p | p in AllPlaces() :: Ring([], -1))[Ready(0) := Ring([idle], -1)],
          delayed := 0, pending := [], onEvent := {}, current := idle, idle := idle, tick := 0,
          nextUnblock := MAX_DELAY, suspended := 0, pendedTicks := 0, yieldPending := false, topReady := 0,
          numTasks := 1, overflows := 0, deadline := map[], interrupts := 0)
  }

  lemma InitialInv(idle: Task)
    ensures Inv(Initial(idle))
  {
    hide Linked;
    InitialLinked(idle);
  }

  lemma InitialLinked(idle: Task)
    ensures Linked(Initial(idle))
  {
  }

  // ---- delays end on time ----

  /** e acts on t from outside, other than by the passing of time. */
  predicate Disturbs(e: Event, t: Task) {
    match e
    case EventHappened(u) => u == t
    case SuspendOther(u) => u == t
    case Delete(u) => u == t
    case Create(u, _) => u == t
    case _ => false
  }

  /** t is blocked with absolute deadline wakeTime. */
  ghost predicate Sleeping(s: State, t: Task, wakeTime: nat) {
    && t in s.tcbs && s.tcbs[t].place.Delayed? && t in s.deadline && s.deadline[t] == wakeTime && t !in s.pending
  }

  /** t sleeps until wakeTime, and is ready from the moment it is reached. */
  ghost predicate SleepsUntil(s: State, t: Task, wakeTime: nat) {
    if s.Now() < wakeTime then Sleeping(s, t, wakeTime) else t in s.tcbs && s.tcbs[t].place.Ready?
  }

  lemma OthersKept(s: State, e: Event, t: Task, wakeTime: nat)
    requires Inv(s) && Enabled(s, e) && Sleeping(s, t, wakeTime) && !Disturbs(e, t)
    requires !e.TickInterrupt? && !e.Resume?
    ensures Step(s, e).Now() == s.Now() && Sleeping(Step(s, e), t, wakeTime)
  {
    hide Inv, Sleeping, Step, Enabled, Disturbs;
    match e {
      case Suspend => SwitchKeeps(s, e, t, wakeTime);
      case Switch => SwitchKeeps(s, e, t, wakeTime);
      case Delay(_) => BlockKeeps(s, e, t, wakeTime);
      case WaitForEvent(_) => BlockKeeps(s, e, t, wakeTime);
      case EventHappened(_) => EventKeeps(s, e, t, wakeTime);
      case Create(_, _) => CreateKeeps(s, e, t, wakeTime);
      case SetPriority(_, _) => PriorityKeeps(s, e, t, wakeTime);
      case SuspendOther(_) => SuspendKeeps(s, e, t, wakeTime);
      case ResumeOther(_) => EventKeeps(s, e, t, wakeTime);
      case Delete(_) => DeleteKeeps(s, e, t, wakeTime);
      case CleanUp => DeleteKeeps(s, e, t, wakeTime);
    }
  }

  lemma SwitchKeeps(s: State, e: Event, t: Task, wakeTime: nat)
    requires Inv(s) && Enabled(s, e) && Sleeping(s, t, wakeTime) && !Disturbs(e, t)
    requires e.Suspend? || e.Switch?
    ensures Step(s, e).Now() == s.Now() && Sleeping(Step(s, e), t, wakeTime)
  {
    hide Base, PositionFor, TopNonEmpty, HeadWake;
  }

  lemma BlockKeeps(s: State, e: Event, t: Task, wakeTime: nat)
    requires Inv(s) && Enabled(s, e) && Sleeping(s, t, wakeTime) && !Disturbs(e, t)
    requires e.Delay? || e.WaitForEvent?
    ensures Step(s, e).Now() == s.Now() && Sleeping(Step(s, e), t, wakeTime)
  {
    hide Base, DelayCurrent, Sleeping;
    var (s1, ticks) := (if e.Delay? then s else s.(onEvent := s.onEvent + {s.current}), e.ticks);
    EventTasks(s);
    EventsBase(s, s1.onEvent);
    DelayChanges(s1, ticks, e.WaitForEvent?);
    OtherSleeps(s, Step(s, e), t, wakeTime);
  }

  /** Only the running task's control block and deadline change. */
  lemma DelayChanges(s: State, ticks: nat, indefinitely: bool)
    requires Base(s) && s.current != s.idle && 0 < ticks < TICK_MODULUS
    ensures var r := DelayCurrent(s, ticks, indefinitely);
      && s.current in r.tcbs && r.tcbs == s.tcbs[s.current := r.tcbs[s.current]] && r.pending == s.pending
        && r.Now() == s.Now()
      && r.deadline == if s.current in r.deadline then s.deadline[s.current := r.deadline[s.current]] else s.deadline
  {
    hide Base, Link, Unlink, AddToDelayedList;
    CurrentIsTask(s);
    if ticks == MAX_DELAY && indefinitely {
      MoveCore(s, s.current, Suspended);
      if s.current in s.deadline { Overwriting(s.deadline, s.current); }
    } else {
      TimedDelayBase(s, s.current, ticks);
    }
  }

  lemma Overwriting<K, V>(m: map<K, V>, k: K)
    requires k in m
    ensures m[k := m[k]] == m
  {
  }

  lemma OtherSleeps(s: State, r: State, t: Task, wakeTime: nat)
    requires Sleeping(s, t, wakeTime) && s.current in s.tcbs && s.tcbs[s.current].place.Ready? && s.current in r.tcbs
    requires r.tcbs == s.tcbs[s.current := r.tcbs[s.current]] && r.pending == s.pending
    requires r.deadline == if s.current in r.deadline then s.deadline[s.current := r.deadline[s.current]]
      else s.deadline
    ensures Sleeping(r, t, wakeTime)
  {
  }

  lemma EventKeeps(s: State, e: Event, t: Task, wakeTime: nat)
    requires Inv(s) && Enabled(s, e) && Sleeping(s, t, wakeTime) && !Disturbs(e, t)
    requires e.EventHappened? || e.ResumeOther?
    ensures Step(s, e).Now() == s.Now() && Sleeping(Step(s, e), t, wakeTime)
  {
    hide Base, MakeReady, SwitchContext, Inv;
    assert Base(s) by { InvBase(s); }
    SleeperInList(s, t, wakeTime);
    if e.EventHappened? {
      WaiterFacts(s, e.task);
      EventsBase(s, s.onEvent - {e.task});
      if s.suspended == 0 { MakeReadyBase(s.(onEvent := s.onEvent - {e.task}), e.task); }
    } else if e.task != s.current && IsTaskSuspended(s, e.task) {
      MakeReadyBase(s, e.task);
      SwitchOnlyPicks(MakeReady(s, e.task));
    }
  }

  lemma InvBase(s: State)
    requires Inv(s)
    ensures Base(s)
  {
    hide Base;
  }

  /** A sleeping task is not suspended. */
  lemma SleeperInList(s: State, t: Task, wakeTime: nat)
    requires Sleeping(s, t, wakeTime)
    ensures t in s.tcbs && s.tcbs[t].place != Suspended
  {
  }

  lemma CreateKeeps(s: State, e: Event, t: Task, wakeTime: nat)
    requires Inv(s) && Enabled(s, e) && Sleeping(s, t, wakeTime) && !Disturbs(e, t)
    requires e.Create?
    ensures Step(s, e).Now() == s.Now() && Sleeping(Step(s, e), t, wakeTime)
  {
    hide Base, PositionFor, TopNonEmpty, HeadWake;
  }

  lemma SwitchOnlyPicks(s: State)
    ensures var c := SwitchContext(s);
      c.tcbs == s.tcbs && c.deadline == s.deadline && c.pending == s.pending && c.Now() == s.Now()
  {
    hide TopNonEmpty, Ring.Next;
  }

  lemma PriorityKeeps(s: State, e: Event, t: Task, wakeTime: nat)
    requires Inv(s) && Enabled(s, e) && Sleeping(s, t, wakeTime) && !Disturbs(e, t)
    requires e.SetPriority?
    ensures Step(s, e).Now() == s.Now() && Sleeping(Step(s, e), t, wakeTime)
  {
    hide Base, Reprioritise, SwitchContext, Sleeping;
    TcbFacts(s, e.task);
    if s.tcbs[e.task].base != e.priority {
      var tcb := Reprioritised(s.tcbs[e.task], e.priority);
      PrioritySetBase(s, e.task, tcb);
      ReprioritisedTcbs(s, e.task, tcb);
      SwitchOnlyPicks(Reprioritise(s, e.task, tcb));
      PlaceKept(s, Step(s, e), e.task, t, wakeTime);
    }
  }

  /** Changing priorities leaves every task where it is, but for a ready one, which stays ready. */
  lemma ReprioritisedTcbs(s: State, t: Task, tcb: Tcb)
    requires t in s.tcbs && tcb.place == s.tcbs[t].place
    ensures var r := Reprioritise(s, t, tcb);
      && r.tcbs.Keys == s.tcbs.Keys && (forall u :: u in s.tcbs && u != t ==> r.tcbs[u] == s.tcbs[u])
      && r.tcbs[t].wake == tcb.wake && (!tcb.place.Ready? ==> r.tcbs[t].place == tcb.place)
  {
    hide PositionFor, Ring.Remove, Ring.InsertAt;
  }

  lemma PlaceKept(s: State, r: State, u: Task, t: Task, wakeTime: nat)
    requires Sleeping(s, t, wakeTime) && u in s.tcbs && r.tcbs.Keys == s.tcbs.Keys
    requires forall v :: v in s.tcbs && v != u ==> r.tcbs[v] == s.tcbs[v]
    requires !s.tcbs[u].place.Ready? ==> r.tcbs[u].place == s.tcbs[u].place
    requires r.deadline == s.deadline && r.pending == s.pending
    ensures Sleeping(r, t, wakeTime)
  {
  }

  lemma SuspendKeeps(s: State, e: Event, t: Task, wakeTime: nat)
    requires Inv(s) && Enabled(s, e) && Sleeping(s, t, wakeTime) && !Disturbs(e, t)
    requires e.SuspendOther?
    ensures Step(s, e).Now() == s.Now() && Sleeping(Step(s, e), t, wakeTime)
  {
    hide Base, PositionFor, TopNonEmpty, HeadWake;
    WithoutOther(s, e, t);
  }

  lemma DeleteKeeps(s: State, e: Event, t: Task, wakeTime: nat)
    requires Inv(s) && Enabled(s, e) && Sleeping(s, t, wakeTime) && !Disturbs(e, t)
    requires e.Delete? || e.CleanUp?
    ensures Step(s, e).Now() == s.Now() && Sleeping(Step(s, e), t, wakeTime)
  {
    hide Inv, Sleeping, DeleteTask, CleanUpTask;
    if e.Delete? { RemovalKeeps(s, e, t, wakeTime); } else { CleanUpKeeps(s, t, wakeTime); }
  }

  lemma RemovalKeeps(s: State, e: Event, t: Task, wakeTime: nat)
    requires Inv(s) && Enabled(s, e) && Sleeping(s, t, wakeTime) && !Disturbs(e, t) && e.Delete?
    ensures Step(s, e).Now() == s.Now() && Sleeping(Step(s, e), t, wakeTime)
  {
    hide Base, PositionFor, SwitchContext, HeadWake, Ring.Remove, Ring.InsertAt;
    WithoutOther(s, e, t);
    forall r: State
      ensures var c := SwitchContext(r);
        c.tcbs == r.tcbs && c.deadline == r.deadline && c.pending == r.pending && c.Now() == r.Now()
    {
      SwitchOnlyPicks(r);
    }
  }

  lemma CleanUpKeeps(s: State, t: Task, wakeTime: nat)
    requires Inv(s) && s.ListAt(Termination).items != [] && Sleeping(s, t, wakeTime)
    ensures CleanUpTask(s).Now() == s.Now() && Sleeping(CleanUpTask(s), t, wakeTime)
  {
    hide Base, Ring.Remove;
    TerminatedPlace(s);
  }

  lemma WithoutOther(s: State, e: Event, t: Task)
    requires t !in s.pending
    ensures e.SuspendOther? ==> t !in Without(s.pending, e.task)
    ensures e.Delete? ==> t !in Without(s.pending, e.task)
  {
    if e.SuspendOther? || e.Delete? {
      WithoutSubset(s.pending, e.task);
    }
  }

  lemma WithoutSubset<T>(s: seq<T>, x: T)
    ensures forall y :: y in Without(s, x) ==> y in s
  {
  }

  lemma TerminatedPlace(s: State)
    requires Base(s) && s.ListAt(Termination).items != []
    ensures var t := s.ListAt(Termination).items[0]; t in s.tcbs && s.tcbs[t].place == Termination
  {
    hide TimesOk, SortedLists, ReadyOk, EventsOk, NoneDue, TasksOk;
    FirstMember(s.ListAt(Termination).items);
  }

  lemma TickKeepsSleeper(s: State, t: Task, wakeTime: nat)
    requires Inv(s) && Sleeping(s, t, wakeTime)
    ensures SleepsUntil(Step(s, TickInterrupt), t, wakeTime)
  {
    hide Base, ProcessTick;
    var s1 := s.(interrupts := s.interrupts + 1);
    BaseFrame(s, s1);
    DeadlinesAhead(s);
    if s.suspended == 0 {
      TickWakesOnTime(s1);
    }
  }

  lemma ResumeKeepsSleeper(s: State, t: Task, wakeTime: nat)
    requires Inv(s) && s.suspended > 0 && Sleeping(s, t, wakeTime)
    ensures SleepsUntil(ResumeAll(s), t, wakeTime)
  {
    hide Base, CaughtUp, SwitchContext;
    DeadlinesAhead(s);
    SomeTask(s);
    if s.suspended == 1 {
      CaughtUpInv(s);
      CaughtUpKeeps(s);
      SwitchInv(CaughtUp(s));
    }
  }

  lemma CaughtUpKeeps(s: State)
    requires Inv(s) && s.suspended == 1
    ensures CaughtUp(s).deadline == s.deadline && CaughtUp(s).pending == []
  {
    hide Base, Resumed, ProcessTicks;
    ResumedBase(s);
    ResumedKeeps(s);
    TicksBase(Resumed(s), s.pendedTicks);
  }

  lemma StepKeepsSleeper(s: State, e: Event, t: Task, wakeTime: nat)
    requires Inv(s) && Enabled(s, e) && Sleeping(s, t, wakeTime) && !Disturbs(e, t)
    ensures SleepsUntil(Step(s, e), t, wakeTime)
  {
    hide Inv, Sleeping, IncrementTick, ResumeAll, SwitchContext, DelayCurrent, PlaceOnEventList, RemoveFromEventList,
      CreateTask, SuspendTask, ResumeTask, DeleteTask, PrioritySet, CleanUpTask;
    match e {
      case TickInterrupt => TickKeepsSleeper(s, t, wakeTime);
      case Resume => ResumeKeepsSleeper(s, t, wakeTime);
      case _ =>
        OthersKept(s, e, t, wakeTime);
        SleeperAhead(s, t, wakeTime);
    }
  }

  lemma SleeperAhead(s: State, t: Task, wakeTime: nat)
    requires Inv(s) && Sleeping(s, t, wakeTime)
    ensures s.Now() < wakeTime
  {
    hide Base;
    DeadlinesAhead(s);
  }

  /** In every run, a task blocked until absolute time wakeTime that nothing else acts on
      is on a delayed list exactly as long as the processed time is before wakeTime, and
      ready in the first state in which it is not: through the wrap of the tick count,
      suspensions of the scheduler and the ticks pended meanwhile. */
  lemma {:induction false} DelayEndsOnTime(states: seq<State>, events: seq<Event>, t: Task, wakeTime: nat, k: nat)
    requires Run(states, events) && Inv(states[0]) && Sleeping(states[0], t, wakeTime) && k < |states|
    requires forall i :: 0 <= i < |events| ==> !Disturbs(events[i], t)
    requires forall i :: 0 <= i < k ==> states[i].Now() < wakeTime
    ensures SleepsUntil(states[k], t, wakeTime)
    decreases k
  {
    hide Inv, Step, Enabled, Sleeping;
    if k > 0 {
      DelayEndsOnTime(states, events, t, wakeTime, k - 1);
      RunInv(states, events, k - 1);
      StepKeepsSleeper(states[k - 1], events[k - 1], t, wakeTime);
    } else {
      SleeperAhead(states[0], t, wakeTime);
    }
  }

  lemma DelaySleeps(s: State, ticks: nat, indefinitely: bool)
    requires Base(s) && s.current != s.idle && 0 < ticks < TICK_MODULUS
    ensures var r := DelayCurrent(s, ticks, indefinitely);
      && Base(r) && r.current == s.current && r.idle == s.idle && r.pending == s.pending && r.Now() == s.Now()
      && if ticks == MAX_DELAY && indefinitely then r.TcbOf(s.current).place == Suspended
         else s.current !in s.pending ==> Sleeping(r, s.current, s.Now() + ticks)
  {
    hide Base, Link, Unlink, AddToDelayedList;
    CurrentIsTask(s);
    DelayBase(s, ticks, indefinitely);
    if ticks == MAX_DELAY && indefinitely { MoveCore(s, s.current, Suspended); }
    else { TimedDelayBase(s, s.current, ticks); }
  }

  lemma WaitSleeps(s: State, ticks: nat)
    requires Inv(s) && CanBlock(s) && 0 < ticks < TICK_MODULUS
    ensures var r := PlaceOnEventList(s, ticks);
      && r.current == s.current && r.Now() == s.Now() && s.current in r.onEvent
      && if ticks == MAX_DELAY then r.TcbOf(s.current).place == Suspended else Sleeping(r, s.current, s.Now() + ticks)
  {
    hide Base, DelayCurrent;
    EventTasks(s);
    EventsBase(s, s.onEvent + {s.current});
    var s1 := s.(onEvent := s.onEvent + {s.current});
    DelaySleeps(s1, ticks, true);
    DelayBase(s1, ticks, true);
  }

  /** A delay of n ticks ends n ticks later: in every run that begins with it, the task is
      asleep as long as the processed time is before then, and ready in the first state in
      which it is not, if nothing else acts on it. */
  lemma DelayLasts(states: seq<State>, events: seq<Event>, ticks: nat, k: nat)
    requires Run(states, events) && Inv(states[0]) && 1 <= k < |states| && events[0] == Delay(ticks)
    requires forall i :: 1 <= i < |events| ==> !Disturbs(events[i], states[0].current)
    requires forall i :: 1 <= i < k ==> states[i].Now() < states[0].Now() + ticks
    ensures SleepsUntil(states[k], states[0].current, states[0].Now() + ticks)
  {
    hide Inv, Enabled, Sleeping, Disturbs, Step;
    DelayStarts(states[0], ticks);
    RunInv(states, events, 1);
    var (later, rest) := (states[1..], events[1..]);
    assert Run(later, rest);
    assert later[k - 1] == states[k];
    DelayEndsOnTime(later, rest, states[0].current, states[0].Now() + ticks, k - 1);
  }

  lemma DelayStarts(s: State, ticks: nat)
    requires Inv(s) && Enabled(s, Delay(ticks))
    ensures Sleeping(Step(s, Delay(ticks)), s.current, s.Now() + ticks)
  {
    hide Base, Sleeping, DelayCurrent;
    DelaySleeps(s, ticks, false);
  }

  // ---- round robin ----

  /** n context switches in a row, and the tasks they run. */
  function Switches(s: State, n: nat): State
    decreases n
  {
    if n == 0 then s else Switches(SwitchContext(s), n - 1)
  }

  function Runs(s: State, n: nat): seq<Task>
    decreases n
  {
    if n == 0 then [] else [SwitchContext(s).current] + Runs(SwitchContext(s), n - 1)
  }

  /** The ready list a context switch would pick from. */
  function TopList(s: State): Ring<Task> {
    s.ListAt(Ready(TopNonEmpty(s, s.topReady)))
  }

  lemma SwitchTurnsTopList(s: State)
    requires Base(s) && s.suspended == 0
    ensures TopList(s).Valid() && TopList(s).items != []
    ensures TopList(SwitchContext(s)) == TopList(s).Next() && SwitchContext(s).current == TopList(s).Next().Current()
  {
    hide Base;
    TopIsHighest(s);
    SwitchPicksHighest(s);
  }

  lemma {:induction false} RunsFollowTopList(s: State, n: nat)
    requires Base(s) && s.suspended == 0
    ensures TopList(s).Valid() && TopList(s).items != []
    ensures Runs(s, n) == TopList(s).Picks(n)
    decreases n
  {
    hide Base, TopList, SwitchContext;
    SwitchTurnsTopList(s);
    if n > 0 {
      SwitchPicksHighest(s);
      RunsFollowTopList(SwitchContext(s), n - 1);
    }
  }

  /** The k tasks sharing the highest ready priority each run exactly once in k context
      switches, and all of them are tasks of that priority. */
  lemma EqualShare(s: State)
    requires Base(s) && s.suspended == 0
    ensures var k := |TopList(s).items|;
      multiset(Runs(s, k)) == multiset(TopList(s).items) && Distinct(Runs(s, k))
    ensures forall t :: t in s.tcbs ==>
      (t in TopList(s).items <==>
        && s.tcbs[t].place.Ready?
        && forall u :: u in s.tcbs && s.tcbs[u].place.Ready? ==> s.tcbs[u].priority <= s.tcbs[t].priority)
  {
    hide Base, SwitchContext;
    RunsFollowTopList(s, |TopList(s).items|);
    RoundRobin(TopList(s));
    TopListIsTop(s);
  }

  lemma TopListIsTop(s: State)
    requires Base(s)
    ensures forall t :: t in s.tcbs ==>
      (t in TopList(s).items <==>
        && s.tcbs[t].place.Ready?
        && forall u :: u in s.tcbs && s.tcbs[u].place.Ready? ==> s.tcbs[u].priority <= s.tcbs[t].priority)
  {
    hide TimesOk, SortedLists, NoneDue, EventsOk, TopNonEmpty;
    TopIsHighest(s);
    FirstMember(TopList(s).items);
  }

  // ---- one list per task ----

  function PlaceSeq(): seq<Place> {
    seq(MAX_PRIORITIES, (i: nat) => Ready(i)) + [Delayed(0), Delayed(1), Suspended, Termination]
  }

  function TotalLength(s: State, places: seq<Place>): nat {
    if places == [] then 0 else |s.ListAt(places[0]).items| + TotalLength(s, places[1..])
  }

  ghost function TasksOn(s: State, places: seq<Place>): set<Task> {
    set t | t in s.tcbs && s.tcbs[t].place in places
  }

  lemma DistinctCount<T>(items: seq<T>, ts: set<T>)
    requires Distinct(items) && forall t :: t in items <==> t in ts
    ensures |items| == |ts|
  {
    if items == [] {
      assert ts == {};
    } else {
      var rest := ts - {items[0]};
      assert forall t :: t in items[1..] <==> t in rest;
      DistinctCount(items[1..], rest);
    }
  }

  lemma {:induction false} LengthsCount(s: State, places: seq<Place>)
    requires Linked(s) && Distinct(places) && forall p :: p in places ==> IsList(p)
    ensures TotalLength(s, places) == |TasksOn(s, places)|
  {
    if places != [] {
      var p := places[0];
      LengthsCount(s, places[1..]);
      var here := set t | t in s.tcbs && s.tcbs[t].place == p;
      DistinctCount(s.lists[p].items, here);
      FirstPlace(s, places, here);
    }
  }

  lemma FirstPlace(s: State, places: seq<Place>, here: set<Task>)
    requires places != [] && Distinct(places)
    requires here == set t | t in s.tcbs && s.tcbs[t].place == places[0]
    ensures |TasksOn(s, places)| == |here| + |TasksOn(s, places[1..])|
  {
    assert TasksOn(s, places) == here + TasksOn(s, places[1..]);
    assert here !! TasksOn(s, places[1..]);
  }

  /** Each task's state item is on exactly one list, the lists hold nothing else and no
      task twice, and uxCurrentNumberOfTasks is their total length. */
  lemma OneListPerTask(s: State)
    requires Inv(s)
    ensures forall t, p :: t in s.tcbs && IsList(p) ==> (t in s.ListAt(p).items <==> s.tcbs[t].place == p)
    ensures forall t :: t in s.tcbs ==> IsList(s.tcbs[t].place)
    ensures forall p, t :: IsList(p) && t in s.ListAt(p).items ==> t in s.tcbs
    ensures TotalLength(s, PlaceSeq()) == s.numTasks
  {
    hide TimesOk, SortedLists, ReadyOk, NoneDue, EventsOk, PlaceSeq, TotalLength;
    AllListed();
    LengthsCount(s, PlaceSeq());
    assert TasksOn(s, PlaceSeq()) == s.tcbs.Keys;
  }

  lemma AllListed()
    ensures Distinct(PlaceSeq()) && forall p :: p in PlaceSeq() <==> IsList(p)
  {
    var places := PlaceSeq();
    assert forall i :: 0 <= i < MAX_PRIORITIES ==> places[i] == Ready(i);
    assert places[10] == Delayed(0) && places[11] == Delayed(1) && places[12] == Suspended && places[13] == Termination;
  }

  // ---- a delay of no ticks ----

  /** The assertion in taskSWITCH_DELAYED_LISTS, should the next tick wrap the count. */
  ghost predicate SwapAssertion(s: State) {
    s.tick + 1 == TICK_MODULUS ==> s.ListAt(s.DelayedList()).items == []
  }

  /** Delaying the running task keeps the assertion true for every delay but one: a delay
      of 0 ticks asked for in the last tick before the count wraps. */
  lemma SwapAssertionHolds(s: State, ticks: nat)
    requires Base(s) && s.current != s.idle && ticks < TICK_MODULUS
    ensures SwapAssertion(AddToDelayedList(Unlink(s, s.current), s.current, ticks))
      <==> !(ticks == 0 && s.tick == MAX_DELAY)
  {
    hide Base, AddToDelayedList, Unlink;
    CurrentIsTask(s);
    var r := AddToDelayedList(Unlink(s, s.current), s.current, ticks);
    if ticks > 0 {
      TimedDelayBase(s, s.current, ticks);
      SwapFromBase(r);
    } else {
      ZeroDelayListed(s);
    }
  }

  lemma SwapFromBase(s: State)
    requires Base(s)
    ensures SwapAssertion(s)
  {
    hide Core, NoneDue;
    if s.tick + 1 == TICK_MODULUS {
      SwapCore(s);
    }
  }

  /** The assertion never fails: neither at a tick interrupt in any state of any run, nor at
      any of the pended ticks that resuming the scheduler there would process. */
  lemma SwapNeverAsserts(states: seq<State>, events: seq<Event>, k: nat, n: nat)
    requires Run(states, events) && Inv(states[0]) && k < |states| && n <= states[k].pendedTicks
    ensures SwapAssertion(states[k]) && SwapAssertion(ProcessTicks(Resumed(states[k]), n))
  {
    hide Run, Base, SwapAssertion, Resumed, ProcessTicks;
    RunInv(states, events, k);
    SwapFromBase(states[k]);
    ResumedBase(states[k]);
    TicksBase(Resumed(states[k]), n);
    SwapFromBase(ProcessTicks(Resumed(states[k]), n));
  }

  lemma ZeroDelayListed(s: State)
    requires Base(s)
    ensures var r := AddToDelayedList(Unlink(s, s.current), s.current, 0);
      r.tick == s.tick && s.current in r.ListAt(r.DelayedList()).items
  {
    hide Base, Core, PositionFor;
    CurrentIsTask(s);
    UnlinkCore(s, s.current);
    AddToDelayedCore(Unlink(s, s.current), s.current, 0);
    PlaceIsMembership(AddToDelayedList(Unlink(s, s.current), s.current, 0), s.current);
  }

  lemma PlaceIsMembership(s: State, t: Task)
    requires Core(s) && t in s.tcbs && s.tcbs[t].place != Nowhere
    ensures t in s.ListAt(s.tcbs[t].place).items
  {
  }
}
