/** The timer daemon never asks the scheduler for a wait of no ticks. */
module TimerBlocking {
  import opened Ticks
  import opened TimerModel
  import opened TimerSafety

  /** Every entry expires within a wrap of the tick count. */
  ghost predicate Near(d: Daemon, now: nat) {
    forall e :: e in d.current || e in d.overflow ==> e.expiry < now + 0x1_0000_0000
  }

  lemma SwitchTurnNear(d: Daemon, now: nat, epoch: int)
    requires Switching(d, now, epoch) && d.current != [] && Near(d, now)
    ensures Near(SwitchTurn(d, now), now)
  {
    hide Wrap, SortedEntries, QueueOk, NoneEarly;
    var e := d.current[0];
    assert e in d.current;
    PeriodOk(d, e.timer);
    EpochOrder(e.expiry, now);
    InsertMembers(d.current[1..],
      Entry(e.timer, Wrap(e.value + TimerOf(d, e.timer).period), e.expiry + TimerOf(d, e.timer).period));
  }

  lemma {:induction false} SwitchLoopNear(d: Daemon, now: nat, epoch: int)
    requires Switching(d, now, epoch) && Values32(d.current) && Near(d, now)
    ensures Near(SwitchLoop(d, now), now)
    decreases Distance(d.current)
  {
    hide Switching, Near, SwitchTurn;
    if d.current != [] {
      SwitchTurnDistance(d, now);
      SwitchTurn32(d, now);
      SwitchTurnOk(d, now, epoch);
      SwitchTurnNear(d, now, epoch);
      SwitchLoopNear(SwitchTurn(d, now), now, epoch);
    }
  }

  lemma SampleNear(d: Daemon, now: nat)
    requires DaemonOk(d, now) && now < d.lastSample + 0x1_0000_0000 && Values32(d.current) && Near(d, now)
    ensures Near(SampleTimeNow(d, now), now)
  {
    hide InEpoch, SortedEntries, TimersOk, QueueOk, NoneEarly, Wrap, Epoch;
    WrapStep(d.lastSample, now);
    if Wrap(now) < d.lastTime {
      SwitchLoopNear(d, now, Epoch(d.lastSample));
    }
  }

  lemma InsertNear(d: Daemon, e: Entry, where: Placement, now: nat)
    requires Near(d, now) && (where != ProcessNow ==> e.expiry < now + 0x1_0000_0000)
    ensures Near(Insert(d, e, where), now)
  {
    InsertMembers(d.current, e);
    InsertMembers(d.overflow, e);
  }

  lemma TailNear(d: Daemon, now: nat)
    requires Near(d, now) && d.current != []
    ensures Near(d.(current := d.current[1..]), now)
  {
  }

  lemma SameListsNear(d: Daemon, r: Daemon, now: nat)
    requires Near(d, now) && r.current == d.current && r.overflow == d.overflow
    ensures Near(r, now)
  {
  }

  lemma ProcessExpiredNear(d: Daemon, now: nat)
    requires DaemonOk(d, now) && d.lastSample == now && Near(d, now)
    requires d.current != [] && d.current[0].value <= Wrap(now)
    ensures Near(ProcessExpired(d, now), now)
  {
    hide Near, ListsOk, TimersOk, QueueOk, NoneEarly, Wrap, Epoch, Place, Insert;
    var e := d.current[0];
    var timer := TimerOf(d, e.timer);
    HeadDue(d, now);
    PeriodOk(d, e.timer);
    TailNear(d, now);
    var d1 := d.(current := d.current[1..]);
    var next := Entry(e.timer, Wrap(e.value + timer.period), e.expiry + timer.period);
    var where := Place(next.value, Wrap(now), e.value, timer.period);
    InsertNear(d1, next, where, now);
    SameListsNear(d1, SendReload(d1, e.timer, e.value, e.expiry), now);
    var d2 := ProcessExpired(d, now).(log := d.log);
    SameListsNear(d2, ProcessExpired(d, now), now);
    if !timer.autoReload { SameListsNear(d1, d2, now); }
    else if where == ProcessNow { SameListsNear(d1, d2, now); }
    else { SameListsNear(Insert(d1, next, where), d2, now); }
  }

  lemma RunStartNear(d: Daemon, c: Command, now: nat)
    requires DaemonOk(d, now) && Near(d, now) && c.Start? && c.time <= now
    ensures Near(RunStart(d, c, now), now)
  {
    hide Near, ListsOk, QueueOk, NoneEarly, Wrap, Epoch, Place, Insert;
    var timer := TimerOf(d, c.timer);
    PeriodOk(d, c.timer);
    var next := Entry(c.timer, Wrap(c.value + timer.period), c.time + timer.period);
    var where := Place(next.value, Wrap(now), c.value, timer.period);
    InsertNear(d, next, where, now);
    if where == ProcessNow { SameListsNear(d, RunStart(d, c, now), now); }
  }

  lemma RunChangeNear(d: Daemon, t: TimerId, period: nat, now: nat)
    requires Near(d, now) && period < 0x1_0000_0000
    ensures Near(RunChangePeriod(d, t, period, now), now)
  {
    hide Near, Wrap, Place, Insert;
    var d1 := d.(timers := d.timers[t := TimerOf(d, t).(period := period)]);
    SameListsNear(d, d1, now);
    var next := Entry(t, Wrap(Wrap(now) + period), now + period);
    InsertNear(d1, next, Place(next.value, Wrap(now), Wrap(now), period), now);
  }

  lemma DequeueNear(d: Daemon, now: nat)
    requires Near(d, now) && d.queue != []
    ensures var t := d.queue[0].timer;
      Near(d.(queue := d.queue[1..], current := RemoveTimer(d.current, t), overflow := RemoveTimer(d.overflow, t)), now)
  {
    RemoveMembers(d.current, d.queue[0].timer);
    RemoveMembers(d.overflow, d.queue[0].timer);
  }

  lemma RunTimersNear(d: Daemon, now: nat)
    requires DaemonOk(d, now) && now < d.lastSample + 0x1_0000_0000 && Values32(d.current) && Near(d, now)
    ensures Near(RunTimers(d, now), now)
  {
    hide DaemonOk, SampleTimeNow, Near;
    SampleOk(d, now);
    SampleNear(d, now);
    var d1 := SampleTimeNow(d, now);
    if RunTimers(d, now) != d1 { ProcessExpiredNear(d1, now); }
  }

  lemma RunCommandNear(d: Daemon, now: nat)
    requires DaemonOk(d, now) && now < d.lastSample + 0x1_0000_0000 && Values32(d.current) && d.queue != []
      && Near(d, now)
    ensures Near(RunCommand(d, now), now)
  {
    hide DaemonOk, SampleTimeNow, RunStart, RunChangePeriod, Near;
    var c := d.queue[0];
    var d1 := d.(queue := d.queue[1..], current := RemoveTimer(d.current, c.timer),
      overflow := RemoveTimer(d.overflow, c.timer));
    DequeueOk(d, now);
    DequeueNear(d, now);
    SampleOk(d1, now);
    SampleNear(d1, now);
    var d2 := SampleTimeNow(d1, now);
    match c {
      case Start(_, _, _) => RunStartNear(d2, c, now);
      case ChangePeriod(t, period) => RunChangeNear(d2, t, period, now);
      case Stop(_) =>
      case Delete(_) =>
    }
  }

  lemma StepNear(s: State, e: Event)
    requires DaemonOk(s.d, s.now) && Values32(s.d.current) && Enabled(s, e) && Near(s.d, s.now)
    ensures Near(Step(s, e).d, Step(s, e).now)
  {
    match e {
      case Tick =>
      case Issue(_) =>
      case Timers => RunTimersNear(s.d, s.now);
      case Obey => RunCommandNear(s.d, s.now);
    }
  }

  lemma {:induction false} RunNear(states: seq<State>, events: seq<Event>, i: nat)
    requires Run(states, events) && DaemonOk(states[0].d, states[0].now) && Near(states[0].d, states[0].now)
      && i < |states|
    ensures Near(states[i].d, states[i].now)
  {
    hide Step, Enabled, DaemonOk, Near, Values32;
    if i > 0 {
      RunNear(states, events, i - 1);
      RunOk(states, events, i - 1);
      StepNear(states[i - 1], events[i - 1]);
    }
  }

  /** The block time the daemon asks for: until the head of the current list expires or, if
      that is empty, until the tick count wraps. */
  function BlockTime(d: Daemon, now: nat): nat {
    Wrap((if d.current == [] then 0 else d.current[0].value) - Wrap(now))
  }

  /** A wait of 0 ticks could only be asked for at tick count 0 with an empty current list,
      and the overflow list is empty then too: the daemon waits without a time limit. */
  lemma WaitIsPositive(d: Daemon, now: nat)
    requires DaemonOk(d, now) && now < d.lastSample + 0x1_0000_0000 && Near(d, now) && Blocks(d, now)
    ensures 0 < BlockTime(d, now) || (d.current == [] && d.overflow == [])
  {
    WrapStep(d.lastSample, now);
    assert d.overflow != [] ==> d.overflow[0] in d.overflow;
  }

  /** In every run of a daemon that starts without timers running: whenever it blocks with a
      time limit, the limit is at least one tick. */
  lemma NeverWaitsZero(states: seq<State>, events: seq<Event>, timers: map<TimerId, Timer>, i: nat)
    requires Run(states, events) && i < |states|
    requires states[0] == State(Daemon(timers, [], [], [], 0, 0, []), states[0].now) && states[0].now < 0x1_0000_0000
    requires forall t :: t in timers ==> 0 < timers[t].period < 0x1_0000_0000
    requires states[i].now < states[i].d.lastSample + 0x1_0000_0000 && Blocks(states[i].d, states[i].now)
    ensures var (d, now) := (states[i].d, states[i].now);
      0 < BlockTime(d, now) || (d.current == [] && d.overflow == [])
  {
    hide Run, Blocks;
    InitialOk(timers, states[0].now);
    RunOk(states, events, i);
    RunNear(states, events, i);
    WaitIsPositive(states[i].d, states[i].now);
  }
}
