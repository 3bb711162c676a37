/** Commands that set a timer going anew: a change of period, and a start or reset of a timer
    that may be running. From then on it is served for exactly the new series. */
module TimerPeriods {
  import opened Ticks
  import opened TimerModel
  import opened TimerSafety
  import opened TimerSeries

  /** t is named by no queued command but the first. */
  ghost predicate OnlyFirst(queue: seq<Command>, t: TimerId) {
    queue != [] && queue[0].timer == t && forall c :: c in queue[1..] ==> c.timer != t
  }

  lemma {:induction false} NoneQueued(queue: seq<Command>, t: TimerId, period: nat)
    requires forall c :: c in queue ==> c.timer != t
    ensures DueInQueue(queue, t, period) == []
  {
    if queue != [] {
      assert queue[0] in queue;
      NoneQueued(queue[1..], t, period);
    }
  }

  /** Taking the command off the queue takes the timer off both lists. */
  lemma DequeuedAway(d: Daemon, t: TimerId)
    requires OnlyFirst(d.queue, t)
    ensures var r := Dequeued(d);
      && Pending(r, t) == [] && ServedOf(r.log, t) == ServedOf(d.log, t) && r.timers == d.timers
      && OnlyStarts(r.queue, t)
  {
    DueRemove(d.current, t, t);
    DueRemove(d.overflow, t, t);
    NoneQueued(d.queue[1..], t, TimerOf(d, t).period);
  }

  // ---- a change of period ----

  /** The new period, and where the one entry of the timer is due. */
  lemma ChangeInserts(d: Daemon, t: TimerId, period: nat, now: nat)
    requires 0 < period < 0x1_0000_0000 && DueIn(d.current, t) == [] && DueIn(d.overflow, t) == []
    ensures var r := RunChangePeriod(d, t, period, now);
      && TimerOf(r, t) == Timer(period, TimerOf(d, t).autoReload) && r.queue == d.queue && r.log == d.log
      && DueIn(r.current, t) + DueIn(r.overflow, t) == [now + period]
  {
    hide Wrap, Epoch, Place;
    PlacementExact(now, period, now);
    var next := Entry(t, Wrap(Wrap(now) + period), now + period);
    DueInsert(d.current, next, t);
    DueInsert(d.overflow, next, t);
  }

  lemma {:induction false} SwitchLoopMisses(d: Daemon, now: nat, t: TimerId)
    requires Values32(d.current) && DueIn(d.current, t) == []
    ensures DueIn(SwitchLoop(d, now).overflow, t) == DueIn(d.overflow, t)
    ensures ServedOf(SwitchLoop(d, now).log, t) == ServedOf(d.log, t)
    decreases Distance(d.current)
  {
    hide DueIn, ServedOf, SwitchTurn;
    if d.current != [] {
      SwitchTurnDistance(d, now);
      SwitchTurn32(d, now);
      SwitchTurnMisses(d, now, t);
      SwitchLoopMisses(SwitchTurn(d, now), now, t);
    }
  }

  lemma SwitchTurnMisses(d: Daemon, now: nat, t: TimerId)
    requires d.current != [] && DueIn(d.current, t) == []
    ensures var r := SwitchTurn(d, now);
      DueIn(r.current, t) == [] && r.overflow == d.overflow && ServedOf(r.log, t) == ServedOf(d.log, t)
  {
    hide Wrap, ServedOf;
    var (e, timer) := (d.current[0], TimerOf(d, d.current[0].timer));
    ServedAppend(d.log, Served(e.timer, e.expiry, now), t);
    DueInsert(d.current[1..], Entry(e.timer, Wrap(e.value + timer.period), e.expiry + timer.period), t);
  }

  /** Sampling the time does not touch a timer that is on neither list. */
  lemma SampleMisses(d: Daemon, now: nat, t: TimerId)
    requires Values32(d.current) && DueIn(d.current, t) == [] && DueIn(d.overflow, t) == []
    ensures var r := SampleTimeNow(d, now);
      && DueIn(r.current, t) == [] && DueIn(r.overflow, t) == [] && r.timers == d.timers
      && ServedOf(r.log, t) == ServedOf(d.log, t)
  {
    hide ServedOf;
    SwitchLoopMisses(d, now, t);
  }

  /** Whatever is queued: obeying a change of period stores it, starts the timer, whether or
      not it was running, with its one list entry due a new period from now, and serves
      nothing of it. */
  lemma ChangeObeyed(d: Daemon, now: nat, t: TimerId, period: nat)
    requires Values32(d.current) && d.queue != [] && d.queue[0] == ChangePeriod(t, period) && 0 < period < 0x1_0000_0000
    ensures var r := RunCommand(d, now);
      && TimerOf(r, t) == Timer(period, TimerOf(d, t).autoReload)
      && DueIn(r.current, t) + DueIn(r.overflow, t) == [now + period]
      && ServedOf(r.log, t) == ServedOf(d.log, t)
  {
    hide ServedOf, DueIn, RunChangePeriod, SampleTimeNow;
    var d1 := Dequeued(d);
    DueRemove(d.current, t, t);
    DueRemove(d.overflow, t, t);
    RemoveMembers(d.current, t);
    SampleMisses(d1, now, t);
    SameTimer(d, SampleTimeNow(d1, now), t);
    ChangeInserts(SampleTimeNow(d1, now), t, period, now);
  }

  lemma SameTimer(d: Daemon, r: Daemon, t: TimerId)
    requires r.timers == d.timers
    ensures TimerOf(r, t) == TimerOf(d, t)
  {
  }

  /** With no other command for it queued, the timer is at the beginning of its new series. */
  lemma ChangeSeries(d: Daemon, now: nat, t: TimerId, period: nat)
    requires Values32(d.current) && OnlyFirst(d.queue, t) && d.queue[0] == ChangePeriod(t, period)
    requires 0 < period < 0x1_0000_0000
    ensures OnSeries(RunCommand(d, now), t, |ServedOf(d.log, t)|, now, Timer(period, TimerOf(d, t).autoReload))
  {
    hide ServedOf, DueIn, DueInQueue, RunChangePeriod, SampleTimeNow, OnlyStarts, Dequeued;
    DequeuedAway(d, t);
    DequeuedIs(d);
    RemoveMembers(d.current, t);
    SampleAway(Dequeued(d), now, t);
    var d2 := SampleTimeNow(Dequeued(d), now);
    SameTimer(d, Dequeued(d), t);
    NothingPending(d2, t);
    ChangeInserts(d2, t, period, now);
    ChangeObeyed(d, now, t, period);
    BeginsSeries(d2, RunCommand(d, now), t, now, Timer(period, TimerOf(d, t).autoReload));
  }

  lemma DequeuedIs(d: Daemon)
    requires d.queue != []
    ensures var (r, u) := (Dequeued(d), d.queue[0].timer);
      r == d.(queue := d.queue[1..], current := RemoveTimer(d.current, u), overflow := RemoveTimer(d.overflow, u))
  {
  }

  lemma NothingPending(d: Daemon, t: TimerId)
    requires Pending(d, t) == []
    ensures DueIn(d.current, t) == [] && DueIn(d.overflow, t) == []
    ensures DueInQueue(d.queue, t, TimerOf(d, t).period) == []
    ensures forall period :: DueInQueue(d.queue, t, period) == []
  {
    forall period ensures DueInQueue(d.queue, t, period) == [] {
      NoStartAnyPeriod(d.queue, t, TimerOf(d, t).period, period);
    }
  }

  lemma {:induction false} NoStartAnyPeriod(queue: seq<Command>, t: TimerId, p: nat, q: nat)
    requires DueInQueue(queue, t, p) == []
    ensures DueInQueue(queue, t, q) == []
  {
    if queue != [] { NoStartAnyPeriod(queue[1..], t, p, q); }
  }

  lemma BeginsSeries(d: Daemon, r: Daemon, t: TimerId, now: nat, settings: Timer)
    requires TimerOf(r, t) == settings && r.queue == d.queue && OnlyStarts(d.queue, t)
    requires DueIn(r.current, t) + DueIn(r.overflow, t) == [now + settings.period]
    requires DueInQueue(d.queue, t, settings.period) == []
    ensures OnSeries(r, t, |ServedOf(r.log, t)|, now, settings)
  {
    var all := ServedOf(r.log, t);
    assert all[|all|..] == [];
  }

  // ---- a start or reset of a timer that may be running ----

  /** Obeying a start that carries the time C sets the timer on the series from C, whatever
      it was on before. */
  lemma StartObeyed(d: Daemon, now: nat, t: TimerId)
    requires Values32(d.current) && OnlyFirst(d.queue, t) && d.queue[0].Start?
    ensures OnSeries(RunCommand(d, now), t, |ServedOf(d.log, t)|, d.queue[0].time, TimerOf(d, t))
  {
    hide Pending, ServedOf, OnlyStarts, SampleTimeNow, RunStart, Chain, TimerOf;
    var c := d.queue[0];
    DequeuedAway(d, t);
    DequeuedIs(d);
    RemoveMembers(d.current, t);
    SampleAway(Dequeued(d), now, t);
    var d2 := SampleTimeNow(Dequeued(d), now);
    SameTimer(d, Dequeued(d), t);
    RunStartProjects(d2, c, now, t);
    StartsSeries(d2, RunCommand(d, now), t, c.time, TimerOf(d, t));
  }

  lemma StartsSeries(d: Daemon, r: Daemon, t: TimerId, start: nat, settings: Timer)
    requires TimerOf(d, t) == settings && Steady(d, r, t) && OnlyStarts(d.queue, t)
    requires var due := start + settings.period;
      if ServedOf(r.log, t) == ServedOf(d.log, t) then Pending(r, t) == [due]
      else
        && ServedOf(r.log, t) == ServedOf(d.log, t) + [due]
        && Pending(r, t) == if settings.autoReload then [due + settings.period] else []
    ensures OnSeries(r, t, |ServedOf(d.log, t)|, start, settings)
  {
    hide ServedOf, Pending, OnlyStarts, TimerOf, Chain, Last;
    var (was, all) := (ServedOf(d.log, t), ServedOf(r.log, t));
    ShortChains(start, settings.period);
    if all == was {
      assert all[|was|..] == [];
    } else {
      AfterAll(was, start + settings.period);
    }
  }

  lemma ShortChains(start: nat, period: nat)
    ensures Chain([], start, period) && Last([], start) == start
    ensures Chain([start + period], start, period) && Last([start + period], start) == start + period
  {
    assert [start + period][..0] == [];
  }

  lemma AfterAll(was: seq<nat>, x: nat)
    ensures (was + [x])[|was|..] == [x]
  {
  }

  // ---- the series from there ----

  lemma {:induction false} SeriesGoesOn(states: seq<State>, events: seq<Event>, t: TimerId, n0: nat, start: nat,
      settings: Timer, i: nat)
    requires Run(states, events) && 1 <= i < |states| && OnSeries(states[1].d, t, n0, start, settings)
    requires forall j :: 1 <= j < |events| && events[j].Issue? ==> events[j].command.timer != t
    ensures OnSeries(states[i].d, t, n0, start, settings)
  {
    hide OnSeries, Step;
    if i > 1 {
      SeriesGoesOn(states, events, t, n0, start, settings, i - 1);
      StepSeries(states[i - 1], events[i - 1], t, n0, start, settings);
    }
  }

  /** What being on a series means. */
  lemma SeriesMeans(d: Daemon, t: TimerId, n0: nat, start: nat, settings: Timer)
    requires OnSeries(d, t, n0, start, settings) && settings.autoReload
    ensures var all := ServedOf(d.log, t);
      && n0 <= |all|
      && (forall j :: n0 <= j < |all| ==> all[j] == start + (j - n0 + 1) * settings.period)
      && Pending(d, t) == [start + (|all| - n0 + 1) * settings.period]
  {
    hide ServedOf, Pending, OnlyStarts, Chain;
    var all := ServedOf(d.log, t);
    forall j | n0 <= j < |all| ensures all[j] == start + (j - n0 + 1) * settings.period {
      ChainClosedForm(all[n0..], start, settings.period, j - n0);
    }
    LastOfChain(all[n0..], start, settings.period);
  }

  /** The series after a change of period. In every run that begins with the daemon obeying, at
      time N, a change of the period of an auto-reload timer to P, with no other command for it
      queued or issued later, the timer is served from then on for exactly N + P, N + 2P, ...,
      in this order, and exactly the next one is pending. */
  lemma ServedForChangedSeries(states: seq<State>, events: seq<Event>, t: TimerId, period: nat, i: nat)
    requires Run(states, events) && 1 <= i < |states| && events[0] == Obey
    requires OnlyFirst(states[0].d.queue, t) && states[0].d.queue[0] == ChangePeriod(t, period)
    requires 0 < period < 0x1_0000_0000 && TimerOf(states[0].d, t).autoReload
    requires forall j :: 1 <= j < |events| && events[j].Issue? ==> events[j].command.timer != t
    ensures var start := states[0].now;
      var before, all := ServedOf(states[0].d.log, t), ServedOf(states[i].d.log, t);
      && |before| <= |all| && TimerOf(states[i].d, t).period == period
      && (forall j :: |before| <= j < |all| ==> all[j] == start + (j - |before| + 1) * period)
      && Pending(states[i].d, t) == [start + (|all| - |before| + 1) * period]
  {
    hide ServedOf, Pending, Chain, OnlyStarts, RunCommand;
    var (s, settings) := (states[0], Timer(period, TimerOf(states[0].d, t).autoReload));
    ChangeSeries(s.d, s.now, t, period);
    SeriesGoesOn(states, events, t, |ServedOf(s.d.log, t)|, s.now, settings, i);
    SeriesMeans(states[i].d, t, |ServedOf(s.d.log, t)|, s.now, settings);
  }

  /** And after a start or reset that carries the time C, of a timer that may be running. */
  lemma ServedForRestartedSeries(states: seq<State>, events: seq<Event>, t: TimerId, i: nat)
    requires Run(states, events) && 1 <= i < |states| && events[0] == Obey
    requires OnlyFirst(states[0].d.queue, t) && states[0].d.queue[0].Start? && TimerOf(states[0].d, t).autoReload
    requires forall j :: 1 <= j < |events| && events[j].Issue? ==> events[j].command.timer != t
    ensures var (start, period) := (states[0].d.queue[0].time, TimerOf(states[0].d, t).period);
      var before, all := ServedOf(states[0].d.log, t), ServedOf(states[i].d.log, t);
      && |before| <= |all|
      && (forall j :: |before| <= j < |all| ==> all[j] == start + (j - |before| + 1) * period)
      && Pending(states[i].d, t) == [start + (|all| - |before| + 1) * period]
  {
    hide ServedOf, Pending, Chain, OnlyStarts, RunCommand, TimerOf;
    var (s, settings) := (states[0], TimerOf(states[0].d, t));
    StartObeyed(s.d, s.now, t);
    SeriesGoesOn(states, events, t, |ServedOf(s.d.log, t)|, s.d.queue[0].time, settings, i);
    SeriesMeans(states[i].d, t, |ServedOf(s.d.log, t)|, s.d.queue[0].time, settings);
  }

  // ---- what the log says ----

  /** Callbacks have been called, at tick count now, and none taken back. */
  ghost predicate ServedNow(d: Daemon, r: Daemon, now: nat) {
    d.log <= r.log && forall i :: |d.log| <= i < |r.log| ==> r.log[i].at == now
  }

  lemma {:induction false} SwitchLoopServesNow(d: Daemon, now: nat)
    requires Values32(d.current)
    ensures ServedNow(d, SwitchLoop(d, now), now)
    decreases Distance(d.current)
  {
    hide ServedNow, SwitchTurn;
    if d.current == [] {
      NoneServed(d, now);
    } else {
      SwitchTurnDistance(d, now);
      SwitchTurn32(d, now);
      SwitchLoopServesNow(SwitchTurn(d, now), now);
      SwitchTurnServesNow(d, now);
      ServedTwice(d, SwitchTurn(d, now), SwitchLoop(d, now), now);
    }
  }

  lemma NoneServed(d: Daemon, now: nat)
    ensures ServedNow(d, d, now)
  {
  }

  lemma ServedTwice(d: Daemon, m: Daemon, r: Daemon, now: nat)
    requires ServedNow(d, m, now) && ServedNow(m, r, now)
    ensures ServedNow(d, r, now)
  {
    forall i | |d.log| <= i < |r.log| ensures r.log[i].at == now {
      if i < |m.log| { assert r.log[i] == m.log[i]; }
    }
  }

  lemma SwitchTurnServesNow(d: Daemon, now: nat)
    requires d.current != []
    ensures ServedNow(d, SwitchTurn(d, now), now)
  {
    hide Wrap;
  }

  lemma SampleServesNow(d: Daemon, now: nat)
    requires Values32(d.current)
    ensures ServedNow(d, SampleTimeNow(d, now), now)
  {
    SwitchLoopServesNow(d, now);
  }

  /** Every callback is logged with the time at which the daemon calls it. */
  lemma StepServesNow(s: State, e: Event)
    requires Values32(s.d.current) && Enabled(s, e)
    ensures ServedNow(s.d, Step(s, e).d, s.now)
  {
    hide ServedNow, SampleTimeNow, RunStart, RunChangePeriod, ProcessExpired, Wrap;
    match e {
      case Tick => NoneServed(s.d, s.now);
      case Issue(c) => SameLogNow(s.d, Step(s, e).d, s.now);
      case Timers =>
        SampleServesNow(s.d, s.now);
        var d1 := SampleTimeNow(s.d, s.now);
        if RunTimers(s.d, s.now) != d1 {
          ProcessServesNow(d1, s.now);
          ServedTwice(s.d, d1, RunTimers(s.d, s.now), s.now);
        }
      case Obey =>
        var d1 := Dequeued(s.d);
        RemoveMembers(s.d.current, s.d.queue[0].timer);
        SampleServesNow(d1, s.now);
        SameLogNow(s.d, d1, s.now);
        var d2 := SampleTimeNow(d1, s.now);
        CommandServesNow(d2, s.d.queue[0], s.now);
        ServedTwice(s.d, d1, d2, s.now);
        if RunCommand(s.d, s.now) != d2 { ServedTwice(s.d, d2, RunCommand(s.d, s.now), s.now); }
    }
  }

  lemma SameLogNow(d: Daemon, r: Daemon, now: nat)
    requires r.log == d.log
    ensures ServedNow(d, r, now)
  {
  }

  lemma ProcessServesNow(d: Daemon, now: nat)
    requires d.current != []
    ensures ServedNow(d, ProcessExpired(d, now), now)
  {
    hide Wrap, Place;
  }

  lemma CommandServesNow(d: Daemon, c: Command, now: nat)
    ensures c.Start? ==> ServedNow(d, RunStart(d, c, now), now)
    ensures c.ChangePeriod? ==> ServedNow(d, RunChangePeriod(d, c.timer, c.period, now), now)
  {
    hide Wrap, Place;
  }
}
