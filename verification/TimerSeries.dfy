/** The series of one timer, tracked through any run of the daemon with any other timers:
    started at C with period P it is served for C + P, C + 2P, ... with none skipped,
    repeated or early, because exactly one of {current entry, overflow entry, queued
    reload} is pending for it. */
module TimerSeries {
  import opened Ticks
  import opened TimerModel
  import opened TimerSafety

  /** The expiries at which t was served, in order. */
  function ServedOf(log: seq<Served>, t: TimerId): seq<nat> {
    if log == [] then []
    else
      var last := log[|log| - 1];
      ServedOf(log[..|log| - 1], t) + (if last.timer == t then [last.expiry] else [])
  }

  function DueIn(list: seq<Entry>, t: TimerId): seq<nat> {
    if list == [] then [] else (if list[0].timer == t then [list[0].expiry] else []) + DueIn(list[1..], t)
  }

  /** The expiry that a queued start or reload stands for. */
  function DueInQueue(queue: seq<Command>, t: TimerId, period: nat): seq<nat> {
    if queue == [] then []
    else
      (if queue[0].timer == t && queue[0].Start? then [queue[0].time + period] else [])
      + DueInQueue(queue[1..], t, period)
  }

  function Pending(d: Daemon, t: TimerId): seq<nat> {
    DueIn(d.current, t) + DueIn(d.overflow, t) + DueInQueue(d.queue, t, TimerOf(d, t).period)
  }

  /** No stop, delete or change of period of t is queued. */
  ghost predicate OnlyStarts(queue: seq<Command>, t: TimerId) {
    forall c :: c in queue && c.timer == t ==> c.Start?
  }

  // ---- how the projections move ----

  lemma {:induction false} DueInsert(list: seq<Entry>, e: Entry, t: TimerId)
    ensures e.timer != t ==> DueIn(InsertEntry(list, e), t) == DueIn(list, t)
    ensures e.timer == t && DueIn(list, t) == [] ==> DueIn(InsertEntry(list, e), t) == [e.expiry]
  {
    if list == [] || e.value < list[0].value {
      assert ([e] + list)[1..] == list;
    } else {
      DueInsert(list[1..], e, t);
      assert InsertEntry(list, e)[1..] == InsertEntry(list[1..], e);
    }
  }

  lemma {:induction false} DueRemove(list: seq<Entry>, u: TimerId, t: TimerId)
    ensures DueIn(RemoveTimer(list, u), t) == if u == t then [] else DueIn(list, t)
  {
    if list != [] {
      DueRemove(list[1..], u, t);
      var rest := RemoveTimer(list[1..], u);
      if list[0].timer == u {
        assert RemoveTimer(list, u) == rest;
      } else {
        assert RemoveTimer(list, u) == [list[0]] + rest && ([list[0]] + rest)[1..] == rest;
      }
    }
  }

  lemma {:induction false} DueSend(queue: seq<Command>, c: Command, t: TimerId, period: nat)
    ensures DueInQueue(queue + [c], t, period)
         == DueInQueue(queue, t, period) + (if c.timer == t && c.Start? then [c.time + period] else [])
  {
    if queue != [] {
      DueSend(queue[1..], c, t, period);
      assert (queue + [c])[1..] == queue[1..] + [c];
    }
  }

  lemma ServedAppend(log: seq<Served>, r: Served, t: TimerId)
    ensures ServedOf(log + [r], t) == ServedOf(log, t) + (if r.timer == t then [r.expiry] else [])
  {
    assert (log + [r])[..|log|] == log;
  }

  // ---- what a step may do to t ----

  ghost predicate Steady(d: Daemon, r: Daemon, t: TimerId) {
    TimerOf(r, t) == TimerOf(d, t) && (OnlyStarts(d.queue, t) ==> OnlyStarts(r.queue, t))
  }

  ghost predicate Keeps(d: Daemon, r: Daemon, t: TimerId) {
    Steady(d, r, t) && ServedOf(r.log, t) == ServedOf(d.log, t) && Pending(r, t) == Pending(d, t)
  }

  /** t's one pending expiry is served and, for an auto-reload timer, the next one is due
      a period later. */
  ghost predicate Serves(d: Daemon, r: Daemon, t: TimerId) {
    && Steady(d, r, t) && |Pending(d, t)| == 1
    && ServedOf(r.log, t) == ServedOf(d.log, t) + Pending(d, t)
    && Pending(r, t) == if TimerOf(d, t).autoReload then [Pending(d, t)[0] + TimerOf(d, t).period] else []
  }

  lemma LogProjects(d: Daemon, u: TimerId, expiry: nat, now: nat, t: TimerId)
    ensures var r := Log(d, u, expiry, now);
      && Steady(d, r, t) && Pending(r, t) == Pending(d, t)
      && ServedOf(r.log, t) == ServedOf(d.log, t) + (if u == t then [expiry] else [])
  {
    ServedAppend(d.log, Served(u, expiry, now), t);
  }

  lemma SendProjects(d: Daemon, u: TimerId, value: nat, time: nat, t: TimerId)
    ensures var r := SendReload(d, u, value, time);
      && Steady(d, r, t) && ServedOf(r.log, t) == ServedOf(d.log, t)
      && Pending(r, t) == Pending(d, t) + (if u == t then [time + TimerOf(d, t).period] else [])
  {
    DueSend(d.queue, Start(u, value, time), t, TimerOf(d, t).period);
  }

  lemma InsertProjects(d: Daemon, e: Entry, where: Placement, t: TimerId)
    requires where != ProcessNow
    ensures var r := Insert(d, e, where);
      && Steady(d, r, t) && ServedOf(r.log, t) == ServedOf(d.log, t)
      && (e.timer != t ==> Pending(r, t) == Pending(d, t))
      && (e.timer == t && Pending(d, t) == [] ==> Pending(r, t) == [e.expiry])
  {
    DueInsert(d.current, e, t);
    DueInsert(d.overflow, e, t);
  }

  /** Taking the head off the current list. */
  lemma HeadProjects(d: Daemon, t: TimerId)
    requires d.current != []
    ensures var r := d.(current := d.current[1..]);
      && Steady(d, r, t) && ServedOf(r.log, t) == ServedOf(d.log, t)
      && Pending(d, t) == (if d.current[0].timer == t then [d.current[0].expiry] else []) + Pending(r, t)
  {
    var r := d.(current := d.current[1..]);
    var head := if d.current[0].timer == t then [d.current[0].expiry] else [];
    assert DueIn(d.current, t) == head + DueIn(r.current, t);
  }

  /** At most one expiry is pending. */
  ghost predicate Single(d: Daemon, t: TimerId) {
    |Pending(d, t)| <= 1
  }

  lemma SwitchTurnProjects(d: Daemon, now: nat, t: TimerId)
    requires d.current != [] && Single(d, t)
    ensures var r := SwitchTurn(d, now);
      if d.current[0].timer == t then Serves(d, r, t) && Pending(d, t) == [d.current[0].expiry] else Keeps(d, r, t)
  {
    hide Pending, ServedOf, OnlyStarts, Wrap, TimerOf;
    var e := d.current[0];
    var timer := TimerOf(d, e.timer);
    var d1 := d.(current := d.current[1..]);
    HeadProjects(d, t);
    LogProjects(d1, e.timer, e.expiry, now, t);
    var d2 := Log(d1, e.timer, e.expiry, now);
    if timer.autoReload {
      var reload := Wrap(e.value + timer.period);
      if reload > e.value {
        InsertProjects(d2, Entry(e.timer, reload, e.expiry + timer.period), InCurrent, t);
      } else {
        SendProjects(d2, e.timer, e.value, e.expiry, t);
      }
    }
  }

  lemma ProcessExpiredProjects(d: Daemon, now: nat, t: TimerId)
    requires d.current != [] && Single(d, t)
    ensures var r := ProcessExpired(d, now); if d.current[0].timer == t then Serves(d, r, t) else Keeps(d, r, t)
  {
    hide Pending, ServedOf, OnlyStarts, Wrap, TimerOf, Place;
    var e := d.current[0];
    var timer := TimerOf(d, e.timer);
    var d1 := d.(current := d.current[1..]);
    HeadProjects(d, t);
    SteadyTimer(d, d1, e.timer);
    var next := Entry(e.timer, Wrap(e.value + timer.period), e.expiry + timer.period);
    var where := Place(next.value, Wrap(now), e.value, timer.period);
    if timer.autoReload {
      if where == ProcessNow { SendProjects(d1, e.timer, e.value, e.expiry, t); }
      else { InsertProjects(d1, next, where, t); }
    }
    var d2 := ProcessExpired(d, now).(log := d.log);
    LogProjects(d2, e.timer, e.expiry, now, t);
  }

  lemma SteadyTimer(d: Daemon, r: Daemon, u: TimerId)
    requires r.timers == d.timers
    ensures TimerOf(r, u) == TimerOf(d, u)
  {
  }

  lemma RunStartProjects(d: Daemon, c: Command, now: nat, t: TimerId)
    requires c.Start?
    ensures c.timer != t ==> Keeps(d, RunStart(d, c, now), t)
    ensures c.timer == t && Pending(d, t) == [] ==>
      var r := RunStart(d, c, now); var due := c.time + TimerOf(d, t).period;
      && Steady(d, r, t)
      && if ServedOf(r.log, t) == ServedOf(d.log, t) then Pending(r, t) == [due]
         else
           && ServedOf(r.log, t) == ServedOf(d.log, t) + [due]
           && Pending(r, t) == if TimerOf(d, t).autoReload then [due + TimerOf(d, t).period] else []
  {
    hide Pending, ServedOf, OnlyStarts, Wrap, TimerOf, Place;
    var timer := TimerOf(d, c.timer);
    var next := Entry(c.timer, Wrap(c.value + timer.period), c.time + timer.period);
    var where := Place(next.value, Wrap(now), c.value, timer.period);
    if where != ProcessNow {
      InsertProjects(d, next, where, t);
    } else {
      LogProjects(d, c.timer, next.expiry, now, t);
      var d1 := Log(d, c.timer, next.expiry, now);
      SendProjects(d1, c.timer, next.value, next.expiry, t);
    }
  }

  lemma ChangeOther(d: Daemon, u: TimerId, period: nat, now: nat, t: TimerId)
    requires u != t
    ensures Keeps(d, RunChangePeriod(d, u, period, now), t)
  {
    hide ServedOf, DueIn, DueInQueue, Wrap, Place;
    var d1 := d.(timers := d.timers[u := TimerOf(d, u).(period := period)]);
    var next := Entry(u, Wrap(Wrap(now) + period), now + period);
    var where := Place(next.value, Wrap(now), Wrap(now), period);
    if where != ProcessNow { InsertProjects(d1, next, where, t); }
  }

  // ---- the series ----

  function Last(served: seq<nat>, start: nat): nat {
    if served == [] then start else served[|served| - 1]
  }

  /** Each expiry is one period after the one before it. */
  predicate Chain(served: seq<nat>, start: nat, period: nat) {
    served == [] ||
    var front := served[..|served| - 1];
    Chain(front, start, period) && served[|served| - 1] == Last(front, start) + period
  }

  /** Since its start at time start, before which it had been served n0 times, t has been
      served for a prefix of its series, and what is pending is exactly the next one. */
  ghost predicate OnSeries(d: Daemon, t: TimerId, n0: nat, start: nat, settings: Timer) {
    var all := ServedOf(d.log, t);
    && TimerOf(d, t) == settings && n0 <= |all|
    && Chain(all[n0..], start, TimerOf(d, t).period)
    && OnlyStarts(d.queue, t)
    && (if TimerOf(d, t).autoReload then Pending(d, t) == [Last(all[n0..], start) + TimerOf(d, t).period]
        else
          || (all[n0..] == [] && Pending(d, t) == [start + TimerOf(d, t).period])
          || (|all[n0..]| == 1 && Pending(d, t) == []))
  }

  lemma KeepsSeries(d: Daemon, r: Daemon, t: TimerId, n0: nat, start: nat, settings: Timer)
    requires OnSeries(d, t, n0, start, settings) && Keeps(d, r, t)
    ensures OnSeries(r, t, n0, start, settings)
  {
  }

  lemma ChainGrows(served: seq<nat>, next: nat, start: nat, period: nat)
    requires Chain(served, start, period) && next == Last(served, start) + period
    ensures Chain(served + [next], start, period) && Last(served + [next], start) == next
  {
    assert (served + [next])[..|served|] == served;
  }

  lemma ServesSeries(d: Daemon, r: Daemon, t: TimerId, n0: nat, start: nat, settings: Timer)
    requires OnSeries(d, t, n0, start, settings) && Serves(d, r, t)
    ensures OnSeries(r, t, n0, start, settings)
  {
    hide Pending, ServedOf, OnlyStarts, TimerOf, Chain;
    var was, all := ServedOf(d.log, t), ServedOf(r.log, t);
    var s0, next := was[n0..], Pending(d, t)[0];
    assert all == was + [next] && all[n0..] == s0 + [next];
    if !settings.autoReload { assert s0 == []; }
    ChainGrows(s0, next, start, settings.period);
  }

  lemma SeriesSingle(d: Daemon, t: TimerId, n0: nat, start: nat, settings: Timer)
    requires OnSeries(d, t, n0, start, settings)
    ensures Single(d, t)
  {
  }

  lemma {:induction false} SwitchLoopSeries(d: Daemon, now: nat, t: TimerId, n0: nat, start: nat, settings: Timer)
    requires Values32(d.current) && OnSeries(d, t, n0, start, settings)
    ensures OnSeries(SwitchLoop(d, now), t, n0, start, settings)
    decreases Distance(d.current)
  {
    hide OnSeries, Single, Keeps, Serves, SwitchTurn;
    if d.current != [] {
      SwitchTurnDistance(d, now);
      SwitchTurn32(d, now);
      var r := SwitchTurn(d, now);
      SeriesSingle(d, t, n0, start, settings);
      SwitchTurnProjects(d, now, t);
      if d.current[0].timer == t { ServesSeries(d, r, t, n0, start, settings); }
      else { KeepsSeries(d, r, t, n0, start, settings); }
      SwitchLoopSeries(r, now, t, n0, start, settings);
    }
  }

  /** While t is on neither list and not queued, switching does not touch it. */
  lemma {:induction false} SwitchLoopAway(d: Daemon, now: nat, t: TimerId)
    requires Values32(d.current) && Pending(d, t) == []
    ensures Keeps(d, SwitchLoop(d, now), t)
    decreases Distance(d.current)
  {
    hide Pending, ServedOf, OnlyStarts, TimerOf, SwitchTurn;
    if d.current != [] {
      SwitchTurnDistance(d, now);
      SwitchTurn32(d, now);
      SwitchTurnProjects(d, now, t);
      SwitchLoopAway(SwitchTurn(d, now), now, t);
    }
  }

  lemma SwapKeeps(d: Daemon, now: nat, t: TimerId)
    requires d.current == []
    ensures Keeps(d, d.(current := d.overflow, overflow := [], lastTime := Wrap(now), lastSample := now), t)
  {
  }

  lemma SampleKeeps(d: Daemon, now: nat, t: TimerId)
    ensures Keeps(d, d.(lastTime := Wrap(now), lastSample := now), t)
  {
  }

  lemma SampleSeries(d: Daemon, now: nat, t: TimerId, n0: nat, start: nat, settings: Timer)
    requires Values32(d.current) && OnSeries(d, t, n0, start, settings)
    ensures OnSeries(SampleTimeNow(d, now), t, n0, start, settings)
  {
    hide OnSeries, Keeps;
    if Wrap(now) < d.lastTime {
      SwitchLoopSeries(d, now, t, n0, start, settings);
      SwapKeeps(SwitchLoop(d, now), now, t);
      KeepsSeries(SwitchLoop(d, now), SampleTimeNow(d, now), t, n0, start, settings);
    } else {
      SampleKeeps(d, now, t);
      KeepsSeries(d, SampleTimeNow(d, now), t, n0, start, settings);
    }
  }

  lemma SampleAway(d: Daemon, now: nat, t: TimerId)
    requires Values32(d.current) && Pending(d, t) == []
    ensures Keeps(d, SampleTimeNow(d, now), t)
  {
    hide Pending, ServedOf, OnlyStarts, TimerOf;
    if Wrap(now) < d.lastTime {
      SwitchLoopAway(d, now, t);
      SwapKeeps(SwitchLoop(d, now), now, t);
    } else {
      SampleKeeps(d, now, t);
    }
  }

  lemma RunTimersSeries(d: Daemon, now: nat, t: TimerId, n0: nat, start: nat, settings: Timer)
    requires Values32(d.current) && OnSeries(d, t, n0, start, settings)
    ensures OnSeries(RunTimers(d, now), t, n0, start, settings)
  {
    hide OnSeries, Keeps, Serves, Single, ProcessExpired, SampleTimeNow;
    SampleSeries(d, now, t, n0, start, settings);
    var d1 := SampleTimeNow(d, now);
    if RunTimers(d, now) != d1 {
      SeriesSingle(d1, t, n0, start, settings);
      ProcessExpiredProjects(d1, now, t);
      if d1.current[0].timer == t { ServesSeries(d1, RunTimers(d, now), t, n0, start, settings); }
      else { KeepsSeries(d1, RunTimers(d, now), t, n0, start, settings); }
    }
  }

  function Dequeued(d: Daemon): Daemon
    requires d.queue != []
  {
    var u := d.queue[0].timer;
    d.(queue := d.queue[1..], current := RemoveTimer(d.current, u), overflow := RemoveTimer(d.overflow, u))
  }

  /** Receiving a command for another timer leaves t alone; receiving t's own start is
      taking its one pending expiry. */
  lemma DequeueProjects(d: Daemon, t: TimerId)
    requires d.queue != [] && OnlyStarts(d.queue, t) && Single(d, t)
    ensures var r := Dequeued(d);
      && Steady(d, r, t) && ServedOf(r.log, t) == ServedOf(d.log, t)
      && if d.queue[0].timer == t
         then d.queue[0].Start? && Pending(r, t) == [] && Pending(d, t) == [d.queue[0].time + TimerOf(d, t).period]
         else Pending(r, t) == Pending(d, t)
  {
    var u := d.queue[0].timer;
    DueRemove(d.current, u, t);
    DueRemove(d.overflow, u, t);
    assert d.queue[0] in d.queue;
  }

  lemma ObeyOther(d: Daemon, now: nat, t: TimerId, n0: nat, start: nat, settings: Timer)
    requires Values32(d.current) && d.queue != [] && OnSeries(d, t, n0, start, settings) && d.queue[0].timer != t
    ensures OnSeries(RunCommand(d, now), t, n0, start, settings)
  {
    hide Pending, ServedOf, OnlyStarts, TimerOf, SampleTimeNow, RunStart, RunChangePeriod;
    SeriesSingle(d, t, n0, start, settings);
    DequeueProjects(d, t);
    RemoveMembers(d.current, d.queue[0].timer);
    var d1 := Dequeued(d);
    KeepsSeries(d, d1, t, n0, start, settings);
    SampleSeries(d1, now, t, n0, start, settings);
    var d2 := SampleTimeNow(d1, now);
    match d.queue[0] {
      case Start(_, _, _) => RunStartProjects(d2, d.queue[0], now, t);
      case ChangePeriod(u, period) => ChangeOther(d2, u, period, now, t);
      case Stop(_) =>
      case Delete(_) =>
    }
    if RunCommand(d, now) != d2 { KeepsSeries(d2, RunCommand(d, now), t, n0, start, settings); }
  }

  lemma ObeyOwn(d: Daemon, now: nat, t: TimerId, n0: nat, start: nat, settings: Timer)
    requires Values32(d.current) && d.queue != [] && OnSeries(d, t, n0, start, settings) && d.queue[0].timer == t
    ensures OnSeries(RunCommand(d, now), t, n0, start, settings)
  {
    hide Pending, ServedOf, OnlyStarts, TimerOf, SampleTimeNow, RunStart, Chain, Last;
    SeriesSingle(d, t, n0, start, settings);
    DequeueProjects(d, t);
    RemoveMembers(d.current, t);
    var d1 := Dequeued(d);
    SampleAway(d1, now, t);
    var d2 := SampleTimeNow(d1, now);
    var r := RunCommand(d, now);
    RunStartProjects(d2, d.queue[0], now, t);
    if ServedOf(r.log, t) == ServedOf(d2.log, t) { KeepsSeries(d, r, t, n0, start, settings); }
    else { ServesSeries(d, r, t, n0, start, settings); }
  }

  lemma IssueKeeps(d: Daemon, c: Command, t: TimerId)
    requires c.timer != t
    ensures Keeps(d, d.(queue := d.queue + [c]), t)
  {
    DueSend(d.queue, c, t, TimerOf(d, t).period);
  }

  lemma StepSeries(s: State, e: Event, t: TimerId, n0: nat, start: nat, settings: Timer)
    requires Values32(s.d.current) && Enabled(s, e) && OnSeries(s.d, t, n0, start, settings)
    requires e.Issue? ==> e.command.timer != t
    ensures OnSeries(Step(s, e).d, t, n0, start, settings)
  {
    hide OnSeries, Keeps;
    match e {
      case Tick =>
      case Issue(c) =>
        IssueKeeps(s.d, c, t);
        KeepsSeries(s.d, Step(s, e).d, t, n0, start, settings);
      case Timers => RunTimersSeries(s.d, s.now, t, n0, start, settings);
      case Obey =>
        if s.d.queue[0].timer == t { ObeyOwn(s.d, s.now, t, n0, start, settings); }
        else { ObeyOther(s.d, s.now, t, n0, start, settings); }
    }
  }

  /** Neither running nor named by a queued command. */
  ghost predicate Dormant(d: Daemon, t: TimerId) {
    Pending(d, t) == [] && forall c :: c in d.queue ==> c.timer != t
  }

  lemma StartSeries(s: State, t: TimerId, start: nat)
    requires Values32(s.d.current) && Dormant(s.d, t)
    ensures var e := Issue(Start(t, Wrap(start), start));
      OnSeries(Step(s, e).d, t, |ServedOf(s.d.log, t)|, start, TimerOf(s.d, t))
  {
    var c := Start(t, Wrap(start), start);
    DueSend(s.d.queue, c, t, TimerOf(s.d, t).period);
    var all := ServedOf(s.d.log, t);
    assert all[|all|..] == [];
  }

  lemma {:induction false} RunSeries(states: seq<State>, events: seq<Event>, t: TimerId, start: nat, i: nat)
    requires Run(states, events) && 1 <= i < |states| && Dormant(states[0].d, t)
    requires events[0] == Issue(Start(t, Wrap(start), start))
    requires forall j :: 1 <= j < |events| && events[j].Issue? ==> events[j].command.timer != t
    ensures OnSeries(states[i].d, t, |ServedOf(states[0].d.log, t)|, start, TimerOf(states[0].d, t))
  {
    hide OnSeries, Step, Dormant;
    if i == 1 {
      StartSeries(states[0], t, start);
    } else {
      RunSeries(states, events, t, start, i - 1);
      StepSeries(states[i - 1], events[i - 1], t, |ServedOf(states[0].d.log, t)|, start,
        TimerOf(states[0].d, t));
    }
  }

  lemma {:induction false} ChainClosedForm(served: seq<nat>, start: nat, period: nat, k: nat)
    requires Chain(served, start, period) && k < |served|
    ensures served[k] == start + (k + 1) * period
  {
    var front := served[..|served| - 1];
    if k < |front| {
      ChainClosedForm(front, start, period, k);
    } else if k > 0 {
      ChainClosedForm(front, start, period, k - 1);
      assert (k - 1 + 1) * period + period == (k + 1) * period;
    } else {
      assert (k + 1) * period == period;
    }
  }

  /** The timer series. In every run that begins with the queueing of a start, whose time C
      was sampled then or before, of a dormant auto-reload timer t of period P, and in which
      no further command for t is issued, at every later state t has been served for exactly
      C + P, C + 2P, ..., C + nP, in this order, exactly one thing is pending for it (an entry
      on one of the lists or a queued reload), that one is due at C + (n + 1)P, and nothing
      was served early. */
  lemma TimerServedForItsSeries(states: seq<State>, events: seq<Event>, t: TimerId, start: nat, i: nat)
    requires Run(states, events) && 1 <= i < |states| && DaemonOk(states[0].d, states[0].now)
    requires Dormant(states[0].d, t) && TimerOf(states[0].d, t).autoReload
    requires events[0] == Issue(Start(t, Wrap(start), start))
    requires forall j :: 1 <= j < |events| && events[j].Issue? ==> events[j].command.timer != t
    ensures var period := TimerOf(states[0].d, t).period;
      var before, all := ServedOf(states[0].d.log, t), ServedOf(states[i].d.log, t);
      && |before| <= |all|
      && (forall j :: |before| <= j < |all| ==> all[j] == start + (j - |before| + 1) * period)
      && Pending(states[i].d, t) == [start + (|all| - |before| + 1) * period]
    ensures |DueIn(states[i].d.current, t)| + |DueIn(states[i].d.overflow, t)|
          + |DueInQueue(states[i].d.queue, t, TimerOf(states[0].d, t).period)| == 1
    ensures forall r :: r in states[i].d.log ==> r.expiry <= r.at
  {
    hide Run, Dormant, DaemonOk, NoneEarly, ServedOf, DueIn, DueInQueue, OnlyStarts, Chain;
    RunSeries(states, events, t, start, i);
    NoneServedEarly(states, events, i);
    var period := TimerOf(states[0].d, t).period;
    var n0 := |ServedOf(states[0].d.log, t)|;
    var served := ServedOf(states[i].d.log, t)[n0..];
    var all := ServedOf(states[i].d.log, t);
    forall j | n0 <= j < |all| ensures all[j] == start + (j - n0 + 1) * period {
      ChainClosedForm(served, start, period, j - n0);
    }
    LastOfChain(served, start, period);
  }

  /** A one-shot timer started at C is, at every later state, either still pending for
      C + P and not served, or served once, for C + P, and dormant. */
  lemma OneShotServedOnce(states: seq<State>, events: seq<Event>, t: TimerId, start: nat, i: nat)
    requires Run(states, events) && 1 <= i < |states|
    requires Dormant(states[0].d, t) && !TimerOf(states[0].d, t).autoReload
    requires events[0] == Issue(Start(t, Wrap(start), start))
    requires forall j :: 1 <= j < |events| && events[j].Issue? ==> events[j].command.timer != t
    ensures var due := start + TimerOf(states[0].d, t).period;
      var before, all := ServedOf(states[0].d.log, t), ServedOf(states[i].d.log, t);
      || (|all| == |before| && Pending(states[i].d, t) == [due])
      || (|all| == |before| + 1 && all[|before|] == due && Pending(states[i].d, t) == [])
  {
    hide Run, Dormant, ServedOf, DueIn, DueInQueue, OnlyStarts;
    RunSeries(states, events, t, start, i);
    var n0, all := |ServedOf(states[0].d.log, t)|, ServedOf(states[i].d.log, t);
    if |all| == n0 + 1 {
      assert all[n0..][..0] == [];
      assert all[n0..][0] == all[n0];
    }
  }

  lemma LastOfChain(served: seq<nat>, start: nat, period: nat)
    requires Chain(served, start, period)
    ensures Last(served, start) + period == start + (|served| + 1) * period
  {
    if served != [] {
      ChainClosedForm(served, start, period, |served| - 1);
    }
    assert (|served| + 1) * period == |served| * period + period;
  }

  lemma NoneServedEarly(states: seq<State>, events: seq<Event>, i: nat)
    requires Run(states, events) && i < |states| && DaemonOk(states[0].d, states[0].now)
    ensures forall r :: r in states[i].d.log ==> r.expiry <= r.at
  {
    hide Run, ListsOk, TimersOk, QueueOk;
    RunOk(states, events, i);
  }
}
