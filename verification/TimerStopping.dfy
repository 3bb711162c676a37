/** Stopping a timer: what a stop achieves, and exactly when the daemon undoes it. */
module TimerStopping {
  import opened Ticks
  import opened TimerModel
  import opened TimerSafety
  import opened TimerSeries

  predicate On(list: seq<Entry>, t: TimerId) {
    exists e :: e in list && e.timer == t
  }

  /** A start or reload of t is queued. */
  predicate Names(queue: seq<Command>, t: TimerId) {
    exists c :: c in queue && c.Start? && c.timer == t
  }

  predicate Running(d: Daemon, t: TimerId) {
    On(d.current, t) || On(d.overflow, t) || Names(d.queue, t)
  }

  /** What is queued behind the first stop of t. */
  function Behind(queue: seq<Command>, t: TimerId): seq<Command> {
    if queue == [] then [] else if queue[0] == Stop(t) then queue[1..] else Behind(queue[1..], t)
  }

  lemma {:induction false} BehindAppend(queue: seq<Command>, sent: seq<Command>, t: TimerId)
    requires Stop(t) in queue
    ensures Behind(queue + sent, t) == Behind(queue, t) + sent
  {
    assert (queue + sent)[1..] == queue[1..] + sent;
    if queue[0] != Stop(t) {
      BehindAppend(queue[1..], sent, t);
    }
  }

  lemma {:induction false} BehindIssue(queue: seq<Command>, t: TimerId)
    requires Stop(t) !in queue
    ensures Behind(queue + [Stop(t)], t) == []
  {
    if queue != [] {
      BehindIssue(queue[1..], t);
      assert (queue + [Stop(t)])[1..] == queue[1..] + [Stop(t)];
    }
  }

  lemma NamesSplit(a: seq<Command>, b: seq<Command>, t: TimerId)
    ensures Names(a + b, t) == (Names(a, t) || Names(b, t))
  {
    if Names(a, t) {
      var c :| c in a && c.Start? && c.timer == t;
      assert c in a + b;
    }
    if Names(b, t) {
      var c :| c in b && c.Start? && c.timer == t;
      assert c in a + b;
    }
  }

  /** From queue q to queue r only commands have been sent, among them one that starts t,
      or none. */
  ghost predicate Sent(q: seq<Command>, r: seq<Command>, t: TimerId, starts: bool) {
    q <= r && Names(r[|q|..], t) == starts
  }

  lemma SentNothing(q: seq<Command>, t: TimerId)
    ensures Sent(q, q, t, false)
  {
  }

  lemma SentOne(q: seq<Command>, c: Command, t: TimerId)
    ensures Sent(q, q + [c], t, c.Start? && c.timer == t)
  {
    assert (q + [c])[|q|..] == [c];
    if c.Start? && c.timer == t { assert c in [c]; }
  }

  lemma SentTwice(q: seq<Command>, m: seq<Command>, r: seq<Command>, t: TimerId, a: bool, b: bool)
    requires Sent(q, m, t, a) && Sent(m, r, t, b)
    ensures Sent(q, r, t, a || b)
  {
    NamesSplit(m[|q|..], r[|m|..], t);
    assert r[|q|..] == m[|q|..] + r[|m|..];
  }

  // ---- what each job of the daemon sends ----

  lemma OnInsert(list: seq<Entry>, e: Entry, t: TimerId)
    ensures On(InsertEntry(list, e), t) == (e.timer == t || On(list, t))
  {
    InsertMembers(list, e);
    if On(list, t) {
      var x :| x in list && x.timer == t;
      assert x in InsertEntry(list, e);
    }
    assert e in InsertEntry(list, e);
  }

  lemma OnTail(list: seq<Entry>, t: TimerId)
    requires list != []
    ensures On(list, t) == (list[0].timer == t || On(list[1..], t))
  {
    assert list[0] in list;
    if On(list[1..], t) {
      var x :| x in list[1..] && x.timer == t;
      assert x in list;
    }
  }

  lemma SwitchTurnSends(d: Daemon, now: nat, t: TimerId)
    requires d.current != []
    ensures var (e, r, timer) := (d.current[0], SwitchTurn(d, now), TimerOf(d, t));
      var starts := timer.autoReload && e.timer == t && Wrap(e.value + timer.period) <= e.value;
      Sent(d.queue, r.queue, t, starts) && (timer.autoReload ==> On(d.current, t) == (starts || On(r.current, t)))
  {
    hide Wrap, Sent, On;
    var e := d.current[0];
    var timer := TimerOf(d, e.timer);
    OnTail(d.current, t);
    OnInsert(d.current[1..], Entry(e.timer, Wrap(e.value + timer.period), e.expiry + timer.period), t);
    SentNothing(d.queue, t);
    SentOne(d.queue, Start(e.timer, e.value, e.expiry), t);
  }

  /** The switch sends a reload for exactly the auto-reload timers on the old list. */
  lemma {:induction false} SwitchLoopSends(d: Daemon, now: nat, t: TimerId)
    requires Values32(d.current)
    ensures Sent(d.queue, SwitchLoop(d, now).queue, t, TimerOf(d, t).autoReload && On(d.current, t))
    decreases Distance(d.current)
  {
    hide Wrap, Sent, SwitchTurn, TimerOf;
    if d.current == [] {
      SentNothing(d.queue, t);
    } else {
      var r := SwitchTurn(d, now);
      SwitchTurnDistance(d, now);
      SwitchTurn32(d, now);
      SwitchTurnSends(d, now, t);
      TurnKeepsTimers(d, now, t);
      SwitchLoopSends(r, now, t);
      var (e, timer) := (d.current[0], TimerOf(d, t));
      var starts := timer.autoReload && e.timer == t && Wrap(e.value + timer.period) <= e.value;
      SentTwice(d.queue, r.queue, SwitchLoop(r, now).queue, t, starts, timer.autoReload && On(r.current, t));
    }
  }

  lemma TurnKeepsTimers(d: Daemon, now: nat, t: TimerId)
    requires d.current != []
    ensures TimerOf(SwitchTurn(d, now), t) == TimerOf(d, t)
  {
  }

  lemma SampleSends(d: Daemon, now: nat, t: TimerId)
    requires Values32(d.current)
    ensures Sent(d.queue, SampleTimeNow(d, now).queue, t,
      Wrap(now) < d.lastTime && TimerOf(d, t).autoReload && On(d.current, t))
    ensures TimerOf(SampleTimeNow(d, now), t) == TimerOf(d, t)
  {
    hide Sent, On;
    SentNothing(d.queue, t);
    SwitchLoopSends(d, now, t);
  }

  lemma ProcessExpiredSends(d: Daemon, now: nat, t: TimerId)
    requires DaemonOk(d, now) && d.lastSample == now
    requires d.current != [] && d.current[0].value <= Wrap(now)
    ensures var (e, timer) := (d.current[0], TimerOf(d, t));
      Sent(d.queue, ProcessExpired(d, now).queue, t, timer.autoReload && e.timer == t && e.expiry + timer.period <= now)
  {
    hide ListsOk, TimersOk, QueueOk, NoneEarly, Wrap, Epoch, Place, Sent;
    var e := d.current[0];
    var timer := TimerOf(d, e.timer);
    HeadDue(d, now);
    PeriodOk(d, e.timer);
    PlacementExact(e.expiry, timer.period, now);
    SentNothing(d.queue, t);
    SentOne(d.queue, Start(e.timer, e.value, e.expiry), t);
  }

  lemma RunStartSends(d: Daemon, c: Command, now: nat, t: TimerId)
    requires DaemonOk(d, now)
    requires c.Start? && CommandOk(c, now) && now < c.time + 0x1_0000_0000
    ensures var timer := TimerOf(d, t);
      Sent(d.queue, RunStart(d, c, now).queue, t, timer.autoReload && c.timer == t && c.time + timer.period <= now)
  {
    hide ListsOk, QueueOk, NoneEarly, Wrap, Epoch, Place, Sent;
    var timer := TimerOf(d, c.timer);
    PeriodOk(d, c.timer);
    PlacementExact(c.time, timer.period, now);
    SentNothing(d.queue, t);
    SentOne(d.queue, Start(c.timer, Wrap(c.value + timer.period), c.time + timer.period), t);
  }

  // ---- what a step sends ----

  /** The daemon serves the timer t, that has to be an auto-reload timer, and queues a
      reload: in the list switch, or from the list when its next expiry has been reached too,
      or on obeying a start of it whose first expiry has been reached. */
  predicate SendsReload(s: State, e: Event, t: TimerId) {
    var (d, now, timer) := (s.d, s.now, TimerOf(s.d, t));
    var switches := Wrap(now) < d.lastTime;
    && timer.autoReload
    && match e
       case Timers =>
         if switches then On(d.current, t)
         else
           && d.current != [] && d.current[0].timer == t && d.current[0].value <= Wrap(now)
           && d.current[0].expiry + timer.period <= now
       case Obey =>
         && d.queue != []
         && var c := d.queue[0];
            if c.timer != t then switches && On(d.current, t) else c.Start? && c.time + timer.period <= now
       case _ => false
  }

  lemma RunTimersSends(d: Daemon, now: nat, t: TimerId)
    requires DaemonOk(d, now) && now < d.lastSample + 0x1_0000_0000 && Values32(d.current)
    ensures Sent(d.queue, RunTimers(d, now).queue, t, SendsReload(State(d, now), Timers, t))
    ensures TimerOf(RunTimers(d, now), t) == TimerOf(d, t)
  {
    hide DaemonOk, SampleTimeNow, Sent, On;
    SampleOk(d, now);
    SampleSends(d, now, t);
    var d1 := SampleTimeNow(d, now);
    if RunTimers(d, now) != d1 || !(Wrap(now) < d.lastTime) {
      NoSwitch(d, now);
      if d1.current != [] && d1.current[0].value <= Wrap(now) {
        ProcessExpiredSends(d1, now, t);
        var (e, timer) := (d1.current[0], TimerOf(d, t));
        SentTwice(d.queue, d1.queue, RunTimers(d, now).queue, t, false,
          timer.autoReload && e.timer == t && e.expiry + timer.period <= now);
      }
    }
  }

  lemma NoSwitch(d: Daemon, now: nat)
    requires Values32(d.current)
    ensures !(Wrap(now) < d.lastTime) ==> SampleTimeNow(d, now) == d.(lastTime := Wrap(now), lastSample := now)
  {
  }

  lemma OnRemove(list: seq<Entry>, u: TimerId, t: TimerId)
    ensures On(RemoveTimer(list, u), t) == (u != t && On(list, t))
  {
    RemoveMembers(list, u);
    if u != t && On(list, t) {
      var x :| x in list && x.timer == t;
      assert x in RemoveTimer(list, u);
    }
  }

  lemma RunCommandSends(d: Daemon, now: nat, t: TimerId)
    requires DaemonOk(d, now) && now < d.lastSample + 0x1_0000_0000 && Values32(d.current) && d.queue != []
    requires d.queue[0].Start? ==> now < d.queue[0].time + 0x1_0000_0000
    ensures Sent(d.queue[1..], RunCommand(d, now).queue, t, SendsReload(State(d, now), Obey, t))
    ensures TimerOf(RunCommand(d, now), t).autoReload == TimerOf(d, t).autoReload
  {
    hide DaemonOk, SampleTimeNow, RunStart, RunChangePeriod, Sent, On, Wrap;
    var c := d.queue[0];
    var d1 := Dequeued(d);
    DequeueOk(d, now);
    OnRemove(d.current, c.timer, t);
    SampleOk(d1, now);
    SampleSends(d1, now, t);
    var d2 := SampleTimeNow(d1, now);
    match c {
      case Start(_, _, _) =>
        RunStartSends(d2, c, now, t);
        StartKeepsTimers(d2, c, now, t);
        var timer := TimerOf(d, t);
        SentTwice(d1.queue, d2.queue, RunCommand(d, now).queue, t,
          Wrap(now) < d.lastTime && timer.autoReload && On(d1.current, t),
          timer.autoReload && c.timer == t && c.time + timer.period <= now);
      case ChangePeriod(u, period) => ChangeKeeps(d2, u, period, now, t);
      case Stop(_) =>
      case Delete(_) =>
    }
  }

  lemma StartKeepsTimers(d: Daemon, c: Command, now: nat, t: TimerId)
    requires c.Start?
    ensures TimerOf(RunStart(d, c, now), t) == TimerOf(d, t)
  {
  }

  lemma ChangeKeeps(d: Daemon, u: TimerId, period: nat, now: nat, t: TimerId)
    ensures var r := RunChangePeriod(d, u, period, now);
      r.queue == d.queue && TimerOf(r, t).autoReload == TimerOf(d, t).autoReload
  {
  }

  // ---- when a stop is overtaken ----

  /** Between the issue of a stop and its obeying, a step queues a start behind it exactly
      if it sends a reload. */
  lemma StepBehind(s: State, e: Event, t: TimerId)
    requires DaemonOk(s.d, s.now) && Values32(s.d.current) && Enabled(s, e) && Stop(t) in s.d.queue
    requires (e.Issue? ==> e.command.timer != t) && (e.Obey? ==> s.d.queue[0] != Stop(t))
    ensures var r := Step(s, e).d;
      && Stop(t) in r.queue
      && Names(Behind(r.queue, t), t) == (Names(Behind(s.d.queue, t), t) || SendsReload(s, e, t))
  {
    hide DaemonOk, RunTimers, RunCommand, SendsReload, Names, Behind;
    match e {
      case Tick => NeverSends(s, e, t);
      case Issue(c) =>
        NeverSends(s, e, t);
        SentOne(s.d.queue, c, t);
        SentBehind(s.d.queue, s.d.queue + [c], t, false);
      case Timers =>
        RunTimersSends(s.d, s.now, t);
        SentBehind(s.d.queue, RunTimers(s.d, s.now).queue, t, SendsReload(s, e, t));
      case Obey =>
        RunCommandSends(s.d, s.now, t);
        StopStays(s.d.queue, t);
        SentBehind(s.d.queue[1..], RunCommand(s.d, s.now).queue, t, SendsReload(s, e, t));
    }
  }

  lemma NeverSends(s: State, e: Event, t: TimerId)
    requires e.Tick? || e.Issue?
    ensures !SendsReload(s, e, t)
  {
  }

  lemma StopStays(queue: seq<Command>, t: TimerId)
    requires queue != [] && queue[0] != Stop(t) && Stop(t) in queue
    ensures Stop(t) in queue[1..] && Behind(queue[1..], t) == Behind(queue, t)
  {
  }

  lemma SentBehind(q: seq<Command>, r: seq<Command>, t: TimerId, starts: bool)
    requires Sent(q, r, t, starts) && Stop(t) in q
    ensures Stop(t) in r && Names(Behind(r, t), t) == (Names(Behind(q, t), t) || starts)
  {
    hide Names, Behind;
    var sent := r[|q|..];
    assert r == q + sent;
    BehindAppend(q, sent, t);
    NamesSplit(Behind(q, t), sent, t);
  }

  /** Obeying a stop takes the timer off both lists, so that it runs on exactly if a start
      of it is queued behind. */
  lemma ObeyStop(d: Daemon, now: nat, t: TimerId)
    requires Values32(d.current) && d.queue != [] && d.queue[0] == Stop(t)
    ensures Running(RunCommand(d, now), t) == Names(d.queue[1..], t)
  {
    hide On, Names, Wrap;
    var d1 := Dequeued(d);
    RemoveMembers(d.current, t);
    OnRemove(d.current, t, t);
    OnRemove(d.overflow, t, t);
    SampleSends(d1, now, t);
    SampleLists(d1, now, t);
    var r := SampleTimeNow(d1, now);
    NamesSplit(d1.queue, r.queue[|d1.queue|..], t);
    assert r.queue == d1.queue + r.queue[|d1.queue|..];
  }

  lemma SampleLists(d: Daemon, now: nat, t: TimerId)
    requires Values32(d.current) && !On(d.current, t) && !On(d.overflow, t)
    ensures !On(SampleTimeNow(d, now).current, t) && !On(SampleTimeNow(d, now).overflow, t)
  {
  }

  lemma {:induction false} BehindAtStep(states: seq<State>, events: seq<Event>, t: TimerId, i: nat)
    requires Run(states, events) && DaemonOk(states[0].d, states[0].now) && 1 <= i < |states|
    requires events[0] == Issue(Stop(t)) && Stop(t) !in states[0].d.queue
    requires forall j :: 1 <= j < i ==>
      (events[j].Issue? ==> events[j].command.timer != t) && (events[j].Obey? ==> states[j].d.queue[0] != Stop(t))
    ensures Stop(t) in states[i].d.queue
    ensures Names(Behind(states[i].d.queue, t), t) <==> exists j :: 1 <= j < i && SendsReload(states[j], events[j], t)
  {
    hide DaemonOk, Step, SendsReload, Names, Behind, Values32;
    if i == 1 {
      StopIssued(states[0], t);
    } else {
      BehindAtStep(states, events, t, i - 1);
      RunOk(states, events, i - 1);
      StepBehind(states[i - 1], events[i - 1], t);
    }
  }

  lemma StopIssued(s: State, t: TimerId)
    requires Stop(t) !in s.d.queue && Values32(s.d.current)
    ensures var r := Step(s, Issue(Stop(t))).d;
      Stop(t) in r.queue && !Names(Behind(r.queue, t), t)
  {
    BehindIssue(s.d.queue, t);
  }

  /** A stop is overtaken, the timer running on after the daemon has obeyed it, if and only
      if in between the daemon served the timer and queued a reload behind the stop. */
  lemma StopOvertakenExactly(states: seq<State>, events: seq<Event>, t: TimerId, k: nat)
    requires Run(states, events) && DaemonOk(states[0].d, states[0].now) && 1 <= k < |events|
    requires events[0] == Issue(Stop(t)) && Stop(t) !in states[0].d.queue
    requires forall j :: 1 <= j < k ==>
      (events[j].Issue? ==> events[j].command.timer != t) && (events[j].Obey? ==> states[j].d.queue[0] != Stop(t))
    requires events[k] == Obey && states[k].d.queue[0] == Stop(t)
    ensures Running(states[k + 1].d, t) <==> exists j :: 1 <= j < k && SendsReload(states[j], events[j], t)
  {
    hide DaemonOk, SendsReload, Running, Names, RunCommand;
    BehindAtStep(states, events, t, k);
    ObeyStop(states[k].d, states[k].now, t);
    assert Behind(states[k].d.queue, t) == states[k].d.queue[1..];
  }

  lemma {:induction false} KindStays(states: seq<State>, events: seq<Event>, t: TimerId, k: nat)
    requires Run(states, events) && DaemonOk(states[0].d, states[0].now) && k < |states|
    ensures TimerOf(states[k].d, t).autoReload == TimerOf(states[0].d, t).autoReload
  {
    hide DaemonOk, SendsReload, RunTimers, RunCommand, Sent, Values32, TimerOf;
    if k > 0 {
      KindStays(states, events, t, k - 1);
      RunOk(states, events, k - 1);
      var s := states[k - 1];
      match events[k - 1] {
        case Tick =>
        case Issue(c) => TimersIssued(s.d, c, t);
        case Timers => RunTimersSends(s.d, s.now, t);
        case Obey => RunCommandSends(s.d, s.now, t);
      }
    }
  }

  lemma TimersIssued(d: Daemon, c: Command, t: TimerId)
    ensures TimerOf(d.(queue := d.queue + [c]), t) == TimerOf(d, t)
  {
  }

  /** A one-shot timer never runs on after a stop. */
  lemma OneShotStops(states: seq<State>, events: seq<Event>, t: TimerId, k: nat)
    requires Run(states, events) && DaemonOk(states[0].d, states[0].now) && 1 <= k < |events|
    requires events[0] == Issue(Stop(t)) && Stop(t) !in states[0].d.queue && !TimerOf(states[0].d, t).autoReload
    requires forall j :: 1 <= j < k ==>
      (events[j].Issue? ==> events[j].command.timer != t) && (events[j].Obey? ==> states[j].d.queue[0] != Stop(t))
    requires events[k] == Obey && states[k].d.queue[0] == Stop(t)
    ensures !Running(states[k + 1].d, t)
  {
    hide DaemonOk, Running, Step, Enabled, TimerOf;
    StopOvertakenExactly(states, events, t, k);
    forall j | 1 <= j < k ensures !SendsReload(states[j], events[j], t) {
      KindStays(states, events, t, j);
    }
  }

  lemma {:induction false} OnIsDue(list: seq<Entry>, t: TimerId)
    ensures On(list, t) <==> DueIn(list, t) != []
  {
    if list != [] {
      OnTail(list, t);
      OnIsDue(list[1..], t);
    }
  }

  lemma {:induction false} NamesIsDue(queue: seq<Command>, t: TimerId, period: nat)
    ensures Names(queue, t) <==> DueInQueue(queue, t, period) != []
  {
    if queue != [] {
      NamesSplit([queue[0]], queue[1..], t);
      assert queue == [queue[0]] + queue[1..] && (queue[0] in [queue[0]]);
      NamesIsDue(queue[1..], t, period);
    }
  }

  /** Running means that an expiry is pending. */
  lemma RunningIsPending(d: Daemon, t: TimerId)
    ensures Running(d, t) <==> Pending(d, t) != []
  {
    OnIsDue(d.current, t);
    OnIsDue(d.overflow, t);
    NamesIsDue(d.queue, t, TimerOf(d, t).period);
  }

  // ---- a stop that is overtaken ----

  const ONE: map<TimerId, Timer> := map[1 := Timer(1, true)]

  /** Timer 1, of period 1, is started and runs; it is stopped at 1, but the daemon is first
      back at 2: it serves the expiry at 1, whose successor at 2 has come too, and sends a
      reload, which it finds behind the stop. */
  lemma StopCanBeOvertaken() returns (states: seq<State>, events: seq<Event>)
    ensures Run(states, events) && states[0] == State(Daemon(ONE, [], [], [], 0, 0, []), 0)
    ensures |events| == 7 && events[3] == Issue(Stop(1)) && events[6] == Obey && states[6].d.queue[..1] == [Stop(1)]
    ensures SendsReload(states[5], events[5], 1) && Running(states[7].d, 1)
  {
    hide SendsReload, Running, Run, Step, Enabled;
    var start, stop, reload := Start(1, 0, 0), Stop(1), Start(1, 1, 1);
    var s0 := State(Daemon(ONE, [], [], [], 0, 0, []), 0);
    var s1 := State(Daemon(ONE, [], [], [start], 0, 0, []), 0);
    var s2 := State(Daemon(ONE, [Entry(1, 1, 1)], [], [], 0, 0, []), 0);
    var s3 := State(Daemon(ONE, [Entry(1, 1, 1)], [], [], 0, 0, []), 1);
    var s4 := State(Daemon(ONE, [Entry(1, 1, 1)], [], [stop], 0, 0, []), 1);
    var s5 := State(Daemon(ONE, [Entry(1, 1, 1)], [], [stop], 0, 0, []), 2);
    var s6 := State(Daemon(ONE, [], [], [stop, reload], 2, 2, [Served(1, 1, 2)]), 2);
    var s7 := State(Daemon(ONE, [], [], [reload], 2, 2, [Served(1, 1, 2)]), 2);
    states := [s0, s1, s2, s3, s4, s5, s6, s7];
    events := [Issue(start), Obey, Tick, Issue(stop), Tick, Timers, Obey];
    IssueAndObey(s0, s1, s2);
    WaitAndStop(s2, s3, s4, s5);
    ServeLate(s5, s6);
    ObeyLate(s6, s7);
    SevenSteps(states, events);
  }

  /** A run may be put together from its steps. */
  lemma SevenSteps(states: seq<State>, events: seq<Event>)
    requires |states| == 8 && |events| == 7
    requires Leads(states[0], events[0], states[1]) && Leads(states[1], events[1], states[2])
      && Leads(states[2], events[2], states[3])
    requires Leads(states[3], events[3], states[4]) && Leads(states[4], events[4], states[5])
      && Leads(states[5], events[5], states[6])
    requires Leads(states[6], events[6], states[7])
    ensures Run(states, events)
  {
    hide Step, Enabled, Values32;
    forall i | 0 <= i < 7 ensures Leads(states[i], events[i], states[i + 1]) {
    }
  }

  ghost predicate Leads(s: State, e: Event, r: State) {
    Values32(s.d.current) && Enabled(s, e) && r == Step(s, e)
  }

  lemma IssueAndObey(s0: State, s1: State, s2: State)
    requires s0 == State(Daemon(ONE, [], [], [], 0, 0, []), 0)
    requires s1 == State(Daemon(ONE, [], [], [Start(1, 0, 0)], 0, 0, []), 0)
    requires s2 == State(Daemon(ONE, [Entry(1, 1, 1)], [], [], 0, 0, []), 0)
    ensures Leads(s0, Issue(Start(1, 0, 0)), s1) && Leads(s1, Obey, s2)
  {
    assert [] + [Start(1, 0, 0)] == [Start(1, 0, 0)];
    assert [Start(1, 0, 0)][1..] == [];
    assert [Entry(1, 1, 1)] + [] == [Entry(1, 1, 1)];
  }

  lemma WaitAndStop(s2: State, s3: State, s4: State, s5: State)
    requires s2 == State(Daemon(ONE, [Entry(1, 1, 1)], [], [], 0, 0, []), 0)
    requires s3 == State(Daemon(ONE, [Entry(1, 1, 1)], [], [], 0, 0, []), 1)
    requires s4 == State(Daemon(ONE, [Entry(1, 1, 1)], [], [Stop(1)], 0, 0, []), 1)
    requires s5 == State(Daemon(ONE, [Entry(1, 1, 1)], [], [Stop(1)], 0, 0, []), 2)
    ensures Leads(s2, Tick, s3) && Leads(s3, Issue(Stop(1)), s4) && Leads(s4, Tick, s5)
  {
    assert [] + [Stop(1)] == [Stop(1)];
  }

  lemma ServeLate(s5: State, s6: State)
    requires s5 == State(Daemon(ONE, [Entry(1, 1, 1)], [], [Stop(1)], 0, 0, []), 2)
    requires s6 == State(Daemon(ONE, [], [], [Stop(1), Start(1, 1, 1)], 2, 2, [Served(1, 1, 2)]), 2)
    ensures Leads(s5, Timers, s6) && SendsReload(s5, Timers, 1)
  {
    assert [Entry(1, 1, 1)][1..] == [] && [Stop(1)] + [Start(1, 1, 1)] == [Stop(1), Start(1, 1, 1)]
      && [] + [Served(1, 1, 2)] == [Served(1, 1, 2)];
  }

  lemma ObeyLate(s6: State, s7: State)
    requires s6 == State(Daemon(ONE, [], [], [Stop(1), Start(1, 1, 1)], 2, 2, [Served(1, 1, 2)]), 2)
    requires s7 == State(Daemon(ONE, [], [], [Start(1, 1, 1)], 2, 2, [Served(1, 1, 2)]), 2)
    ensures Leads(s6, Obey, s7) && Running(s7.d, 1)
  {
    assert [Stop(1), Start(1, 1, 1)][1..] == [Start(1, 1, 1)];
    assert Start(1, 1, 1) in s7.d.queue;
  }
}
