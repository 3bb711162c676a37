/** Runs of the timer daemon: entries stay on the list of their epoch, nothing is served
    early, and every running timer is served for exactly its series of expiries. */
module TimerSafety {
  import opened Ticks
  import opened TimerModel

  /** now is the absolute tick count. */
  datatype State = State(d: Daemon, now: nat)

  /** Timers and Obey are the daemon's two jobs, Issue a call of the timer API. */
  datatype Event = Tick | Issue(command: Command) | Timers | Obey

  ghost function Step(s: State, e: Event): State
    requires Values32(s.d.current)
  {
    match e
    case Tick => s.(now := s.now + 1)
    case Issue(c) => s.(d := s.d.(queue := s.d.queue + [c]))
    case Timers => s.(d := RunTimers(s.d, s.now))
    case Obey => if s.d.queue == [] then s else s.(d := RunCommand(s.d, s.now))
  }

  ghost predicate CommandOk(c: Command, now: nat) {
    && (c.Start? ==> c.time <= now && c.value == Wrap(c.time))
    && (c.ChangePeriod? ==> 0 < c.period < 0x1_0000_0000)
  }

  /** The daemon samples the time within one wrap of its last sample, and obeys a start
      within one wrap of the time it carries, which was sampled before it was queued. */
  ghost predicate Enabled(s: State, e: Event) {
    match e
    case Tick => true
    case Issue(c) => CommandOk(c, s.now)
    case Timers => s.now < s.d.lastSample + 0x1_0000_0000
    case Obey =>
      && s.d.queue != [] && s.now < s.d.lastSample + 0x1_0000_0000
      && (s.d.queue[0].Start? ==> s.now < s.d.queue[0].time + 0x1_0000_0000)
  }

  ghost predicate Run(states: seq<State>, events: seq<Event>) {
    && |states| == |events| + 1
    && forall i :: 0 <= i < |events| ==>
         Values32(states[i].d.current) && Enabled(states[i], events[i]) && states[i + 1] == Step(states[i], events[i])
  }

  // ---- entries stay on the list of their epoch ----

  ghost predicate InEpoch(list: seq<Entry>, epoch: int) {
    forall e :: e in list ==> e.value == Wrap(e.expiry) && Epoch(e.expiry) == epoch
  }

  ghost predicate SortedEntries(list: seq<Entry>) {
    forall i, j :: 0 <= i < j < |list| ==> list[i].value <= list[j].value
  }

  ghost predicate TimersOk(d: Daemon) {
    forall t :: t in d.timers ==> 0 < d.timers[t].period < 0x1_0000_0000
  }

  ghost predicate QueueOk(d: Daemon, now: nat) {
    forall c :: c in d.queue ==> CommandOk(c, now)
  }

  /** Nothing is served before it expires. */
  ghost predicate NoneEarly(d: Daemon) {
    forall r :: r in d.log ==> r.expiry <= r.at
  }

  ghost predicate ListsOk(d: Daemon, epoch: int) {
    && InEpoch(d.current, epoch) && InEpoch(d.overflow, epoch + 1)
    && SortedEntries(d.current) && SortedEntries(d.overflow)
  }

  ghost predicate DaemonOk(d: Daemon, now: nat) {
    && d.lastTime == Wrap(d.lastSample) && d.lastSample <= now
    && ListsOk(d, Epoch(d.lastSample))
    && TimersOk(d) && QueueOk(d, now) && NoneEarly(d)
  }

  /** Current entries have values below 2^32, so the loop bound of the model applies. */
  lemma Bounded(list: seq<Entry>, epoch: int)
    requires InEpoch(list, epoch)
    ensures Values32(list)
  {
  }

  lemma {:induction false} InsertSorted(list: seq<Entry>, e: Entry)
    requires SortedEntries(list)
    ensures SortedEntries(InsertEntry(list, e))
  {
    hide SortedEntries;
    if list == [] {
      OneSorted(e);
    } else if e.value >= list[0].value {
      TailAbove(list);
      InsertSorted(list[1..], e);
      InsertMembers(list[1..], e);
      ConsSorted(list[0], InsertEntry(list[1..], e));
    } else {
      TailAbove(list);
      ConsSorted(e, list);
    }
  }

  /** A smallest entry may be put in front. */
  lemma ConsSorted(e: Entry, r: seq<Entry>)
    requires SortedEntries(r) && forall x :: x in r ==> e.value <= x.value
    ensures SortedEntries([e] + r)
  {
    assert forall i :: 0 <= i < |r| ==> r[i] in r;
  }

  lemma OneSorted(e: Entry)
    ensures SortedEntries([e] + [])
  {
  }

  lemma TailAbove(list: seq<Entry>)
    requires list != [] && SortedEntries(list)
    ensures SortedEntries(list[1..]) && forall x :: x in list ==> list[0].value <= x.value
    ensures forall x :: x in list[1..] ==> list[0].value <= x.value
  {
  }

  lemma {:induction false} RemoveSorted(list: seq<Entry>, t: TimerId)
    requires SortedEntries(list)
    ensures SortedEntries(RemoveTimer(list, t))
  {
    hide SortedEntries;
    if list != [] {
      TailAbove(list);
      RemoveSorted(list[1..], t);
      RemoveMembers(list[1..], t);
      ConsSorted(list[0], RemoveTimer(list[1..], t));
      assert [] + RemoveTimer(list[1..], t) == RemoveTimer(list[1..], t);
    }
  }

  lemma InsertOk(list: seq<Entry>, e: Entry, epoch: int)
    requires InEpoch(list, epoch) && SortedEntries(list) && e.value == Wrap(e.expiry) && Epoch(e.expiry) == epoch
    ensures InEpoch(InsertEntry(list, e), epoch) && SortedEntries(InsertEntry(list, e))
  {
    InsertSorted(list, e);
    InsertMembers(list, e);
  }

  lemma TailOk(list: seq<Entry>, epoch: int)
    requires list != [] && InEpoch(list, epoch) && SortedEntries(list)
    ensures InEpoch(list[1..], epoch) && SortedEntries(list[1..])
    ensures list[0].value == Wrap(list[0].expiry) && Epoch(list[0].expiry) == epoch
  {
    assert list[0] in list;
    var tail := list[1..];
    assert forall i :: 0 <= i < |tail| ==> tail[i] == list[i + 1];
  }

  lemma PeriodOk(d: Daemon, t: TimerId)
    requires TimersOk(d)
    ensures 0 < TimerOf(d, t).period < 0x1_0000_0000
  {
  }

  lemma LogOk(d: Daemon, t: TimerId, expiry: nat, now: nat)
    requires NoneEarly(d) && expiry <= now
    ensures NoneEarly(Log(d, t, expiry, now))
  {
  }

  lemma SendOk(d: Daemon, t: TimerId, value: nat, time: nat, now: nat)
    requires QueueOk(d, now) && time <= now && value == Wrap(time)
    ensures QueueOk(SendReload(d, t, value, time), now)
  {
  }

  // ---- switching ----

  /** An entry of a finished epoch reloads within it exactly if its value does not wrap. */
  lemma ReloadWraps(expiry: nat, period: nat)
    requires 0 < period < 0x1_0000_0000
    ensures var value := Wrap(expiry); var reload := Wrap(value + period);
      && reload == Wrap(expiry + period)
      && (reload > value) == (Epoch(expiry + period) == Epoch(expiry))
      && Epoch(expiry) <= Epoch(expiry + period) <= Epoch(expiry) + 1
  {
    SumWraps(expiry, period);
    WrapStep(expiry, expiry + period);
  }

  ghost predicate Switching(d: Daemon, now: nat, epoch: int) {
    ListsOk(d, epoch) && epoch < Epoch(now) && TimersOk(d) && QueueOk(d, now) && NoneEarly(d)
  }

  lemma EpochOrder(a: nat, b: nat)
    requires Epoch(a) < Epoch(b)
    ensures a < b
  {
  }

  lemma SwitchTurnOk(d: Daemon, now: nat, epoch: int)
    requires Switching(d, now, epoch) && d.current != []
    ensures Switching(SwitchTurn(d, now), now, epoch)
  {
    hide InEpoch, SortedEntries, TimersOk, QueueOk, NoneEarly, Wrap, Epoch;
    var e := d.current[0];
    var timer := TimerOf(d, e.timer);
    TailOk(d.current, epoch);
    PeriodOk(d, e.timer);
    EpochOrder(e.expiry, now);
    ReloadWraps(e.expiry, timer.period);
    var d1 := d.(current := d.current[1..]);
    SameLog(d, d1);
    LogOk(d1, e.timer, e.expiry, now);
    var d2 := Log(d1, e.timer, e.expiry, now);
    SameParts(d, d2, now);
    if timer.autoReload {
      if Wrap(e.value + timer.period) > e.value {
        InsertOk(d.current[1..], Entry(e.timer, Wrap(e.value + timer.period), e.expiry + timer.period), epoch);
        SameParts(d2, SwitchTurn(d, now), now);
      } else {
        SendOk(d2, e.timer, e.value, e.expiry, now);
        SendFrame(d2, e.timer, e.value, e.expiry, now);
      }
    }
    SameLog(d2, SwitchTurn(d, now));
  }

  lemma SameLog(d: Daemon, r: Daemon)
    requires r.log == d.log && NoneEarly(d)
    ensures NoneEarly(r)
  {
  }

  lemma SameParts(d: Daemon, r: Daemon, now: nat)
    requires r.timers == d.timers && r.queue == d.queue
    ensures TimersOk(d) ==> TimersOk(r)
    ensures QueueOk(d, now) ==> QueueOk(r, now)
  {
  }

  lemma {:induction false} SwitchLoopOk(d: Daemon, now: nat, epoch: int)
    requires Switching(d, now, epoch) && Values32(d.current)
    ensures Switching(SwitchLoop(d, now), now, epoch)
    decreases Distance(d.current)
  {
    hide InEpoch, SortedEntries, TimersOk, QueueOk, NoneEarly;
    if d.current != [] {
      SwitchTurnDistance(d, now);
      SwitchTurn32(d, now);
      SwitchTurnOk(d, now, epoch);
      SwitchLoopOk(SwitchTurn(d, now), now, epoch);
    }
  }

  /** Sampling the time, at most one wrap after the last sample, switches the lists exactly
      when the epoch has changed, and leaves them right for the new one. */
  lemma SampleOk(d: Daemon, now: nat)
    requires DaemonOk(d, now) && now < d.lastSample + 0x1_0000_0000 && Values32(d.current)
    ensures DaemonOk(SampleTimeNow(d, now), now)
    ensures SampleTimeNow(d, now).lastSample == now
    ensures (Wrap(now) < d.lastTime) == (Epoch(now) != Epoch(d.lastSample))
  {
    hide InEpoch, SortedEntries, TimersOk, QueueOk, NoneEarly, Wrap, Epoch;
    WrapStep(d.lastSample, now);
    var r := SampleTimeNow(d, now);
    if Wrap(now) < d.lastTime {
      SwitchLoopOk(d, now, Epoch(d.lastSample));
      var l := SwitchLoop(d, now);
      EmptyOk(Epoch(now) + 1);
      SameLog(l, r);
      SameParts(l, r, now);
    } else {
      SameLog(d, r);
      SameParts(d, r, now);
    }
  }

  lemma EmptyOk(epoch: int)
    ensures InEpoch([], epoch) && SortedEntries([])
  {
  }

  // ---- the daemon's jobs ----

  /** Inserting at the sampled time keeps the lists right, wherever the entry goes. */
  lemma PlacedOk(d: Daemon, e: Entry, command: nat, period: nat, now: nat)
    requires ListsOk(d, Epoch(now)) && 0 < period < 0x1_0000_0000 && command <= now < command + 0x1_0000_0000
    requires e.expiry == command + period && e.value == Wrap(Wrap(command) + period)
    ensures var where := Place(e.value, Wrap(now), Wrap(command), period);
      && ListsOk(Insert(d, e, where), Epoch(now))
      && (where == ProcessNow) == (e.expiry <= now)
  {
    hide InEpoch, SortedEntries, Wrap, Epoch, Place;
    PlacementExact(command, period, now);
    var where := Place(e.value, Wrap(now), Wrap(command), period);
    match where {
      case ProcessNow =>
      case InCurrent => InsertOk(d.current, e, Epoch(now));
      case InOverflow => InsertOk(d.overflow, e, Epoch(now) + 1);
    }
  }

  lemma HeadDue(d: Daemon, now: nat)
    requires ListsOk(d, Epoch(now)) && d.current != []
    ensures (d.current[0].value <= Wrap(now)) == (d.current[0].expiry <= now)
    ensures now < d.current[0].expiry + 0x1_0000_0000
    ensures d.current[0].value == Wrap(d.current[0].expiry)
    ensures ListsOk(d.(current := d.current[1..]), Epoch(now))
  {
    TailOk(d.current, Epoch(now));
  }

  lemma ProcessExpiredOk(d: Daemon, now: nat)
    requires DaemonOk(d, now) && d.lastSample == now
    requires d.current != [] && d.current[0].value <= Wrap(now)
    ensures DaemonOk(ProcessExpired(d, now), now)
  {
    hide ListsOk, TimersOk, QueueOk, NoneEarly, Wrap, Epoch, Place, Insert;
    var e := d.current[0];
    var timer := TimerOf(d, e.timer);
    HeadDue(d, now);
    PeriodOk(d, e.timer);
    var d1 := d.(current := d.current[1..]);
    SameLog(d, d1);
    SameParts(d, d1, now);
    var next := Entry(e.timer, Wrap(e.value + timer.period), e.expiry + timer.period);
    var where := Place(next.value, Wrap(now), e.value, timer.period);
    PlacedOk(d1, next, e.expiry, timer.period, now);
    InsertFrame(d1, next, where, now);
    SendOk(d1, e.timer, e.value, e.expiry, now);
    SendFrame(d1, e.timer, e.value, e.expiry, now);
    var d2 := ProcessExpired(d, now).(log := d.log);
    SameLog(d, d2);
    LogOk(d2, e.timer, e.expiry, now);
    LogFrame(d2, e.timer, e.expiry, now);
  }

  lemma InsertFrame(d: Daemon, e: Entry, where: Placement, now: nat)
    ensures var r := Insert(d, e, where);
      && r.timers == d.timers && r.queue == d.queue && r.log == d.log && r.lastTime == d.lastTime
        && r.lastSample == d.lastSample
      && (TimersOk(d) ==> TimersOk(r)) && (QueueOk(d, now) ==> QueueOk(r, now))
  {
  }

  lemma SendFrame(d: Daemon, t: TimerId, value: nat, time: nat, now: nat)
    ensures var r := SendReload(d, t, value, time);
      (ListsOk(d, Epoch(now)) ==> ListsOk(r, Epoch(now))) && (TimersOk(d) ==> TimersOk(r))
  {
  }

  lemma LogFrame(d: Daemon, t: TimerId, expiry: nat, now: nat)
    ensures var r := Log(d, t, expiry, now);
      && (ListsOk(d, Epoch(now)) ==> ListsOk(r, Epoch(now)))
      && (TimersOk(d) ==> TimersOk(r)) && (QueueOk(d, now) ==> QueueOk(r, now))
  {
  }

  lemma RunTimersOk(d: Daemon, now: nat)
    requires DaemonOk(d, now) && now < d.lastSample + 0x1_0000_0000 && Values32(d.current)
    ensures DaemonOk(RunTimers(d, now), now)
  {
    hide DaemonOk, SampleTimeNow;
    SampleOk(d, now);
    var d1 := SampleTimeNow(d, now);
    if RunTimers(d, now) != d1 {
      ProcessExpiredOk(d1, now);
    }
  }

  /** When the daemon goes to sleep no timer is due, on either list. */
  lemma BlocksOnlyIfNothingDue(d: Daemon, now: nat)
    requires DaemonOk(d, now) && now < d.lastSample + 0x1_0000_0000 && Blocks(d, now)
    ensures forall e :: e in d.current || e in d.overflow ==> now < e.expiry
  {
    WrapStep(d.lastSample, now);
    forall e | e in d.current ensures now < e.expiry {
      var i :| 0 <= i < |d.current| && d.current[i] == e;
      assert d.current[0].value <= e.value;
    }
  }

  lemma RunStartOk(d: Daemon, c: Command, now: nat)
    requires DaemonOk(d, now) && d.lastSample == now
    requires c.Start? && CommandOk(c, now) && now < c.time + 0x1_0000_0000
    ensures DaemonOk(RunStart(d, c, now), now)
  {
    hide ListsOk, TimersOk, QueueOk, NoneEarly, Wrap, Epoch, Place, Insert;
    var timer := TimerOf(d, c.timer);
    PeriodOk(d, c.timer);
    var next := Entry(c.timer, Wrap(c.value + timer.period), c.time + timer.period);
    var where := Place(next.value, Wrap(now), c.value, timer.period);
    PlacedOk(d, next, c.time, timer.period, now);
    PlacementExact(c.time, timer.period, now);
    if where != ProcessNow {
      InsertFrame(d, next, where, now);
      SameLog(d, Insert(d, next, where));
    } else {
      LogOk(d, c.timer, next.expiry, now);
      LogFrame(d, c.timer, next.expiry, now);
      var d1 := Log(d, c.timer, next.expiry, now);
      SendOk(d1, c.timer, next.value, next.expiry, now);
      SendFrame(d1, c.timer, next.value, next.expiry, now);
      SameLog(d1, SendReload(d1, c.timer, next.value, next.expiry));
    }
  }

  lemma RunChangePeriodOk(d: Daemon, t: TimerId, period: nat, now: nat)
    requires DaemonOk(d, now) && d.lastSample == now && 0 < period < 0x1_0000_0000
    ensures DaemonOk(RunChangePeriod(d, t, period, now), now)
  {
    hide ListsOk, QueueOk, NoneEarly, Wrap, Epoch, Place, Insert;
    var d1 := d.(timers := d.timers[t := TimerOf(d, t).(period := period)]);
    var next := Entry(t, Wrap(Wrap(now) + period), now + period);
    var where := Place(next.value, Wrap(now), Wrap(now), period);
    SameLists(d, d1, now);
    PlacedOk(d1, next, now, period, now);
    InsertFrame(d1, next, where, now);
    SameLog(d, Insert(d1, next, where));
  }

  lemma SameLists(d: Daemon, r: Daemon, now: nat)
    requires r.current == d.current && r.overflow == d.overflow && r.queue == d.queue
    ensures ListsOk(d, Epoch(now)) ==> ListsOk(r, Epoch(now))
    ensures QueueOk(d, now) ==> QueueOk(r, now)
  {
  }

  lemma DequeueOk(d: Daemon, now: nat)
    requires DaemonOk(d, now) && d.queue != []
    ensures CommandOk(d.queue[0], now)
    ensures var t := d.queue[0].timer;
      var r := d.(queue := d.queue[1..], current := RemoveTimer(d.current, t), overflow := RemoveTimer(d.overflow, t));
      DaemonOk(r, now) && Values32(r.current)
  {
    hide Wrap, Epoch;
    var t := d.queue[0].timer;
    RemoveMembers(d.current, t);
    RemoveMembers(d.overflow, t);
    RemoveSorted(d.current, t);
    RemoveSorted(d.overflow, t);
    Bounded(RemoveTimer(d.current, t), Epoch(d.lastSample));
  }

  lemma RunCommandOk(d: Daemon, now: nat)
    requires DaemonOk(d, now) && now < d.lastSample + 0x1_0000_0000 && Values32(d.current) && d.queue != []
    requires d.queue[0].Start? ==> now < d.queue[0].time + 0x1_0000_0000
    ensures DaemonOk(RunCommand(d, now), now)
  {
    hide DaemonOk, SampleTimeNow, RunStart, RunChangePeriod;
    var c := d.queue[0];
    var d1 := d.(queue := d.queue[1..], current := RemoveTimer(d.current, c.timer),
      overflow := RemoveTimer(d.overflow, c.timer));
    DequeueOk(d, now);
    SampleOk(d1, now);
    var d2 := SampleTimeNow(d1, now);
    match c {
      case Start(_, _, _) => RunStartOk(d2, c, now);
      case ChangePeriod(t, period) => RunChangePeriodOk(d2, t, period, now);
      case Stop(_) =>
      case Delete(_) =>
    }
  }

  /** Every event keeps entries on the list of their epoch, in order, and the log honest. */
  lemma StepOk(s: State, e: Event)
    requires DaemonOk(s.d, s.now) && Values32(s.d.current) && Enabled(s, e)
    ensures DaemonOk(Step(s, e).d, Step(s, e).now) && Values32(Step(s, e).d.current)
  {
    match e {
      case Tick =>
      case Issue(_) =>
      case Timers => RunTimersOk(s.d, s.now);
      case Obey => RunCommandOk(s.d, s.now);
    }
    var r := Step(s, e);
    Bounded(r.d.current, Epoch(r.d.lastSample));
  }

  lemma {:induction false} RunOk(states: seq<State>, events: seq<Event>, i: nat)
    requires Run(states, events) && DaemonOk(states[0].d, states[0].now) && i < |states|
    ensures DaemonOk(states[i].d, states[i].now) && Values32(states[i].d.current)
  {
    if i == 0 {
      Bounded(states[0].d.current, Epoch(states[0].d.lastSample));
    } else {
      RunOk(states, events, i - 1);
      StepOk(states[i - 1], events[i - 1]);
    }
  }

  /** The daemon as it starts, whatever timers have been created. */
  lemma InitialOk(timers: map<TimerId, Timer>, now: nat)
    requires forall t :: t in timers ==> 0 < timers[t].period < 0x1_0000_0000
    requires now < 0x1_0000_0000
    ensures DaemonOk(Daemon(timers, [], [], [], 0, 0, []), now)
  {
  }
}
