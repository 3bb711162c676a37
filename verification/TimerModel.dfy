/** The timer daemon of timers.c: two lists of running timers that swap when the tick count
    wraps, and a queue of commands, some of them sent by the daemon to itself. Entries and
    commands carry, beside the 32-bit value the code uses, the absolute time it stands for. */
module TimerModel {
  import opened Ticks

  type TimerId = nat

  datatype Timer = Timer(period: nat, autoReload: bool)

  /** expiry is bookkeeping of the proof; the code sees only its value. */
  datatype Entry = Entry(timer: TimerId, value: nat, expiry: nat)

  /** Start also stands for reset and for the reload the daemon sends to itself. */
  datatype Command =
    | Start(timer: TimerId, value: nat, time: nat)
    | Stop(timer: TimerId)
    | ChangePeriod(timer: TimerId, period: nat)
    | Delete(timer: TimerId)

  /** A call of a timer's callback at tick count at, for the given expiry. */
  datatype Served = Served(timer: TimerId, expiry: nat, at: nat)

  datatype Daemon = Daemon(
    timers: map<TimerId, Timer>,
    current: seq<Entry>,
    overflow: seq<Entry>,
    queue: seq<Command>,
    lastTime: nat,
    lastSample: nat,
    log: seq<Served>)

  function TimerOf(d: Daemon, t: TimerId): Timer {
    if t in d.timers then d.timers[t] else Timer(1, false)
  }

  // ---- the lists ----

  /** vListInsert by item value. */
  function InsertEntry(list: seq<Entry>, e: Entry): (r: seq<Entry>) {
    if list == [] || e.value < list[0].value then [e] + list else [list[0]] + InsertEntry(list[1..], e)
  }

  function RemoveTimer(list: seq<Entry>, t: TimerId): seq<Entry> {
    if list == [] then [] else (if list[0].timer == t then [] else [list[0]]) + RemoveTimer(list[1..], t)
  }

  // ---- where a timer goes ----

  datatype Placement = ProcessNow | InCurrent | InOverflow

  /** prvInsertTimerInActiveList, on the 32-bit values it is given. */
  function Place(next: nat, now: nat, command: nat, period: nat): Placement {
    if next <= now then (if Wrap(now - command) >= period then ProcessNow else InOverflow)
    else if now < command && next >= command then ProcessNow
    else InCurrent
  }

  function Insert(d: Daemon, e: Entry, where: Placement): Daemon {
    match where
    case ProcessNow => d
    case InCurrent => d.(current := InsertEntry(d.current, e))
    case InOverflow => d.(overflow := InsertEntry(d.overflow, e))
  }

  function Log(d: Daemon, t: TimerId, expiry: nat, now: nat): Daemon {
    d.(log := d.log + [Served(t, expiry, now)])
  }

  function SendReload(d: Daemon, t: TimerId, value: nat, time: nat): Daemon {
    d.(queue := d.queue + [Start(t, value, time)])
  }

  // ---- switching the lists ----

  /** How far the entries are from the wrap of the tick count, together. */
  function Distance(list: seq<Entry>): (m: nat) {
    if list == [] then 0
    else (if list[0].value < 0x1_0000_0000 then 0x1_0000_0000 - list[0].value else 0) + Distance(list[1..])
  }

  lemma {:induction false} InsertDistance(list: seq<Entry>, e: Entry)
    requires e.value < 0x1_0000_0000
    ensures Distance(InsertEntry(list, e)) == Distance(list) + (0x1_0000_0000 - e.value)
  {
    if list == [] || e.value < list[0].value {
      assert ([e] + list)[1..] == list;
    } else {
      InsertDistance(list[1..], e);
      assert InsertEntry(list, e)[1..] == InsertEntry(list[1..], e);
    }
  }

  /** One turn of the loop of prvSwitchTimerLists: the head is served and, if it reloads,
      goes back into the same list unless its next expiry wraps. */
  function SwitchTurn(d: Daemon, now: nat): Daemon
    requires d.current != []
  {
    var e := d.current[0];
    var timer := TimerOf(d, e.timer);
    var d1 := Log(d.(current := d.current[1..]), e.timer, e.expiry, now);
    var reload := Wrap(e.value + timer.period);
    if !timer.autoReload then d1
    else if reload > e.value then
      d1.(current := InsertEntry(d1.current, Entry(e.timer, reload, e.expiry + timer.period)))
    else SendReload(d1, e.timer, e.value, e.expiry)
  }

  /** The loop ends because every turn brings the entries closer to the wrap. */
  lemma SwitchTurnDistance(d: Daemon, now: nat)
    requires d.current != [] && d.current[0].value < 0x1_0000_0000
    ensures Distance(SwitchTurn(d, now).current) < Distance(d.current)
  {
    var e := d.current[0];
    var reload := Wrap(e.value + TimerOf(d, e.timer).period);
    InsertDistance(d.current[1..], Entry(e.timer, reload, e.expiry + TimerOf(d, e.timer).period));
  }

  /** Entries always hold 32-bit values. */
  ghost predicate Values32(list: seq<Entry>) {
    forall e :: e in list ==> e.value < 0x1_0000_0000
  }

  lemma {:induction false} InsertMembers(list: seq<Entry>, e: Entry)
    ensures forall x :: x in InsertEntry(list, e) <==> x == e || x in list
  {
    if list != [] && e.value >= list[0].value {
      InsertMembers(list[1..], e);
    }
  }

  ghost function SwitchLoop(d: Daemon, now: nat): (r: Daemon)
    requires Values32(d.current)
    ensures r.current == [] && r.overflow == d.overflow && r.timers == d.timers
    ensures r.lastTime == d.lastTime && r.lastSample == d.lastSample
    decreases Distance(d.current)
  {
    if d.current == [] then d
    else
      SwitchTurnDistance(d, now);
      SwitchTurn32(d, now);
      SwitchLoop(SwitchTurn(d, now), now)
  }

  lemma SwitchTurn32(d: Daemon, now: nat)
    requires d.current != [] && Values32(d.current)
    ensures Values32(SwitchTurn(d, now).current)
  {
    var e := d.current[0];
    InsertMembers(d.current[1..],
      Entry(e.timer, Wrap(e.value + TimerOf(d, e.timer).period), e.expiry + TimerOf(d, e.timer).period));
  }

  ghost function SwitchTimerLists(d: Daemon, now: nat): Daemon
    requires Values32(d.current)
  {
    var r := SwitchLoop(d, now);
    r.(current := r.overflow, overflow := [])
  }

  /** prvSampleTimeNow at tick count now. */
  ghost function SampleTimeNow(d: Daemon, now: nat): Daemon
    requires Values32(d.current)
  {
    var r := if Wrap(now) < d.lastTime then SwitchTimerLists(d, now) else d;
    r.(lastTime := Wrap(now), lastSample := now)
  }

  // ---- the two jobs of the daemon ----

  /** prvProcessExpiredTimer. */
  function ProcessExpired(d: Daemon, now: nat): Daemon
    requires d.current != []
  {
    var e := d.current[0];
    var timer := TimerOf(d, e.timer);
    var d1 := d.(current := d.current[1..]);
    var next := Entry(e.timer, Wrap(e.value + timer.period), e.expiry + timer.period);
    var where := Place(next.value, Wrap(now), e.value, timer.period);
    var d2 :=
      if !timer.autoReload then d1
      else if where == ProcessNow then SendReload(d1, e.timer, e.value, e.expiry)
      else Insert(d1, next, where);
    Log(d2, e.timer, e.expiry, now)
  }

  /** prvProcessTimerOrBlockTask; not switched and nothing due means that it blocks. */
  ghost function RunTimers(d: Daemon, now: nat): Daemon
    requires Values32(d.current)
  {
    var switched := Wrap(now) < d.lastTime;
    var d1 := SampleTimeNow(d, now);
    if !switched && d1.current != [] && d1.current[0].value <= Wrap(now) then ProcessExpired(d1, now) else d1
  }

  ghost predicate Blocks(d: Daemon, now: nat)
  {
    !(Wrap(now) < d.lastTime) && (d.current == [] || d.current[0].value > Wrap(now))
  }

  function RunStart(d: Daemon, c: Command, now: nat): Daemon
    requires c.Start?
  {
    var timer := TimerOf(d, c.timer);
    var next := Entry(c.timer, Wrap(c.value + timer.period), c.time + timer.period);
    var where := Place(next.value, Wrap(now), c.value, timer.period);
    if where != ProcessNow then Insert(d, next, where)
    else
      var d1 := Log(d, c.timer, next.expiry, now);
      if timer.autoReload then SendReload(d1, c.timer, next.value, next.expiry) else d1
  }

  function RunChangePeriod(d: Daemon, t: TimerId, period: nat, now: nat): Daemon {
    var d1 := d.(timers := d.timers[t := TimerOf(d, t).(period := period)]);
    var next := Entry(t, Wrap(Wrap(now) + period), now + period);
    Insert(d1, next, Place(next.value, Wrap(now), Wrap(now), period))
  }

  /** One turn of prvProcessReceivedCommands: the timer leaves its list first, then the
      time is sampled, then the command is obeyed. */
  ghost function RunCommand(d: Daemon, now: nat): Daemon
    requires Values32(d.current) && d.queue != []
  {
    var c := d.queue[0];
    var d1 := d.(queue := d.queue[1..], current := RemoveTimer(d.current, c.timer),
      overflow := RemoveTimer(d.overflow, c.timer));
    RemoveMembers(d.current, c.timer);
    var d2 := SampleTimeNow(d1, now);
    match c
    case Start(_, _, _) => RunStart(d2, c, now)
    case Stop(_) => d2
    case ChangePeriod(t, period) => RunChangePeriod(d2, t, period, now)
    case Delete(_) => d2
  }

  lemma {:induction false} RemoveMembers(list: seq<Entry>, t: TimerId)
    ensures forall x :: x in RemoveTimer(list, t) <==> x in list && x.timer != t
  {
    if list != [] {
      RemoveMembers(list[1..], t);
    }
  }

  // ---- placement is exact ----

  /** For a command issued at absolute time C and obeyed less than 2^32 ticks later, at N,
      the modular comparisons decide exactly: process now iff C + P has been reached,
      otherwise the list of C + P's epoch. */
  lemma PlacementExact(c: nat, p: nat, n: nat)
    requires 0 < p < 0x1_0000_0000 && c <= n < c + 0x1_0000_0000
    ensures var where := Place(Wrap(Wrap(c) + p), Wrap(n), Wrap(c), p);
      && Wrap(Wrap(c) + p) == Wrap(c + p)
      && (where == ProcessNow) == (c + p <= n)
      && (where == InCurrent) == (n < c + p && Epoch(c + p) == Epoch(n))
      && (where == InOverflow) == (n < c + p && Epoch(c + p) == Epoch(n) + 1)
  {
    SumWraps(c, p);
    WrapStep(c, n);
    WrapStep(c, c + p);
    if n < c + p { WrapStep(n, c + p); }
    WrapDifference(c, n);
  }
}
