/** timers.c as it runs: the daemon's lists and queue as fields, its loops as loops,
    refined to the functions of TimerModel. */
module Timers {
  import opened Ticks
  import opened TimerModel
  import opened TimerSafety
  import opened TimerSeries
  import opened TimerPeriods
  import opened TimerBlocking

  // ---- the command loop ends ----

  /** How much work a queue of commands can still cause at tick count now. */
  function Work(queue: seq<Command>, now: nat): nat {
    if queue == [] then 0
    else (if queue[0].Start? && queue[0].time <= now then now - queue[0].time + 2 else 1) + Work(queue[1..], now)
  }

  lemma {:induction false} WorkAppend(queue: seq<Command>, c: Command, now: nat)
    ensures Work(queue + [c], now) == Work(queue, now) + Work([c], now)
  {
    if queue == [] {
      assert queue + [c] == [c];
    } else {
      WorkAppend(queue[1..], c, now);
      assert (queue + [c])[1..] == queue[1..] + [c];
    }
  }

  /** A start that is processed at once sends a reload with a later time, so even a late
      timer causes only finitely many commands. */
  lemma StartWork(d: Daemon, c: Command, now: nat)
    requires c.Start? && CommandOk(c, now) && TimersOk(d)
    ensures Work(RunStart(d, c, now).queue, now) < Work([c], now) + Work(d.queue, now)
  {
    hide Wrap, Epoch;
    var timer := TimerOf(d, c.timer);
    PeriodOk(d, c.timer);
    var next := Entry(c.timer, Wrap(c.value + timer.period), c.time + timer.period);
    if now < c.time + 0x1_0000_0000 { PlacementExact(c.time, timer.period, now); }
    WorkAppend(d.queue, Start(c.timer, next.value, next.expiry), now);
  }

  /** Whether the next sample at now will switch the lists. */
  function Switches(d: Daemon, now: nat): nat {
    if Wrap(now) < d.lastTime then 1 else 0
  }

  /** Every waiting start, and every entry the switch may turn into one, is less than a
      wrap of the tick count old. */
  ghost predicate Prompt(d: Daemon, now: nat) {
    && now < d.lastSample + 0x1_0000_0000
    && (forall c :: c in d.queue && c.Start? ==> now < c.time + 0x1_0000_0000)
    && (forall e :: e in d.current ==> now < e.expiry + 0x1_0000_0000)
  }

  lemma {:induction false} SwitchLoopPrompt(d: Daemon, now: nat)
    requires Values32(d.current) && Prompt(d, now)
    ensures Prompt(SwitchLoop(d, now), now)
    decreases Distance(d.current)
  {
    hide Wrap;
    if d.current != [] {
      SwitchTurnDistance(d, now);
      SwitchTurn32(d, now);
      SwitchTurnPrompt(d, now);
      SwitchLoopPrompt(SwitchTurn(d, now), now);
    }
  }

  lemma SwitchTurnPrompt(d: Daemon, now: nat)
    requires d.current != [] && Prompt(d, now)
    ensures Prompt(SwitchTurn(d, now), now)
  {
    hide Wrap;
    var e := d.current[0];
    assert e in d.current;
    var timer := TimerOf(d, e.timer);
    InsertMembers(d.current[1..], Entry(e.timer, Wrap(e.value + timer.period), e.expiry + timer.period));
  }

  lemma SamplePrompt(d: Daemon, now: nat)
    requires DaemonOk(d, now) && Prompt(d, now) && Values32(d.current)
    ensures Prompt(SampleTimeNow(d, now), now)
  {
    SwitchLoopPrompt(d, now);
    if Wrap(now) < d.lastTime {
      WrapStep(d.lastSample, now);
      forall e | e in d.overflow ensures now < e.expiry + 0x1_0000_0000 {
        assert Epoch(e.expiry) == Epoch(now);
      }
    }
  }

  lemma RunStartPrompt(d: Daemon, c: Command, now: nat)
    requires c.Start? && Prompt(d, now) && now < c.time + 0x1_0000_0000
    ensures Prompt(RunStart(d, c, now), now)
  {
    hide Wrap, Place;
    var timer := TimerOf(d, c.timer);
    var next := Entry(c.timer, Wrap(c.value + timer.period), c.time + timer.period);
    InsertMembers(d.current, next);
  }

  lemma RunChangePrompt(d: Daemon, t: TimerId, period: nat, now: nat)
    requires Prompt(d, now)
    ensures Prompt(RunChangePeriod(d, t, period, now), now) && RunChangePeriod(d, t, period, now).queue == d.queue
  {
    hide Wrap, Place;
    InsertMembers(d.current, Entry(t, Wrap(Wrap(now) + period), now + period));
  }

  lemma DequeuePrompt(d: Daemon, now: nat)
    requires Prompt(d, now) && d.queue != []
    ensures var t := d.queue[0].timer;
      Prompt(d.(queue := d.queue[1..], current := RemoveTimer(d.current, t), overflow := RemoveTimer(d.overflow, t)),
        now)
    ensures d.queue[0].Start? ==> now < d.queue[0].time + 0x1_0000_0000
  {
    assert d.queue[0] in d.queue;
    RemoveMembers(d.current, d.queue[0].timer);
  }

  /** One turn of the command loop keeps it prompt and leaves less to do. */
  lemma CommandTurn(d: Daemon, now: nat)
    requires DaemonOk(d, now) && Prompt(d, now) && Values32(d.current) && d.queue != []
    ensures var r := RunCommand(d, now);
      && DaemonOk(r, now) && Prompt(r, now) && Values32(r.current) && Switches(r, now) == 0
      && (Switches(d, now) == 0 ==> Work(r.queue, now) < Work(d.queue, now))
  {
    hide DaemonOk, Prompt, Values32, SampleTimeNow, RunStart, RunChangePeriod;
    var c := d.queue[0];
    var d1 := d.(queue := d.queue[1..], current := RemoveTimer(d.current, c.timer),
      overflow := RemoveTimer(d.overflow, c.timer));
    var r := RunCommand(d, now);
    DequeueOk(d, now);
    DequeuePrompt(d, now);
    SampleFrame(d1, now);
    SampleOk(d1, now);
    SamplePrompt(d1, now);
    var d2 := SampleTimeNow(d1, now);
    match c {
      case Start(_, _, _) =>
        RunStartOk(d2, c, now);
        RunStartPrompt(d2, c, now);
        DaemonTimers(d2, now);
        StartWork(d2, c, now);
        RunStartSamples(d2, c, now);
      case ChangePeriod(t, period) =>
        RunChangePeriodOk(d2, t, period, now);
        RunChangePrompt(d2, t, period, now);
        ChangeSamples(d2, t, period, now);
      case Stop(_) =>
      case Delete(_) =>
    }
    DaemonBounded(r, now);
    assert Work(d.queue, now) == Work([c], now) + Work(d.queue[1..], now);
  }

  lemma SampleFrame(d: Daemon, now: nat)
    requires DaemonOk(d, now) && Prompt(d, now) && Values32(d.current)
    ensures now < d.lastSample + 0x1_0000_0000
    ensures Switches(SampleTimeNow(d, now), now) == 0
    ensures Switches(d, now) == 0 ==> SampleTimeNow(d, now).queue == d.queue
  {
  }

  lemma DaemonTimers(d: Daemon, now: nat)
    requires DaemonOk(d, now)
    ensures TimersOk(d)
  {
  }

  lemma DaemonBounded(d: Daemon, now: nat)
    requires DaemonOk(d, now)
    ensures Values32(d.current)
  {
    Bounded(d.current, Epoch(d.lastSample));
  }

  lemma RunStartSamples(d: Daemon, c: Command, now: nat)
    requires c.Start?
    ensures RunStart(d, c, now).lastTime == d.lastTime
  {
  }

  lemma ChangeSamples(d: Daemon, t: TimerId, period: nat, now: nat)
    ensures RunChangePeriod(d, t, period, now).lastTime == d.lastTime
  {
  }

  /** prvProcessReceivedCommands at one tick count. */
  ghost function RunCommands(d: Daemon, now: nat): (r: Daemon)
    requires DaemonOk(d, now) && Prompt(d, now) && Values32(d.current)
    ensures DaemonOk(r, now) && r.queue == []
    decreases Switches(d, now), Work(d.queue, now)
  {
    if d.queue == [] then d
    else
      CommandTurn(d, now);
      RunCommands(RunCommand(d, now), now)
  }

  lemma Remove32(list: seq<Entry>, t: TimerId)
    requires Values32(list)
    ensures Values32(RemoveTimer(list, t))
  {
    RemoveMembers(list, t);
  }

  /** The block time takes the daemon to the head's expiry, or to the wrap. */
  lemma HeadWait(d: Daemon, now: nat)
    requires DaemonOk(d, now) && now < d.lastSample + 0x1_0000_0000 && Blocks(d, now)
    ensures d.current != [] ==> now + Wrap(d.current[0].value - Wrap(now)) == d.current[0].expiry
    ensures Wrap(now + Wrap(0 - Wrap(now))) == 0
  {
    WrapStep(d.lastSample, now);
    if d.current != [] {
      var e := d.current[0];
      assert e in d.current;
      BlocksOnlyIfNothingDue(d, now);
      WrapStep(now, e.expiry);
    }
  }

  /** Where the scan of vListInsert puts an entry. */
  lemma {:induction false} InsertAt(list: seq<Entry>, e: Entry, p: nat)
    requires p <= |list| && (forall i :: 0 <= i < p ==> list[i].value <= e.value)
    requires p < |list| ==> e.value < list[p].value
    ensures InsertEntry(list, e) == list[..p] + [e] + list[p..]
  {
    if p == 0 {
      assert list[..0] + [e] + list[0..] == [e] + list;
    } else {
      InsertAt(list[1..], e, p - 1);
      assert list[..p] == [list[0]] + list[1..][..p - 1];
      assert list[p..] == list[1..][p - 1..];
    }
  }

  /** The time is read from the tick count: methods get its 32-bit value and, as a ghost,
      the absolute time it stands for. */
  class TimerDaemon {
    var timers: map<TimerId, Timer>
    var pxCurrentTimerList: seq<Entry>
    var pxOverflowTimerList: seq<Entry>
    var xTimerQueue: seq<Command>
    var xLastTime: nat
    ghost var lastSample: nat
    ghost var log: seq<Served>

    ghost function Abs(): Daemon
      reads this
    {
      Daemon(timers, pxCurrentTimerList, pxOverflowTimerList, xTimerQueue, xLastTime, lastSample, log)
    }

    /** vListInsert. */
    static method ListInsert(list: seq<Entry>, e: Entry) returns (r: seq<Entry>)
      ensures r == InsertEntry(list, e)
    {
      var p := 0;
      while p < |list| && list[p].value <= e.value
        invariant 0 <= p <= |list|
        invariant forall i :: 0 <= i < p ==> list[i].value <= e.value
      {
        p := p + 1;
      }
      InsertAt(list, e, p);
      r := list[..p] + [e] + list[p..];
    }

    /** uxListRemove of the timer's one list item. */
    static method ListRemove(list: seq<Entry>, t: TimerId) returns (r: seq<Entry>)
      ensures r == RemoveTimer(list, t)
    {
      r := [];
      var k := |list|;
      assert list[k..] == [];
      while k > 0
        invariant 0 <= k <= |list|
        invariant r == RemoveTimer(list[k..], t)
      {
        k := k - 1;
        assert list[k..][1..] == list[k + 1..];
        if list[k].timer != t {
          r := [list[k]] + r;
        }
      }
      assert list[0..] == list;
    }

    /** prvSwitchTimerLists: the loop runs until the current list is empty. */
    method SwitchTimerLists(now: nat)
      requires Values32(pxCurrentTimerList)
      modifies this
      ensures Abs() == TimerModel.SwitchTimerLists(old(Abs()), now)
    {
      hide Wrap, InsertEntry, Distance;
      while pxCurrentTimerList != []
        invariant Values32(pxCurrentTimerList)
        invariant SwitchLoop(Abs(), now) == SwitchLoop(old(Abs()), now)
        decreases Distance(pxCurrentTimerList)
      {
        ghost var d := Abs();
        SwitchTurnDistance(d, now);
        SwitchTurn32(d, now);
        var head := pxCurrentTimerList[0];
        var xNextExpireTime := head.value;
        pxCurrentTimerList := pxCurrentTimerList[1..];
        log := log + [Served(head.timer, head.expiry, now)];
        var timer := if head.timer in timers then timers[head.timer] else Timer(1, false);
        if timer.autoReload {
          var xReloadTime := Wrap(xNextExpireTime + timer.period);
          if xReloadTime > xNextExpireTime {
            pxCurrentTimerList := ListInsert(pxCurrentTimerList,
              Entry(head.timer, xReloadTime, head.expiry + timer.period));
          } else {
            xTimerQueue := xTimerQueue + [Start(head.timer, xNextExpireTime, head.expiry)];
          }
        }
        assert Abs() == SwitchTurn(d, now);
      }
      pxCurrentTimerList, pxOverflowTimerList := pxOverflowTimerList, [];
    }

    /** prvSampleTimeNow. */
    method SampleTimeNow(xTimeNow: nat, now: nat) returns (switched: bool)
      requires Values32(pxCurrentTimerList) && xTimeNow == Wrap(now)
      modifies this
      ensures Abs() == TimerModel.SampleTimeNow(old(Abs()), now) && switched == (Wrap(now) < old(xLastTime))
    {
      if xTimeNow < xLastTime {
        SwitchTimerLists(now);
        switched := true;
      } else {
        switched := false;
      }
      xLastTime, lastSample := xTimeNow, now;
    }

    /** prvInsertTimerInActiveList: for a command issued at absolute time command and obeyed
        within a wrap of the tick count, process now exactly if the expiry has been reached,
        and otherwise each list still holds the expiries of its epoch, in order. */
    method InsertTimerInActiveList(e: Entry, xTimeNow: nat, xCommandTime: nat, period: nat, ghost command: nat,
        ghost now: nat)
      returns (processNow: bool)
      modifies this`pxCurrentTimerList, this`pxOverflowTimerList
      ensures var where := Place(e.value, xTimeNow, xCommandTime, period);
        Abs() == Insert(old(Abs()), e, where) && processNow == (where == ProcessNow)
      ensures old(ListsOk(Abs(), Epoch(now))) && Follows(e, command, period, now) ==>
        (xTimeNow == Wrap(now) && xCommandTime == Wrap(command) ==>
          ListsOk(Abs(), Epoch(now)) && processNow == (e.expiry <= now))
    {
      hide ListsOk, Follows;
      ghost var timed := xTimeNow == Wrap(now) && xCommandTime == Wrap(command);
      if timed && ListsOk(Abs(), Epoch(now)) && Follows(e, command, period, now) {
        InsertedRight(Abs(), e, command, period, now);
      }
      processNow := false;
      if e.value <= xTimeNow {
        if Wrap(xTimeNow - xCommandTime) >= period {
          processNow := true;
        } else {
          pxOverflowTimerList := ListInsert(pxOverflowTimerList, e);
        }
      } else {
        if xTimeNow < xCommandTime && e.value >= xCommandTime {
          processNow := true;
        } else {
          pxCurrentTimerList := ListInsert(pxCurrentTimerList, e);
        }
      }
    }

    /** e stands for the first expiry after a command less than a wrap old. */
    ghost predicate Follows(e: Entry, command: nat, period: nat, now: nat) {
      && 0 < period < 0x1_0000_0000 && command <= now < command + 0x1_0000_0000
      && e.expiry == command + period && e.value == Wrap(e.expiry)
    }

    lemma InsertedRight(d: Daemon, e: Entry, command: nat, period: nat, now: nat)
      requires ListsOk(d, Epoch(now)) && Follows(e, command, period, now)
      ensures var where := Place(e.value, Wrap(now), Wrap(command), period);
        ListsOk(Insert(d, e, where), Epoch(now)) && (where == ProcessNow) == (e.expiry <= now)
    {
      hide ListsOk, Place, Insert, Wrap, Epoch;
      SumWraps(command, period);
      PlacedOk(d, e, command, period, now);
    }

    /** prvProcessExpiredTimer: a due head is served, not early, and the lists stay right. */
    method ProcessExpiredTimer(xTimeNow: nat, now: nat)
      requires pxCurrentTimerList != [] && xTimeNow == Wrap(now)
      modifies this
      ensures Abs() == ProcessExpired(old(Abs()), now)
      ensures old(DaemonOk(Abs(), now) && lastSample == now && pxCurrentTimerList[0].value <= Wrap(now)) ==>
        DaemonOk(Abs(), now)
    {
      hide DaemonOk, ListsOk, Follows, Wrap, Epoch, Place;
      if DaemonOk(Abs(), now) && lastSample == now && pxCurrentTimerList[0].value <= Wrap(now) {
        ProcessExpiredOk(Abs(), now);
      }
      var head := pxCurrentTimerList[0];
      pxCurrentTimerList := pxCurrentTimerList[1..];
      var timer := if head.timer in timers then timers[head.timer] else Timer(1, false);
      if timer.autoReload {
        var next := Entry(head.timer, Wrap(head.value + timer.period), head.expiry + timer.period);
        var processNow := InsertTimerInActiveList(next, xTimeNow, head.value, timer.period, head.expiry, now);
        if processNow {
          xTimerQueue := xTimerQueue + [Start(head.timer, head.value, head.expiry)];
        }
      }
      log := log + [Served(head.timer, head.expiry, now)];
    }

    /** prvGetNextExpireTime and prvProcessTimerOrBlockTask: the daemon blocks, until the
        next expiry or a command, only if no timer is due, and never for 0 ticks. */
    method ProcessTimerOrBlockTask(xTimeNow: nat, now: nat) returns (blocks: bool, wait: nat, forever: bool)
      requires DaemonOk(Abs(), now) && now < lastSample + 0x1_0000_0000 && xTimeNow == Wrap(now)
      modifies this
      ensures Abs() == RunTimers(old(Abs()), now) && DaemonOk(Abs(), now)
      ensures blocks == Blocks(old(Abs()), now)
      ensures blocks ==> forall e :: e in pxCurrentTimerList || e in pxOverflowTimerList ==> now < e.expiry
      ensures blocks && pxCurrentTimerList != [] ==> now + wait == pxCurrentTimerList[0].expiry
      ensures blocks && pxCurrentTimerList == [] ==> Wrap(now + wait) == 0
      ensures forever == (blocks && pxCurrentTimerList == [] && pxOverflowTimerList == [])
      ensures old(Near(Abs(), now)) && blocks && !forever ==> 0 < wait
    {
      hide Near, InEpoch, SortedEntries, TimersOk, QueueOk, NoneEarly;
      ghost var d := Abs();
      DaemonBounded(d, now);
      RunTimersOk(d, now);
      var listWasEmpty := pxCurrentTimerList == [];
      var xNextExpireTime := if listWasEmpty then 0 else pxCurrentTimerList[0].value;
      var switched := SampleTimeNow(xTimeNow, now);
      blocks, wait, forever := false, 0, false;
      if !switched {
        if !listWasEmpty && xNextExpireTime <= xTimeNow {
          ProcessExpiredTimer(xTimeNow, now);
        } else {
          if listWasEmpty {
            listWasEmpty := pxOverflowTimerList == [];
          }
          blocks, wait, forever := true, Wrap(xNextExpireTime - xTimeNow), listWasEmpty;
          BlocksOnlyIfNothingDue(d, now);
          HeadWait(d, now);
          if Near(d, now) { WaitIsPositive(d, now); }
        }
      }
    }

    /** prvProcessReceivedCommands, at one tick count: it ends with the queue empty. */
    method ProcessReceivedCommands(xTimeNow: nat, now: nat)
      requires DaemonOk(Abs(), now) && Prompt(Abs(), now) && xTimeNow == Wrap(now)
      modifies this
      ensures DaemonOk(Abs(), now) && xTimerQueue == []
      ensures var d := old(Abs()); Values32(d.current) && Abs() == RunCommands(d, now)
    {
      DaemonBounded(Abs(), now);
      while xTimerQueue != []
        invariant DaemonOk(Abs(), now) && Prompt(Abs(), now) && Values32(pxCurrentTimerList)
        invariant RunCommands(Abs(), now) == RunCommands(old(Abs()), now)
        decreases Switches(Abs(), now), Work(xTimerQueue, now)
      {
        CommandTurn(Abs(), now);
        ObeyCommand(xTimeNow, now);
      }
    }

    /** The body of that loop. */
    method ObeyCommand(xTimeNow: nat, now: nat)
      requires Values32(pxCurrentTimerList) && xTimerQueue != [] && xTimeNow == Wrap(now)
      modifies this
      ensures Abs() == RunCommand(old(Abs()), now)
      ensures var c := old(xTimerQueue[0]);
        c.ChangePeriod? && 0 < c.period < 0x1_0000_0000 ==>
          && c.timer in timers && timers[c.timer].period == c.period
          && timers[c.timer].autoReload == TimerOf(old(Abs()), c.timer).autoReload
          && DueIn(pxCurrentTimerList, c.timer) + DueIn(pxOverflowTimerList, c.timer) == [now + c.period]
    {
      hide Values32, DueIn, RunCommand;
      ghost var c := xTimerQueue[0];
      if c.ChangePeriod? && 0 < c.period < 0x1_0000_0000 {
        ChangeObeyed(Abs(), now, c.timer, c.period);
        ObeyedTimers(Abs(), now);
      }
      ObeyBody(xTimeNow, now);
    }

    lemma ObeyedTimers(d: Daemon, now: nat)
      requires Values32(d.current) && d.queue != [] && d.queue[0].ChangePeriod?
      ensures d.queue[0].timer in RunCommand(d, now).timers
    {
    }

    /** The body of that turn. */
    method ObeyBody(xTimeNow: nat, now: nat)
      requires Values32(pxCurrentTimerList) && xTimerQueue != [] && xTimeNow == Wrap(now)
      modifies this
      ensures Abs() == RunCommand(old(Abs()), now)
    {
      hide Wrap, Epoch, Place, RemoveTimer, Values32, ListsOk, Follows, TimerModel.SampleTimeNow;
      var message := xTimerQueue[0];
      xTimerQueue := xTimerQueue[1..];
      Remove32(pxCurrentTimerList, message.timer);
      pxCurrentTimerList := ListRemove(pxCurrentTimerList, message.timer);
      pxOverflowTimerList := ListRemove(pxOverflowTimerList, message.timer);
      var _ := SampleTimeNow(xTimeNow, now);
      match message {
        case Start(t, value, time) =>
          var timer := if t in timers then timers[t] else Timer(1, false);
          var next := Entry(t, Wrap(value + timer.period), time + timer.period);
          var processNow := InsertTimerInActiveList(next, xTimeNow, value, timer.period, time, now);
          if processNow {
            log := log + [Served(t, next.expiry, now)];
            if timer.autoReload {
              xTimerQueue := xTimerQueue + [Start(t, next.value, next.expiry)];
            }
          }
        case Stop(_) =>
        case ChangePeriod(t, period) =>
          var timer := if t in timers then timers[t] else Timer(1, false);
          timers := timers[t := timer.(period := period)];
          var _ := InsertTimerInActiveList(Entry(t, Wrap(xTimeNow + period), now + period), xTimeNow, xTimeNow,
            period, now, now);
        case Delete(_) =>
      }
    }
  }
}
