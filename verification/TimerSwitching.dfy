/** What one switch of the timer lists serves, and what stopping a timer achieves. */
module TimerSwitching {
  import opened Ticks
  import opened TimerModel
  import opened TimerSafety
  import opened TimerSeries

  /** The expiries from first on, one period apart, before end. */
  function Burst(first: nat, period: nat, end: nat): seq<nat>
    decreases end - first
  {
    if first >= end || period == 0 then [] else [first] + Burst(first + period, period, end)
  }

  /** Their number is (end - first) / period, rounded up. */
  lemma {:induction false} BurstLength(first: nat, period: nat, end: nat)
    requires first < end && 0 < period
    ensures var n := |Burst(first, period, end)|; 0 < n && first + (n - 1) * period < end <= first + n * period
    decreases end - first
  {
    var n := |Burst(first, period, end)|;
    if first + period < end {
      BurstLength(first + period, period, end);
      assert (n - 1) * period == (n - 2) * period + period && n * period == (n - 1) * period + period;
    } else {
      assert Burst(first + period, period, end) == [];
      assert n == 1 && (n - 1) * period == 0 && n * period == period;
    }
  }

  lemma EpochEnd(expiry: nat, epoch: int)
    ensures (Epoch(expiry) <= epoch) == (expiry < (epoch + 1) * 0x1_0000_0000)
  {
  }

  /** t waits in the current list and nowhere else. */
  ghost predicate OnlyInCurrent(d: Daemon, t: TimerId) {
    DueIn(d.current, t) == Pending(d, t) && |Pending(d, t)| == 1
  }

  /** Where a served auto-reload timer goes: back on the list, or into the queue once its
      next expiry is in the new epoch. */
  lemma SwitchTurnGoes(d: Daemon, now: nat, epoch: nat)
    requires Switching(d, now, epoch) && d.current != []
    ensures var e := d.current[0]; var t := e.timer; var period := TimerOf(d, t).period;
      TimerOf(d, t).autoReload && OnlyInCurrent(d, t) ==>
        if e.expiry + period < (epoch + 1) * 0x1_0000_0000 then OnlyInCurrent(SwitchTurn(d, now), t)
        else DueIn(SwitchTurn(d, now).current, t) == []
  {
    hide InEpoch, SortedEntries, TimersOk, QueueOk, NoneEarly, Wrap, Epoch;
    var e := d.current[0];
    var t := e.timer;
    var period := TimerOf(d, t).period;
    TailOk(d.current, epoch);
    PeriodOk(d, t);
    ReloadWraps(e.expiry, period);
    EpochEnd(e.expiry + period, epoch);
    DueInsert(d.current[1..], Entry(t, Wrap(e.value + period), e.expiry + period), t);
  }

  lemma SwitchTurnOverflow(d: Daemon, now: nat)
    requires d.current != []
    ensures SwitchTurn(d, now).overflow == d.overflow
  {
  }

  lemma SwitchTurnOther(d: Daemon, now: nat, t: TimerId)
    requires d.current != [] && d.current[0].timer != t
    ensures DueIn(SwitchTurn(d, now).current, t) == DueIn(d.current, t)
  {
    var e := d.current[0];
    DueInsert(d.current[1..],
      Entry(e.timer, Wrap(e.value + TimerOf(d, e.timer).period), e.expiry + TimerOf(d, e.timer).period), t);
  }

  /** From d to r the timer was served once for every expiry from due on before end, and
      the next one is left to a queued reload. */
  ghost predicate ServesBurst(d: Daemon, r: Daemon, t: TimerId, due: nat, end: nat) {
    var period := TimerOf(d, t).period;
    var burst := Burst(due, period, end);
    && ServedOf(r.log, t) == ServedOf(d.log, t) + burst
    && Pending(r, t) == DueInQueue(r.queue, t, period) == [due + |burst| * period]
  }

  lemma BurstCons(d: Daemon, m: Daemon, r: Daemon, t: TimerId, due: nat, end: nat)
    requires TimerOf(m, t) == TimerOf(d, t) && 0 < TimerOf(d, t).period && due < end
    requires ServedOf(m.log, t) == ServedOf(d.log, t) + [due]
    requires ServesBurst(m, r, t, due + TimerOf(d, t).period, end)
    ensures ServesBurst(d, r, t, due, end)
  {
    hide ServedOf, Pending, DueInQueue, TimerOf;
    var period := TimerOf(d, t).period;
    var rest := Burst(due + period, period, end);
    assert Burst(due, period, end) == [due] + rest;
    assert (|rest| + 1) * period == |rest| * period + period;
  }

  lemma BurstEnds(d: Daemon, r: Daemon, t: TimerId, due: nat, end: nat)
    requires due >= end && Pending(r, t) == DueInQueue(r.queue, t, TimerOf(d, t).period) == [due]
    requires ServedOf(r.log, t) == ServedOf(d.log, t)
    ensures ServesBurst(d, r, t, due, end)
  {
    hide ServedOf, Pending, DueInQueue, TimerOf;
  }

  lemma SwitchServesOwn(d: Daemon, now: nat, epoch: nat, t: TimerId)
    requires Switching(d, now, epoch) && Values32(d.current) && d.current != [] && d.current[0].timer == t
    requires TimerOf(d, t).autoReload && OnlyInCurrent(d, t)
    ensures var r := SwitchTurn(d, now); var due := Pending(d, t)[0]; var period := TimerOf(d, t).period;
      && due < (epoch + 1) * 0x1_0000_0000 && 0 < period
      && TimerOf(r, t) == TimerOf(d, t) && ServedOf(r.log, t) == ServedOf(d.log, t) + [due]
        && Pending(r, t) == [due + period]
      && if due + period < (epoch + 1) * 0x1_0000_0000 then OnlyInCurrent(r, t)
         else DueIn(r.current, t) == [] && DueIn(r.overflow, t) == []
  {
    hide ServedOf, DueIn, DueInQueue, Wrap, Switching, OnlyStarts, SwitchTurn, TimerOf;
    SwitchTurnProjects(d, now, t);
    SwitchTurnGoes(d, now, epoch);
    InCurrentNonempty(d, t);
    SwitchTurnOverflow(d, now);
    HeadInEpoch(d, now, epoch);
    EpochEnd(d.current[0].expiry, epoch);
    PeriodPositive(d, now, epoch, t);
  }

  /** The switch serves a timer on the old list once for every expiry left in the old
      epoch, and leaves the next one, in the new epoch, to a queued reload. */
  lemma {:induction false} SwitchServesBurst(d: Daemon, now: nat, epoch: nat, t: TimerId)
    requires Switching(d, now, epoch) && Values32(d.current)
    requires TimerOf(d, t).autoReload && OnlyInCurrent(d, t)
    ensures ServesBurst(d, SwitchLoop(d, now), t, Pending(d, t)[0], (epoch + 1) * 0x1_0000_0000)
    decreases Distance(d.current)
  {
    hide ServedOf, DueIn, DueInQueue, Wrap, Epoch, Switching, OnlyStarts, SwitchTurn, ServesBurst, TimerOf, Burst;
    var end := (epoch + 1) * 0x1_0000_0000;
    var due := Pending(d, t)[0];
    InCurrentNonempty(d, t);
    var m := SwitchTurn(d, now);
    SwitchTurnDistance(d, now);
    SwitchTurn32(d, now);
    SwitchTurnOk(d, now, epoch);
    if d.current[0].timer == t {
      SwitchServesOwn(d, now, epoch, t);
      if due + TimerOf(d, t).period < end {
        SwitchServesBurst(m, now, epoch, t);
      } else {
        SwitchLoopLeaves(m, now, t);
        BurstEnds(m, SwitchLoop(m, now), t, due + TimerOf(d, t).period, end);
      }
      BurstCons(d, m, SwitchLoop(m, now), t, due, end);
    } else {
      SwitchTurnProjects(d, now, t);
      SwitchTurnOther(d, now, t);
      SwitchServesBurst(m, now, epoch, t);
      BurstSame(d, m, SwitchLoop(m, now), t, due, end);
    }
  }

  lemma BurstSame(d: Daemon, m: Daemon, r: Daemon, t: TimerId, due: nat, end: nat)
    requires Keeps(d, m, t) && ServesBurst(m, r, t, due, end)
    ensures ServesBurst(d, r, t, due, end)
  {
  }

  lemma InCurrentNonempty(d: Daemon, t: TimerId)
    requires OnlyInCurrent(d, t)
    ensures d.current != [] && DueIn(d.overflow, t) == []
  {
  }

  lemma HeadInEpoch(d: Daemon, now: nat, epoch: int)
    requires Switching(d, now, epoch) && d.current != []
    ensures Epoch(d.current[0].expiry) == epoch
  {
    assert d.current[0] in d.current;
  }

  lemma PeriodPositive(d: Daemon, now: nat, epoch: nat, t: TimerId)
    requires Switching(d, now, epoch)
    ensures 0 < TimerOf(d, t).period
  {
  }

  /** A timer that is no longer on the current list is left alone by the rest of the loop. */
  lemma {:induction false} SwitchLoopLeaves(d: Daemon, now: nat, t: TimerId)
    requires Values32(d.current) && DueIn(d.current, t) == [] && |Pending(d, t)| <= 1
    requires DueIn(d.overflow, t) == []
    ensures Keeps(d, SwitchLoop(d, now), t)
    ensures Pending(d, t) == DueInQueue(SwitchLoop(d, now).queue, t, TimerOf(d, t).period)
    decreases Distance(d.current)
  {
    hide ServedOf, DueInQueue, OnlyStarts, TimerOf, Wrap;
    if d.current != [] {
      SwitchTurnDistance(d, now);
      SwitchTurn32(d, now);
      SwitchTurnProjects(d, now, t);
      SwitchTurnOther(d, now, t);
      SwitchLoopLeaves(SwitchTurn(d, now), now, t);
    }
  }

  // ---- stopping ----

  /** Obeying a stop or a deletion leaves of the timer exactly what is queued behind it: it is
      stopped if and only if no start or reload of it is queued there. */
  lemma StopLeavesQueued(d: Daemon, now: nat, t: TimerId)
    requires Values32(d.current) && d.queue != [] && (d.queue[0] == Stop(t) || d.queue[0] == Delete(t))
    requires |DueInQueue(d.queue[1..], t, TimerOf(d, t).period)| <= 1
    ensures Pending(RunCommand(d, now), t) == DueInQueue(d.queue[1..], t, TimerOf(d, t).period)
    ensures ServedOf(RunCommand(d, now).log, t) == ServedOf(d.log, t)
  {
    hide ServedOf, DueInQueue, OnlyStarts, Wrap;
    DueRemove(d.current, t, t);
    DueRemove(d.overflow, t, t);
    RemoveMembers(d.current, t);
    var d1 := Dequeued(d);
    if RunCommand(d, now).overflow == d1.overflow && RunCommand(d, now).current == d1.current {
      SampleKeeps(d1, now, t);
    }
    SwitchLoopLeaves(d1, now, t);
    SwapKeeps(SwitchLoop(d1, now), now, t);
  }
}
