/** Time-outs and periodic delays of tasks.c over the wrapping tick count. */
module Timeouts {
  import opened Common
  import opened Ticks

  /** The tick count and overflow count at absolute time now. */
  class Clock {
    var xTickCount: nat
    var xNumOfOverflows: nat

    ghost function Now(): nat
      reads this
    {
      xNumOfOverflows * 0x1_0000_0000 + xTickCount
    }

    ghost predicate Valid()
      reads this
    {
      xTickCount < 0x1_0000_0000
    }
  }

  class TimeOut {
    var xOverflowCount: nat
    var xTimeOnEntering: nat

    ghost function Entered(): nat
      reads this
    {
      xOverflowCount * 0x1_0000_0000 + xTimeOnEntering
    }

    ghost predicate Valid()
      reads this
    {
      xTimeOnEntering < 0x1_0000_0000
    }

    /** vTaskInternalSetTimeOutState. */
    method SetTimeOutState(clock: Clock)
      requires clock.Valid()
      modifies this
      ensures Valid() && Entered() == clock.Now()
    {
      xOverflowCount, xTimeOnEntering := clock.xNumOfOverflows, clock.xTickCount;
    }

    /** xTaskCheckForTimeOut: aborted is ucDelayAborted of the running task. */
    method CheckForTimeOut(clock: Clock, ticksToWait: nat, aborted: bool) returns (expired: bool, remaining: nat)
      requires Valid() && clock.Valid() && ticksToWait <= MAX_DELAY && Entered() <= clock.Now()
      modifies this
      ensures Valid() && expired == Expires(old(Entered()), ticksToWait, aborted, clock.Now())
      ensures !expired && ticksToWait != MAX_DELAY ==>
        Entered() == clock.Now() && remaining == ticksToWait - Wrap(clock.Now() - old(Entered()))
      ensures !expired && ticksToWait == MAX_DELAY ==> Entered() == old(Entered()) && remaining == MAX_DELAY
      ensures aborted ==> expired
      ensures !aborted && ticksToWait == MAX_DELAY ==> !expired
      ensures !aborted && ticksToWait != MAX_DELAY && clock.Now() < old(Entered()) + 0x1_0000_0000 ==>
        (expired <==> clock.Now() >= old(Entered()) + ticksToWait)
    {
      if ticksToWait != MAX_DELAY { ExpiresExactly(Entered(), ticksToWait, clock.Now()); }
      ClockParts(xOverflowCount, xTimeOnEntering);
      ClockParts(clock.xNumOfOverflows, clock.xTickCount);
      WrapDifferenceParts(clock.xNumOfOverflows, clock.xTickCount, xOverflowCount, xTimeOnEntering);
      var xElapsedTime := Wrap(clock.xTickCount - xTimeOnEntering);
      remaining := ticksToWait;
      if aborted {
        expired := true;
      } else if ticksToWait == MAX_DELAY {
        expired := false;
      } else if clock.xNumOfOverflows != xOverflowCount && clock.xTickCount >= xTimeOnEntering {
        expired := true;
      } else if xElapsedTime < ticksToWait {
        remaining := ticksToWait - xElapsedTime;
        SetTimeOutState(clock);
        expired := false;
      } else {
        remaining := 0;
        expired := true;
      }
    }
  }

  lemma ClockParts(overflows: nat, tick: nat)
    requires tick < 0x1_0000_0000
    ensures Wrap(overflows * 0x1_0000_0000 + tick) == tick && Epoch(overflows * 0x1_0000_0000 + tick) == overflows
  {
  }

  lemma WrapDifferenceParts(o1: nat, t1: nat, o2: nat, t2: nat)
    ensures Wrap((o1 * 0x1_0000_0000 + t1) - (o2 * 0x1_0000_0000 + t2)) == Wrap(t1 - t2)
  {
    assert (o1 * 0x1_0000_0000 + t1) - (o2 * 0x1_0000_0000 + t2) == (o1 - o2) * 0x1_0000_0000 + (t1 - t2);
  }

  /** What the code answers, in terms of the absolute times of entering and checking. */
  predicate Expires(entered: nat, wait: nat, aborted: bool, now: nat) {
    || aborted
    || (wait != MAX_DELAY &&
        ((Epoch(now) != Epoch(entered) && Wrap(now) >= Wrap(entered)) || Wrap(now - entered) >= wait))
  }

  /** For a finite wait the answer is right, expired if and only if the wait has really
      elapsed, except when the check comes more than a full wrap late and finds the tick
      count below where it started, by less than the wait. */
  lemma ExpiresExactly(entered: nat, wait: nat, now: nat)
    requires wait < MAX_DELAY && entered <= now
    ensures (Expires(entered, wait, false, now) == (now - entered >= wait)) ==
      !(now - entered >= 0x1_0000_0000 && Wrap(now) < Wrap(entered) && Wrap(now - entered) < wait)
  {
    if now < entered + 0x1_0000_0000 {
      WrapStep(entered, now);
      SmallWrap(now - entered);
    } else {
      LaterEpoch(entered, now);
    }
  }

  /** A check more than a wrap late: a wait of 100 ticks entered at the last tick of the
      first epoch, looked at 3 ticks into the third, has not expired. */
  lemma LateCheckMisses()
    ensures !Expires(0xffff_ffff, 100, false, 0x2_0000_0003) && 0x2_0000_0003 - 0xffff_ffff > 0x1_0000_0000
  {
    ExpiresExactly(0xffff_ffff, 100, 0x2_0000_0003);
  }

  lemma SmallWrap(n: nat)
    requires n < 0x1_0000_0000
    ensures Wrap(n) == n
  {
  }

  lemma LaterEpoch(a: nat, b: nat)
    requires a + 0x1_0000_0000 <= b
    ensures Epoch(a) < Epoch(b)
  {
  }

  /** A sequence of checks of one call, each entering anew with what remained. */
  function Checks(entered: nat, wait: nat, times: seq<nat>): bool
    decreases |times|
  {
    if times == [] then false
    else if Expires(entered, wait, false, times[0]) then true
    else if wait == MAX_DELAY then Checks(entered, wait, times[1..])
    else if Wrap(times[0] - entered) <= wait then Checks(times[0], wait - Wrap(times[0] - entered), times[1..])
    else false
  }

  ghost predicate Prompt(entered: nat, times: seq<nat>)
    decreases |times|
  {
    times != [] ==> entered <= times[0] < entered + 0x1_0000_0000 && Prompt(times[0], times[1..])
  }

  /** Deadline conservation. Checked at least once per wrap, the call times out at the
      first check at or after its original deadline, however often it is re-armed. */
  lemma {:induction false} DeadlineKept(entered: nat, wait: nat, times: seq<nat>)
    requires wait < MAX_DELAY && Prompt(entered, times)
    ensures Checks(entered, wait, times) == exists t :: t in times && t >= entered + wait
    decreases |times|
  {
    if times != [] {
      ExpiresExactly(entered, wait, times[0]);
      SmallWrap(times[0] - entered);
      if times[0] < entered + wait {
        DeadlineKept(times[0], wait - (times[0] - entered), times[1..]);
        assert forall t :: t in times <==> t == times[0] || t in times[1..];
      } else {
        assert times[0] in times;
      }
    }
  }

  /** A wait of portMAX_DELAY never times out. */
  lemma {:induction false} MaxDelayWaits(entered: nat, times: seq<nat>)
    ensures !Checks(entered, MAX_DELAY, times)
  {
    if times != [] {
      MaxDelayWaits(entered, times[1..]);
    }
  }

  // ---- vTaskDelayUntil ----

  /** The decision of vTaskDelayUntil, on 32-bit values. */
  method DelayUntil(previousWakeTime: nat, increment: nat, tick: nat)
      returns (timeToWake: nat, delays: bool, ticks: nat)
    requires previousWakeTime < 0x1_0000_0000 && 0 < increment < 0x1_0000_0000 && tick < 0x1_0000_0000
    ensures timeToWake == Wrap(previousWakeTime + increment)
    ensures delays == (Wrap(tick - previousWakeTime) < increment)
    ensures delays ==> ticks == increment - Wrap(tick - previousWakeTime)
  {
    timeToWake := Wrap(previousWakeTime + increment);
    delays, ticks := false, 0;
    if tick < previousWakeTime {
      if timeToWake < previousWakeTime && timeToWake > tick {
        delays := true;
      }
    } else {
      if timeToWake < previousWakeTime || timeToWake > tick {
        delays := true;
      }
    }
    if delays {
      ticks := Wrap(timeToWake - tick);
    }
  }

  /** Whether a call at absolute time now blocks. */
  predicate Blocks(previous: nat, increment: nat, now: nat) {
    Wrap(Wrap(now) - Wrap(previous)) < increment
  }

  /** When the task goes on: a call that does not block returns at once. */
  function WakeTime(previous: nat, increment: nat, now: nat): nat
    requires increment < 0x1_0000_0000
  {
    if Blocks(previous, increment, now) then now + increment - Wrap(Wrap(now) - Wrap(previous)) else now
  }

  /** The call comes at or after the previous wake time, and not less than the increment past
      a multiple of the wrap after it, other than itself. */
  predicate InTime(previous: nat, increment: nat, now: nat) {
    previous <= now && (now - previous < 0x1_0000_0000 || Wrap(now - previous) >= increment)
  }

  /** With absolute times, for every previous wake time and every time of the call: the
      decision to block is right, the task blocking if and only if previous + increment lies
      ahead, except exactly for a call less than the increment past a multiple of the wrap
      after the previous wake time, which blocks, and for a call before it, which does not
      block unless it is less than the increment past such a multiple. */
  lemma DelayUntilExact(previous: nat, increment: nat, now: nat)
    requires 0 < increment < 0x1_0000_0000
    ensures (Blocks(previous, increment, now) == (now < previous + increment)) <==>
      !(now < previous && Wrap(now - previous) >= increment)
      && !(now - previous >= 0x1_0000_0000 && Wrap(now - previous) < increment)
  {
    WrapOfDifference(now, previous);
    if previous <= now < previous + 0x1_0000_0000 { SmallWrap(now - previous); }
  }

  /** And the task goes on at exactly previous + increment, or at once if that has passed, if
      and only if the call is in time. */
  lemma WakesExactly(previous: nat, increment: nat, now: nat)
    requires 0 < increment < 0x1_0000_0000
    ensures var due := previous + increment;
      (WakeTime(previous, increment, now) == if now < due then due else now) <==> InTime(previous, increment, now)
  {
    WrapOfDifference(now, previous);
    if previous <= now < previous + 0x1_0000_0000 { SmallWrap(now - previous); }
  }

  /** Called 3 ticks past the wrap after a wake time that was due long ago, the task blocks
      for 7 ticks. */
  lemma LateCallBlocks()
    ensures Blocks(0, 10, 0x1_0000_0003) && WakeTime(0, 10, 0x1_0000_0003) == 0x1_0000_000a
  {
  }

  /** A task whose delay until 100 was cut short by suspending and resuming it at 50, as
      nothing else wakes it, asks for 160 and does not block. */
  lemma EarlyCallReturns()
    ensures !Blocks(100, 60, 50) && WakeTime(100, 60, 50) == 50
  {
  }

  lemma WrapOfDifference(a: nat, b: nat)
    ensures Wrap(Wrap(a) - Wrap(b)) == Wrap(a - b)
  {
    WrapDifferenceParts(Epoch(a), Wrap(a), Epoch(b), Wrap(b));
    assert a == Epoch(a) * 0x1_0000_0000 + Wrap(a) && b == Epoch(b) * 0x1_0000_0000 + Wrap(b);
  }

  /** Absolute wake times of successive calls made at the given times. */
  function Wakes(previous: nat, increment: nat, times: seq<nat>): seq<nat>
    requires increment < 0x1_0000_0000
    decreases |times|
  {
    if times == [] then []
    else [WakeTime(previous, increment, times[0])] + Wakes(previous + increment, increment, times[1..])
  }

  /** Delays do not add up: whatever the calls before it, the k-th call wakes at
      start + (k + 1) * increment, or returns at once if that has passed, if and only if it
      comes in time after the wake time before it. */
  lemma {:induction false} FixedRate(start: nat, increment: nat, times: seq<nat>, k: nat)
    requires 0 < increment < 0x1_0000_0000 && k < |times|
    ensures |Wakes(start, increment, times)| == |times|
    ensures var due := start + (k + 1) * increment;
      (Wakes(start, increment, times)[k] == if times[k] < due then due else times[k])
      <==> InTime(start + k * increment, increment, times[k])
    decreases |times|
  {
    hide WakeTime, InTime;
    WakesExactly(start, increment, times[0]);
    WakesLength(start + increment, increment, times[1..]);
    assert (k + 1) * increment == k * increment + increment;
    if k > 0 {
      FixedRate(start + increment, increment, times[1..], k - 1);
      assert start + k * increment == start + increment + (k - 1) * increment;
    } else {
      assert k * increment == 0;
    }
  }

  lemma {:induction false} WakesLength(previous: nat, increment: nat, times: seq<nat>)
    requires increment < 0x1_0000_0000
    ensures |Wakes(previous, increment, times)| == |times|
    decreases |times|
  {
    if times != [] {
      WakesLength(previous + increment, increment, times[1..]);
    }
  }
}
