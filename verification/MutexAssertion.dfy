/** The assertion at the end of a failed take: when exactly it fails, and which callers can
    never make it fail. */
module MutexAssertion {
  import opened Common
  import opened Rings
  import opened MutexModel
  import opened MutexSafety
  import opened MutexScenes

  /** configASSERT( xInheritanceOccurred == pdFALSE ), reached when the mutex is
      unavailable and no block time is left. */
  predicate TakeAssertion(s: State) {
    var pc := TcbOf(s, s.current).pc;
    pc.Top? && !MutexOf(s, pc.m).available && !pc.wait ==> !pc.inherited
  }

  lemma TwoAsks() returns (s: State)
    ensures Reaches(ChainStart(), s)
    ensures s == Scene(IDLE, Plain(1, 1, 1, Outside, false), Plain(2, 2, 0, Checked(0, false, true), false),
      Plain(5, 5, 0, Outside, true),
      Mutex(false, Some(1), []), FREE, 2)
  {
    hide Reaches, Legal, Exec, Safe, IsHighestReady, InsertPos, WaiterValues;
    s := OneTakes();
    ReachesStep(ChainStart(), s, StartTake(0, true));
    s := Step(s, StartTake(0, true));
    ReachesStep(ChainStart(), s, Try);
    s := Step(s, Try);
  }

  /** Task 2 waits for mutex 0 and raises task 1. */
  lemma TwoWaits() returns (s: State)
    ensures Reaches(ChainStart(), s)
    ensures s == Scene(IDLE, Plain(2, 1, 1, Outside, false), Plain(2, 2, 0, Waiting(0, true, true), false),
      Plain(5, 5, 0, Outside, true),
      Mutex(false, Some(1), [2]), FREE, 1)
  {
    hide Reaches, Step, Enabled, RaisesWaiter;
    s := TwoAsks();
    TwoWaitsStep(s);
    HighestInScene(Step(s, Wait(1)), 1);
    ReachesStep(ChainStart(), s, Wait(1));
    s := Step(s, Wait(1));
  }

  lemma TwoWaitsStep(s: State)
    requires s == Scene(IDLE, Plain(1, 1, 1, Outside, false), Plain(2, 2, 0, Checked(0, false, true), false),
      Plain(5, 5, 0, Outside, true),
      Mutex(false, Some(1), []), FREE, 2)
    ensures Step(s, Wait(1)) == Scene(IDLE, Plain(2, 1, 1, Outside, false),
      Plain(2, 2, 0, Waiting(0, true, true), false), Plain(5, 5, 0, Outside, true),
      Mutex(false, Some(1), [2]), FREE, 1)
    ensures Enabled(s, Wait(1)) && !RaisesWaiter(s, Wait(1))
  {
    hide InsertPos, WaiterValues;
    WaitsAlone(Inherited(s, 0), 0, 2);
  }

  /** Then it times out. */
  lemma TwoTimesOut() returns (s: State)
    ensures Reaches(ChainStart(), s)
    ensures s == Scene(IDLE, Plain(2, 1, 1, Outside, false), Plain(2, 2, 0, Top(0, true, true), false),
      Plain(5, 5, 0, Outside, true),
      Mutex(false, Some(1), []), FREE, 2)
  {
    hide Reaches, Legal, Exec, Safe, IsHighestReady, InsertPos, WaiterValues;
    s := TwoWaits();
    WithoutOnly(2);
    ReachesStep(ChainStart(), s, TimeOut(2));
    s := Step(s, TimeOut(2));
    HighestInScene(Step(s, Switch(2)), 2);
    ReachesStep(ChainStart(), s, Switch(2));
    s := Step(s, Switch(2));
  }

  /** Task 2 tries again, sees its timeout expired, and task 1 runs. */
  lemma TwoExpires() returns (s: State)
    ensures Reaches(ChainStart(), s)
    ensures s == Scene(IDLE, Plain(2, 1, 1, Outside, false), Plain(2, 2, 0, Expired(0, true, false), false),
      Plain(5, 5, 0, Outside, true),
      Mutex(false, Some(1), []), FREE, 1)
  {
    hide Reaches, Legal, Exec, Safe, IsHighestReady, InsertPos, WaiterValues;
    s := TwoTimesOut();
    ReachesStep(ChainStart(), s, Try);
    s := Step(s, Try);
    ReachesStep(ChainStart(), s, Expire(false));
    s := Step(s, Expire(false));
    HighestInScene(Step(s, Switch(1)), 1);
    ReachesStep(ChainStart(), s, Switch(1));
    s := Step(s, Switch(1));
  }

  lemma OneGives() returns (s: State)
    ensures Reaches(ChainStart(), s)
    ensures s == Scene(IDLE, Plain(1, 1, 0, Outside, false), Plain(2, 2, 0, Expired(0, true, false), false),
      Plain(5, 5, 0, Outside, true),
      FREE, FREE, 2)
  {
    hide Reaches, Legal, Exec, Safe, IsHighestReady, InsertPos, WaiterValues;
    s := TwoExpires();
    HighestInScene(Step(s, Give(0, 2)), 2);
    ReachesStep(ChainStart(), s, Give(0, 2));
    s := Step(s, Give(0, 2));
  }

  /** Task 2 sees its timeout expired; task 1 gives the mutex; task 2 rechecks and finds it
      available. */
  lemma TwoLoopsBack() returns (s: State)
    ensures Reaches(ChainStart(), s)
    ensures s == Scene(IDLE, Plain(1, 1, 0, Outside, false), Plain(2, 2, 0, Top(0, true, false), false),
      Plain(5, 5, 0, Outside, true),
      FREE, FREE, 2)
  {
    hide Reaches, Legal, Exec, Safe, IsHighestReady, InsertPos, WaiterValues;
    s := OneGives();
    ReachesStep(ChainStart(), s, Recheck);
    s := Step(s, Recheck);
  }

  lemma ThreeRuns() returns (s: State)
    ensures Reaches(ChainStart(), s)
    ensures s == Scene(IDLE, Plain(1, 1, 0, Outside, false), Plain(2, 2, 0, Top(0, true, false), false),
      Plain(5, 5, 0, Outside, false),
      FREE, FREE, 3)
  {
    hide Reaches, Legal, Exec, Safe, IsHighestReady, InsertPos, WaiterValues;
    s := TwoLoopsBack();
    ReachesStep(ChainStart(), s, WakeUp(3));
    s := Step(s, WakeUp(3));
    HighestInScene(Step(s, Switch(3)), 3);
    ReachesStep(ChainStart(), s, Switch(3));
    s := Step(s, Switch(3));
  }

  /** Task 3 takes the mutex first, and the assertion fails. */
  lemma TakeAssertionCanFail() returns (s: State)
    ensures Reaches(ChainStart(), s) && Enabled(s, Try) && !TakeAssertion(s)
  {
    hide Reaches, Legal, Exec, Safe, IsHighestReady, InsertPos, WaiterValues;
    s := ThreeRuns();
    ReachesStep(ChainStart(), s, StartTake(0, true));
    s := Step(s, StartTake(0, true));
    ReachesStep(ChainStart(), s, Try);
    s := Step(s, Try);
    HighestInScene(Step(s, Sleep(2)), 2);
    ReachesStep(ChainStart(), s, Sleep(2));
    s := Step(s, Sleep(2));
  }

  // ---- when exactly it fails ----

  /** A call at the top of its loop with no time left after it caused inheritance. */
  predicate LoopedBack(pc: Pc) {
    pc.Top? && pc.inherited && !pc.wait
  }

  /** The step by which the code gets there: a recheck after the timeout has used up the
      block time finds the mutex available. */
  predicate BadRecheck(s: State, e: Event) {
    e.Recheck? &&
    var pc := TcbOf(s, s.current).pc;
    pc.Expired? && pc.inherited && !pc.wait && MutexOf(s, pc.m).available
  }

  /** Only a call with block time left goes on to wait. */
  ghost predicate WaitsAsked(s: State) {
    forall t :: t in s.tcbs && (s.tcbs[t].pc.Waiting? || s.tcbs[t].pc.Checked?) ==> s.tcbs[t].pc.wait
  }

  /** What a step makes of t's call: looped back by its own bad recheck, until its own try. */
  ghost predicate Loops(s: State, e: Event, t: Task) {
    LoopedBack(TcbOf(Step(s, e), t).pc) <==>
      (t == s.current && BadRecheck(s, e)) || (LoopedBack(TcbOf(s, t).pc) && !(t == s.current && e.Try?))
  }

  lemma StepLoops(s: State, e: Event, t: Task)
    requires WaitsAsked(s) && Enabled(s, e)
    ensures WaitsAsked(Step(s, e)) && Loops(s, e, t)
  {
    hide WaitsAsked, Loops, Enabled;
    match e {
      case Wait(_) => WaitLoops(s, e, t);
      case Give(_, _) => WakeLoops(s, e, t);
      case TimeOut(_) => WakeLoops(s, e, t);
      case Undo => SectionLoops(s, e, t);
      case Try => SectionLoops(s, e, t);
      case Recheck => SectionLoops(s, e, t);
      case _ => PlainLoops(s, e, t);
    }
  }

  lemma WaitLoops(s: State, e: Event, t: Task)
    requires WaitsAsked(s) && Enabled(s, e) && e.Wait?
    ensures WaitsAsked(Step(s, e)) && Loops(s, e, t)
  {
    hide InsertPos, WaiterValues, IsHighestReady;
  }

  lemma WakeLoops(s: State, e: Event, t: Task)
    requires WaitsAsked(s) && Enabled(s, e) && (e.Give? || e.TimeOut?)
    ensures WaitsAsked(Step(s, e)) && Loops(s, e, t)
  {
    hide Without, IsHighestReady, GiveYields;
  }

  lemma SectionLoops(s: State, e: Event, t: Task)
    requires WaitsAsked(s) && Enabled(s, e) && (e.Undo? || e.Try? || e.Recheck?)
    ensures WaitsAsked(Step(s, e)) && Loops(s, e, t)
  {
    hide IsHighestReady, HighestWaiting;
  }

  lemma PlainLoops(s: State, e: Event, t: Task)
    requires WaitsAsked(s) && Enabled(s, e)
    requires e.StartTake? || e.Expire? || e.Switch? || e.Sleep? || e.WakeUp? || e.SetBase?
    ensures WaitsAsked(Step(s, e)) && Loops(s, e, t)
  {
    hide IsHighestReady;
  }

  /** At j, t did a bad recheck, and it has not run the section at the top of its loop
      between then and k. */
  ghost predicate LoopedSince(states: seq<State>, events: seq<Event>, t: Task, j: nat, k: nat)
    requires k < |states| == |events| + 1 && j < k
  {
    && states[j].current == t && BadRecheck(states[j], events[j])
    && forall i :: j < i < k && states[i].current == t ==> !events[i].Try?
  }

  lemma {:induction false} LoopedExactly(states: seq<State>, events: seq<Event>, t: Task, k: nat)
    requires Run(states, events) && k < |states|
    requires WaitsAsked(states[0]) && !LoopedBack(TcbOf(states[0], t).pc)
    ensures WaitsAsked(states[k])
    ensures LoopedBack(TcbOf(states[k], t).pc) <==> exists j :: 0 <= j < k && LoopedSince(states, events, t, j, k)
    decreases k
  {
    hide Step, Enabled, WaitsAsked, BadRecheck, LoopedBack;
    if k > 0 {
      LoopedExactly(states, events, t, k - 1);
      StepLoops(states[k - 1], events[k - 1], t);
      if LoopedBack(TcbOf(states[k], t).pc) {
        if t == states[k - 1].current && BadRecheck(states[k - 1], events[k - 1]) {
          assert LoopedSince(states, events, t, k - 1, k);
        } else {
          var j :| 0 <= j < k - 1 && LoopedSince(states, events, t, j, k - 1);
          assert LoopedSince(states, events, t, j, k);
        }
      }
      forall j | 0 <= j < k && LoopedSince(states, events, t, j, k)
        ensures LoopedBack(TcbOf(states[k], t).pc)
      {
        if j < k - 1 { assert LoopedSince(states, events, t, j, k - 1); }
      }
    }
  }

  /** In every run from calls of which none has looped back, the assertion is false of the
      running task at k exactly if its mutex is unavailable and it did a bad recheck since
      which it has not run the section at the top of its loop. */
  lemma TakeAssertionExactly(states: seq<State>, events: seq<Event>, k: nat)
    requires Run(states, events) && k < |states|
    requires WaitsAsked(states[0]) && forall t :: !LoopedBack(TcbOf(states[0], t).pc)
    ensures var s := states[k];
      !TakeAssertion(s) <==>
        !MutexOf(s, RunningFor(s)).available && exists j :: 0 <= j < k && LoopedSince(states, events, s.current, j, k)
  {
    hide Run, LoopedSince, WaitsAsked;
    LoopedExactly(states, events, states[k].current, k);
  }

  // ---- callers that never see it fail ----

  /** A call started with no block time only tries; one whose timeout has not expired has
      block time left. */
  predicate Calm(pc: Pc, wait: bool) {
    || pc == Outside
    || if wait then (pc.Top? || pc.Checked? || pc.Waiting?) && pc.wait else pc.Top? && !pc.inherited && !pc.wait
  }

  lemma StepCalm(s: State, e: Event, t: Task, wait: bool)
    requires Enabled(s, e) && Calm(TcbOf(s, t).pc, wait)
    requires s.current == t ==> !e.StartTake? && (wait ==> !e.Expire?)
    ensures Calm(TcbOf(Step(s, e), t).pc, wait)
  {
    hide Enabled, Calm;
    if e.Wait? { WaitCalm(s, e, t, wait); }
    else if e.Give? || e.TimeOut? { WakeCalm(s, e, t, wait); }
    else { PlainCalm(s, e, t, wait); }
  }

  lemma WaitCalm(s: State, e: Event, t: Task, wait: bool)
    requires Enabled(s, e) && Calm(TcbOf(s, t).pc, wait) && e.Wait?
    ensures Calm(TcbOf(Step(s, e), t).pc, wait)
  {
    hide InsertPos, WaiterValues, IsHighestReady;
  }

  lemma WakeCalm(s: State, e: Event, t: Task, wait: bool)
    requires Enabled(s, e) && Calm(TcbOf(s, t).pc, wait) && (e.Give? || e.TimeOut?)
    ensures Calm(TcbOf(Step(s, e), t).pc, wait)
  {
    hide Without, IsHighestReady, GiveYields;
  }

  lemma PlainCalm(s: State, e: Event, t: Task, wait: bool)
    requires Enabled(s, e) && Calm(TcbOf(s, t).pc, wait) && !e.Wait? && !e.Give? && !e.TimeOut?
    requires s.current == t ==> !e.StartTake? && (wait ==> !e.Expire?)
    ensures Calm(TcbOf(Step(s, e), t).pc, wait)
  {
    hide IsHighestReady, HighestWaiting;
  }

  /** The assertion never fails for a call of t with block time 0, nor for one that has not
      seen its timeout expire, as none with portMAX_DELAY ever does. j is the start of the
      call that t makes at k. */
  lemma {:induction false} CalmCallNeverFails(states: seq<State>, events: seq<Event>, t: Task, m: MutexId, wait: bool,
      j: nat, k: nat)
    requires Run(states, events) && j < k < |states| && events[j] == StartTake(m, wait) && states[j].current == t
    requires forall i :: j < i < k && states[i].current == t ==> !events[i].StartTake? && (wait ==> !events[i].Expire?)
    ensures Calm(TcbOf(states[k], t).pc, wait)
    ensures states[k].current == t ==> TakeAssertion(states[k])
    decreases k
  {
    hide Enabled, Step;
    if k == j + 1 {
      StartCalm(states[j], t, m, wait);
    } else {
      CalmCallNeverFails(states, events, t, m, wait, j, k - 1);
      StepCalm(states[k - 1], events[k - 1], t, wait);
    }
  }

  lemma StartCalm(s: State, t: Task, m: MutexId, wait: bool)
    requires s.current == t
    ensures Calm(TcbOf(Step(s, StartTake(m, wait)), t).pc, wait)
  {
  }
}
