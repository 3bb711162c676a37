/** A task that takes a mutex it holds already: when vTaskPriorityDisinheritAfterTimeout
    asserts that this is not how the timeout came about. */
module MutexSelfTake {
  import opened Common
  import opened Rings
  import opened MutexModel
  import opened MutexAccounting
  import opened MutexSafety
  import opened MutexOnTop
  import opened MutexScenes
  import opened MutexAssertion
  import opened MutexExact

  /** configASSERT( pxTCB != pxCurrentTCB ), reached when the holder holds nothing else and
      its priority is to change. */
  predicate UndoAssertion(s: State) {
    var (t, m) := (s.current, RunningFor(s));
    TcbOf(s, t).pc.Undoing? && MutexOf(s, m).holder == Some(t) && TcbOf(s, t).held == 1 ==>
      TcbOf(s, t).priority == FallsTo(s, m, t)
  }

  /** The running task has waited for its only mutex, with a priority inherited from a task
      that has left the wait list since, nobody else on it having as high a one. */
  predicate WaitedForItself(s: State) {
    var (t, m) := (s.current, RunningFor(s));
    && TcbOf(s, t).pc.Undoing? && MutexOf(s, m).holder == Some(t) && TcbOf(s, t).held == 1
    && TcbOf(s, t).base < TcbOf(s, t).priority
    && forall w :: w in MutexOf(s, m).waiters ==> TcbOf(s, w).priority < TcbOf(s, t).priority
  }

  lemma UndoAssertionExactly(s: State)
    requires Safe(s) && Enabled(s, Undo)
    ensures !UndoAssertion(s) <==> WaitedForItself(s)
  {
    hide CountsOk, HoldersOk, WaitersOk, Ordered, HighestWaiting, IsHighestReady, Step;
    var m := s.tcbs[s.current].pc.m;
    CallFacts(s, s.current);
    ListFacts(s, m);
    HolderFacts(s, m);
    assert SafeFor(s, m);
    HeadHighest(s, m);
  }

  // ---- tasks that never do that ----

  /** No task is in a call for a mutex it holds. */
  predicate NoneOwn(s: State) {
    forall t :: t in s.tcbs && s.tcbs[t].pc != Outside ==> MutexOf(s, s.tcbs[t].pc.m).holder != Some(t)
  }

  lemma StepNoneOwn(s: State, e: Event)
    requires NoneOwn(s) && Enabled(s, e) && NoSelfTake(s, e)
    ensures NoneOwn(Step(s, e))
  {
    hide NoneOwn, Enabled, NoSelfTake;
    match e {
      case Wait(_) => WaitNoneOwn(s, e);
      case Give(_, _) => WakeNoneOwn(s, e);
      case TimeOut(_) => WakeNoneOwn(s, e);
      case _ => PlainNoneOwn(s, e);
    }
  }

  lemma WaitNoneOwn(s: State, e: Event)
    requires NoneOwn(s) && Enabled(s, e) && e.Wait?
    ensures NoneOwn(Step(s, e))
  {
    hide InsertPos, WaiterValues, IsHighestReady;
  }

  lemma WakeNoneOwn(s: State, e: Event)
    requires NoneOwn(s) && Enabled(s, e) && (e.Give? || e.TimeOut?)
    ensures NoneOwn(Step(s, e))
  {
    hide IsHighestReady, GiveYields, Freed, Awaken, GiveMutex;
    match e {
      case Give(m, next) =>
        FreedNoneOwn(s, m);
        GiveShape(s, m);
        if MutexOf(s, m).waiters != [] { AwakenNoneOwn(Freed(s, m), m, MutexOf(s, m).waiters[0]); }
        assert NoneOwn(GiveMutex(s, m));
      case TimeOut(t) => AwakenNoneOwn(s, s.tcbs[t].pc.m, t);
    }
  }

  lemma FreedNoneOwn(s: State, m: MutexId)
    requires NoneOwn(s) && m in s.mutexes && s.mutexes[m].holder == Some(s.current) && Ready(s, s.current)
    ensures NoneOwn(Freed(s, m)) && MutexOf(Freed(s, m), m).holder == None
  {
  }

  lemma AwakenNoneOwn(s: State, m: MutexId, t: Task)
    requires NoneOwn(s) && MutexOf(s, m).holder != Some(t)
    ensures NoneOwn(Awaken(s, m, t))
  {
    hide Without;
  }

  lemma PlainNoneOwn(s: State, e: Event)
    requires NoneOwn(s) && Enabled(s, e) && NoSelfTake(s, e) && !e.Wait? && !e.Give? && !e.TimeOut?
    ensures NoneOwn(Step(s, e))
  {
    hide IsHighestReady, HighestWaiting;
  }

  /** Over any number of mutexes, if no task takes a mutex that it holds the assertion holds
      in every state of every run. */
  lemma {:induction false} UndoNeverAsserts(states: seq<State>, events: seq<Event>, k: nat)
    requires Run(states, events) && NoneOwn(states[0]) && k < |states|
    requires forall i :: 0 <= i < k ==> NoSelfTake(states[i], events[i])
    ensures NoneOwn(states[k]) && UndoAssertion(states[k])
    decreases k
  {
    hide Enabled, Step, NoSelfTake;
    if k > 0 {
      UndoNeverAsserts(states, events, k - 1);
      StepNoneOwn(states[k - 1], events[k - 1]);
    }
  }

  // ---- a run to the assertion ----

  lemma WaitsBehind(s: State, m: MutexId, t: Task, u: Task)
    requires MutexOf(s, m).waiters == [u] && 0 <= TcbOf(s, u).value <= TcbOf(s, t).value
    ensures Enqueue(s, m, t) == SetMutex(s, m, MutexOf(s, m).(waiters := [u, t]))
  {
    var values := WaiterValues(s, m);
    assert values == [TcbOf(s, u).value];
    InsertPosUnique(values, TcbOf(s, t).value, 1);
    assert [u][..1] + [t] + [u][1..] == [u, t];
  }

  /** Task 1, raised by task 2, takes the mutex that it holds. */
  lemma OneAsksAgain() returns (s: State)
    ensures Reaches(ChainStart(), s)
    ensures s == Scene(IDLE, Plain(2, 1, 1, Checked(0, false, true), false),
      Plain(2, 2, 0, Waiting(0, true, true), false), Plain(5, 5, 0, Outside, true),
      Mutex(false, Some(1), [2]), FREE, 1)
  {
    hide Reaches, Legal, Exec, Safe, IsHighestReady, InsertPos, WaiterValues;
    s := TwoWaits();
    ReachesStep(ChainStart(), s, StartTake(0, true));
    s := Step(s, StartTake(0, true));
    ReachesStep(ChainStart(), s, Try);
    s := Step(s, Try);
  }

  lemma OneWaitsForItself() returns (s: State)
    ensures Reaches(ChainStart(), s)
    ensures s == Scene(IDLE, Plain(2, 1, 1, Waiting(0, true, true), false),
      Plain(2, 2, 0, Waiting(0, true, true), false), Plain(5, 5, 0, Outside, true),
      Mutex(false, Some(1), [2, 1]), FREE, 0)
  {
    hide Reaches, Step, Enabled, RaisesWaiter;
    s := OneAsksAgain();
    OneWaitsStep(s);
    ReachesStep(ChainStart(), s, Wait(0));
    s := Step(s, Wait(0));
  }

  lemma OneWaitsStep(s: State)
    requires s == Scene(IDLE, Plain(2, 1, 1, Checked(0, false, true), false),
      Plain(2, 2, 0, Waiting(0, true, true), false), Plain(5, 5, 0, Outside, true),
      Mutex(false, Some(1), [2]), FREE, 1)
    ensures Step(s, Wait(0)) == Scene(IDLE, Plain(2, 1, 1, Waiting(0, true, true), false),
      Plain(2, 2, 0, Waiting(0, true, true), false), Plain(5, 5, 0, Outside, true),
      Mutex(false, Some(1), [2, 1]), FREE, 0)
    ensures Enabled(s, Wait(0)) && !RaisesWaiter(s, Wait(0))
  {
    hide Inherited, Enqueue, IsHighestReady;
    BlocksShape(s, 0);
    InheritsNothing(s);
    WaitsBehind(Inherited(s, 0), 0, 1, 2);
    HighestInScene(Step(s, Wait(0)), 0);
  }

  lemma InheritsNothing(s: State)
    requires s == Scene(IDLE, Plain(2, 1, 1, Checked(0, false, true), false),
      Plain(2, 2, 0, Waiting(0, true, true), false), Plain(5, 5, 0, Outside, true),
      Mutex(false, Some(1), [2]), FREE, 1)
    ensures Inherited(s, 0) == Scene(IDLE, Plain(2, 1, 1, Waiting(0, true, true), false),
      Plain(2, 2, 0, Waiting(0, true, true), false), Plain(5, 5, 0, Outside, true),
      Mutex(false, Some(1), [2]), FREE, 1)
  {
  }

  /** Both time out, and task 1 runs first. */
  lemma BothTimeOut() returns (s: State)
    ensures Reaches(ChainStart(), s)
    ensures s == Scene(IDLE, Plain(2, 1, 1, Top(0, true, true), false),
      Plain(2, 2, 0, Top(0, true, true), false), Plain(5, 5, 0, Outside, true),
      Mutex(false, Some(1), []), FREE, 1)
  {
    hide Reaches, Legal, Exec, Safe, IsHighestReady, InsertPos, WaiterValues;
    s := OneWaitsForItself();
    WithoutFirst(2, 1);
    ReachesStep(ChainStart(), s, TimeOut(2));
    s := Step(s, TimeOut(2));
    WithoutOnly(1);
    ReachesStep(ChainStart(), s, TimeOut(1));
    s := Step(s, TimeOut(1));
    HighestInScene(Step(s, Switch(1)), 1);
    ReachesStep(ChainStart(), s, Switch(1));
    s := Step(s, Switch(1));
  }

  /** About to undo an inheritance that it thinks it has caused, it finds itself the holder,
      above its base priority with nobody left to account for that. */
  lemma UndoAssertionCanFail() returns (s: State)
    ensures Reaches(ChainStart(), s) && Enabled(s, Undo) && !UndoAssertion(s)
  {
    hide Reaches, Legal, Exec, Safe, IsHighestReady, InsertPos, WaiterValues;
    s := BothTimeOut();
    ReachesStep(ChainStart(), s, Try);
    s := Step(s, Try);
    ReachesStep(ChainStart(), s, Expire(false));
    s := Step(s, Expire(false));
    ReachesStep(ChainStart(), s, Recheck);
    s := Step(s, Recheck);
  }
}
