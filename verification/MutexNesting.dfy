/** Where inheritance over two mutexes ends: a chain of waiting tasks, a waiting task that
    is lowered, and a yield that a give drops. Each breaks it in a run of its own. */
module MutexNesting {
  import opened Common
  import opened Rings
  import opened MutexModel
  import opened MutexSafety
  import opened MutexOnTop
  import opened MutexScenes

  // ---- a chain of two mutexes ----

  /** Tasks 1 and 2 each hold a mutex. */
  lemma BothTake() returns (s: State)
    ensures Reaches(ChainStart(), s)
    ensures s == Scene(IDLE, Plain(1, 1, 1, Outside, false), Plain(2, 2, 1, Outside, true),
      Plain(5, 5, 0, Outside, true),
      Mutex(false, Some(1), []), Mutex(false, Some(2), []), 1)
  {
    hide Reaches, Legal, Exec, Safe, IsHighestReady, InsertPos, WaiterValues;
    s := OneTakes();
    ReachesStep(ChainStart(), s, StartTake(1, true));
    s := Step(s, StartTake(1, true));
    ReachesStep(ChainStart(), s, Try);
    s := Step(s, Try);
    HighestInScene(Step(s, Sleep(1)), 1);
    ReachesStep(ChainStart(), s, Sleep(1));
    s := Step(s, Sleep(1));
  }

  lemma OneAsks() returns (s: State)
    ensures Reaches(ChainStart(), s)
    ensures s == Scene(IDLE, Plain(1, 1, 1, Checked(1, false, true), false), Plain(2, 2, 1, Outside, true),
      Plain(5, 5, 0, Outside, true),
      Mutex(false, Some(1), []), Mutex(false, Some(2), []), 1)
  {
    hide Reaches, Legal, Exec, Safe, IsHighestReady, InsertPos, WaiterValues;
    s := BothTake();
    ReachesStep(ChainStart(), s, StartTake(1, true));
    s := Step(s, StartTake(1, true));
    ReachesStep(ChainStart(), s, Try);
    s := Step(s, Try);
  }

  /** Task 1 waits for the mutex of task 2. */
  lemma OneWaits() returns (s: State)
    ensures Reaches(ChainStart(), s)
    ensures s == Scene(IDLE, Plain(1, 1, 1, Waiting(1, false, true), false), Plain(2, 2, 1, Outside, true),
      Plain(5, 5, 0, Outside, true),
      Mutex(false, Some(1), []), Mutex(false, Some(2), [1]), 0)
  {
    hide Reaches, Legal, Exec, Safe, IsHighestReady, InsertPos, WaiterValues, Enqueue, GiveMutex, UndoInheritance,
      TryTake;
    s := OneAsks();
    WaitsAlone(Inherited(s, 1), 1, 1);
    HighestInScene(Step(s, Wait(0)), 0);
    ReachesStep(ChainStart(), s, Wait(0));
    s := Step(s, Wait(0));
  }

  /** Task 3 would raise task 1, which it waits for, but not task 2, which task 1 waits for:
      the only step that breaks inheritance at once. */
  lemma InheritanceStopsAtOneMutex() returns (s: State)
    ensures Reaches(ChainStart(), s) && Enabled(s, Wait(0)) && Lifts(s, Wait(0))
    ensures var r := Step(s, Wait(0));
      MutexOf(r, 1).holder == Some(2) && 1 in MutexOf(r, 1).waiters && TcbOf(r, 2).priority < TcbOf(r, 1).priority
  {
    hide Reaches, Legal, Exec, Safe, IsHighestReady, InsertPos, WaiterValues, Enqueue, GiveMutex, UndoInheritance;
    s := OneWaits();
    ReachesStep(ChainStart(), s, WakeUp(3));
    s := Step(s, WakeUp(3));
    HighestInScene(Step(s, Switch(3)), 3);
    ReachesStep(ChainStart(), s, Switch(3));
    s := Step(s, Switch(3));
    ReachesStep(ChainStart(), s, StartTake(0, true));
    s := Step(s, StartTake(0, true));
    ReachesStep(ChainStart(), s, Try);
    s := Step(s, Try);
    WaitsAlone(Inherited(s, 0), 0, 3);
    HighestInScene(Step(s, Wait(0)), 0);
    assert MutexOf(s, 1).waiters == [1] && 1 in [1];
  }

  // ---- a waiting task is lowered ----

  /** Base priorities 1, 1, 2 and 5; tasks 2 and 3 sleep. */
  function LoweredStart(): State {
    Scene(Plain(1, 1, 0, Outside, false), Plain(1, 1, 0, Outside, false), Plain(2, 2, 0, Outside, true),
      Plain(5, 5, 0, Outside, true),
      FREE, FREE, 0)
  }

  lemma ZeroStarts() returns (s: State)
    ensures Reaches(LoweredStart(), s)
    ensures s == Scene(Plain(1, 1, 0, Top(0, false, true), false), Plain(1, 1, 0, Outside, false),
      Plain(2, 2, 0, Outside, true),
      Plain(5, 5, 0, Outside, true), FREE, FREE, 0)
  {
    hide Reaches, Legal, Exec, Safe, IsHighestReady, InsertPos, WaiterValues;
    s := LoweredStart();
    ReachesItself(LoweredStart());
    ReachesStep(LoweredStart(), s, StartTake(0, true));
    s := Step(s, StartTake(0, true));
  }

  lemma StartsSafe()
    ensures Safe(LoweredStart()) && Safe(DroppedStart())
  {
    hide Safe;
    FreshSafe(LoweredStart());
    FreshSafe(DroppedStart());
  }

  /** Task 0 takes mutex 0, then task 1 runs. */
  lemma ZeroTakes() returns (s: State)
    ensures Reaches(LoweredStart(), s)
    ensures s == Scene(Plain(1, 1, 1, Outside, false), Plain(1, 1, 0, Outside, false), Plain(2, 2, 0, Outside, true),
      Plain(5, 5, 0, Outside, true), Mutex(false, Some(0), []), FREE, 1)
  {
    hide Reaches, Legal, Exec, Safe, IsHighestReady, InsertPos, WaiterValues;
    s := ZeroStarts();
    ReachesStep(LoweredStart(), s, Try);
    s := Step(s, Try);
    HighestInScene(Step(s, Switch(1)), 1);
    ReachesStep(LoweredStart(), s, Switch(1));
    s := Step(s, Switch(1));
  }

  lemma OneHoldsOther() returns (s: State)
    ensures Reaches(LoweredStart(), s)
    ensures s == Scene(Plain(1, 1, 1, Outside, false), Plain(1, 1, 1, Outside, false), Plain(2, 2, 0, Outside, true),
      Plain(5, 5, 0, Outside, true), Mutex(false, Some(0), []), Mutex(false, Some(1), []), 1)
  {
    hide Reaches, Legal, Exec, Safe, IsHighestReady, InsertPos, WaiterValues;
    s := ZeroTakes();
    ReachesStep(LoweredStart(), s, StartTake(1, true));
    s := Step(s, StartTake(1, true));
    ReachesStep(LoweredStart(), s, Try);
    s := Step(s, Try);
  }

  /** Task 1 takes mutex 1, then task 2 wakes and asks for mutex 0. */
  lemma OneTakesOther() returns (s: State)
    ensures Reaches(LoweredStart(), s)
    ensures s == Scene(Plain(1, 1, 1, Outside, false), Plain(1, 1, 1, Outside, false), Plain(2, 2, 0, Outside, false),
      Plain(5, 5, 0, Outside, true), Mutex(false, Some(0), []), Mutex(false, Some(1), []), 2)
  {
    hide Reaches, Legal, Exec, Safe, IsHighestReady, InsertPos, WaiterValues;
    s := OneHoldsOther();
    ReachesStep(LoweredStart(), s, WakeUp(2));
    s := Step(s, WakeUp(2));
    HighestInScene(Step(s, Switch(2)), 2);
    ReachesStep(LoweredStart(), s, Switch(2));
    s := Step(s, Switch(2));
  }

  lemma TwoAsksForZero() returns (s: State)
    ensures Reaches(LoweredStart(), s)
    ensures s == Scene(Plain(1, 1, 1, Outside, false), Plain(1, 1, 1, Outside, false),
      Plain(2, 2, 0, Checked(0, false, true), false),
      Plain(5, 5, 0, Outside, true), Mutex(false, Some(0), []), Mutex(false, Some(1), []), 2)
  {
    hide Reaches, Legal, Exec, Safe, IsHighestReady, InsertPos, WaiterValues, Enqueue, GiveMutex, UndoInheritance;
    s := OneTakesOther();
    ReachesStep(LoweredStart(), s, StartTake(0, true));
    s := Step(s, StartTake(0, true));
    ReachesStep(LoweredStart(), s, Try);
    s := Step(s, Try);
  }

  lemma TwoWaitsForZero() returns (s: State)
    ensures Reaches(LoweredStart(), s)
    ensures s == Scene(Plain(2, 1, 1, Outside, false), Plain(1, 1, 1, Outside, false),
      Plain(2, 2, 0, Waiting(0, true, true), false),
      Plain(5, 5, 0, Outside, true), Mutex(false, Some(0), [2]), Mutex(false, Some(1), []), 0)
  {
    hide Reaches, Legal, Exec, Safe, IsHighestReady, InsertPos, WaiterValues, Enqueue, GiveMutex, UndoInheritance;
    s := TwoAsksForZero();
    WaitsAlone(Inherited(s, 0), 0, 2);
    HighestInScene(Step(s, Wait(0)), 0);
    ReachesStep(LoweredStart(), s, Wait(0));
    s := Step(s, Wait(0));
  }

  lemma ThreeAsks() returns (s: State)
    ensures Reaches(LoweredStart(), s)
    ensures s == Scene(Plain(2, 1, 1, Outside, false), Plain(1, 1, 1, Outside, false),
      Plain(2, 2, 0, Waiting(0, true, true), false),
      Plain(5, 5, 0, Checked(1, false, true), false), Mutex(false, Some(0), [2]), Mutex(false, Some(1), []), 3)
  {
    hide Reaches, Legal, Exec, Safe, IsHighestReady, InsertPos, WaiterValues;
    s := TwoWaitsForZero();
    ReachesStep(LoweredStart(), s, WakeUp(3));
    s := Step(s, WakeUp(3));
    HighestInScene(Step(s, Switch(3)), 3);
    ReachesStep(LoweredStart(), s, Switch(3));
    s := Step(s, Switch(3));
    ReachesStep(LoweredStart(), s, StartTake(1, true));
    s := Step(s, StartTake(1, true));
    ReachesStep(LoweredStart(), s, Try);
    s := Step(s, Try);
  }

  lemma ThreeWaits() returns (s: State)
    ensures Reaches(LoweredStart(), s)
    ensures s == Scene(Plain(2, 1, 1, Outside, false), Plain(5, 1, 1, Outside, false),
      Plain(2, 2, 0, Waiting(0, true, true), false),
      Plain(5, 5, 0, Waiting(1, true, true), false), Mutex(false, Some(0), [2]), Mutex(false, Some(1), [3]), 1)
  {
    hide Reaches, Legal, Exec, Safe, IsHighestReady, InsertPos, WaiterValues, Enqueue, GiveMutex, UndoInheritance;
    s := ThreeAsks();
    WaitsAlone(Inherited(s, 1), 1, 3);
    HighestInScene(Step(s, Wait(1)), 1);
    ReachesStep(LoweredStart(), s, Wait(1));
    s := Step(s, Wait(1));
  }

  /** Task 3 waits for mutex 1 and raises task 1, which then asks for mutex 0. */
  lemma ThreeRaisesOne() returns (s: State)
    ensures Reaches(LoweredStart(), s)
    ensures s == Scene(Plain(2, 1, 1, Outside, false), Plain(5, 1, 1, Checked(0, false, true), false),
      Plain(2, 2, 0, Waiting(0, true, true), false), Plain(5, 5, 0, Waiting(1, true, true), false),
      Mutex(false, Some(0), [2]), Mutex(false, Some(1), [3]), 1)
  {
    hide Reaches, Legal, Exec, Safe, IsHighestReady, InsertPos, WaiterValues, Enqueue, GiveMutex, UndoInheritance;
    s := ThreeWaits();
    ReachesStep(LoweredStart(), s, StartTake(0, true));
    s := Step(s, StartTake(0, true));
    ReachesStep(LoweredStart(), s, Try);
    s := Step(s, Try);
  }

  /** Task 1 waits in front of task 2. */
  lemma OneWaitsInFront() returns (s: State)
    ensures Reaches(LoweredStart(), s)
    ensures s == Scene(Plain(5, 1, 1, Outside, false), Plain(5, 1, 1, Waiting(0, true, true), false),
      Plain(2, 2, 0, Waiting(0, true, true), false), Plain(5, 5, 0, Waiting(1, true, true), false),
      Mutex(false, Some(0), [1, 2]), Mutex(false, Some(1), [3]), 0)
  {
    hide Reaches, Legal, Exec, Safe, IsHighestReady, InsertPos, WaiterValues, Enqueue, GiveMutex, UndoInheritance,
      TryTake;
    s := ThreeRaisesOne();
    WaitsFirst(Inherited(s, 0), 0, 1, 2);
    HighestInScene(Step(s, Wait(0)), 0);
    ReachesStep(LoweredStart(), s, Wait(0));
    s := Step(s, Wait(0));
  }

  lemma ThreeWakes() returns (s: State)
    ensures Reaches(LoweredStart(), s)
    ensures s == Scene(Plain(5, 1, 1, Outside, false), Plain(5, 1, 1, Waiting(0, true, true), false),
      Plain(2, 2, 0, Waiting(0, true, true), false), Plain(5, 5, 0, Top(1, true, true), false),
      Mutex(false, Some(0), [1, 2]), Mutex(false, Some(1), []), 3)
  {
    hide Reaches, Legal, Exec, Safe, IsHighestReady, InsertPos, WaiterValues;
    s := OneWaitsInFront();
    WithoutOnly(3);
    ReachesStep(LoweredStart(), s, TimeOut(3));
    s := Step(s, TimeOut(3));
    HighestInScene(Step(s, Switch(3)), 3);
    ReachesStep(LoweredStart(), s, Switch(3));
    s := Step(s, Switch(3));
  }

  /** Task 3 times out and tries once more. */
  lemma ThreeTimesOut() returns (s: State)
    ensures Reaches(LoweredStart(), s)
    ensures s == Scene(Plain(5, 1, 1, Outside, false), Plain(5, 1, 1, Waiting(0, true, true), false),
      Plain(2, 2, 0, Waiting(0, true, true), false), Plain(5, 5, 0, Checked(1, true, true), false),
      Mutex(false, Some(0), [1, 2]), Mutex(false, Some(1), []), 3)
  {
    hide Reaches, Legal, Exec, Safe, IsHighestReady, InsertPos, WaiterValues;
    s := ThreeWakes();
    ReachesStep(LoweredStart(), s, Try);
    s := Step(s, Try);
  }

  /** Its timeout has expired, and it takes back what task 1 inherited. */
  lemma ThreeLowersOne() returns (s: State)
    ensures Reaches(LoweredStart(), s)
    ensures s == Scene(Plain(5, 1, 1, Outside, false), Plain(1, 1, 1, Waiting(0, true, true), false),
      Plain(2, 2, 0, Waiting(0, true, true), false), Plain(5, 5, 0, Outside, false),
      Mutex(false, Some(0), [1, 2]), Mutex(false, Some(1), []), 3)
  {
    hide Reaches, Legal, Exec, Safe, IsHighestReady, InsertPos, WaiterValues;
    s := ThreeTimesOut();
    ReachesStep(LoweredStart(), s, Expire(false));
    s := Step(s, Expire(false));
    ReachesStep(LoweredStart(), s, Recheck);
    s := Step(s, Recheck);
    assert LowersCaller(s, Undo);
    ReachesStep(LoweredStart(), s, Undo);
    s := Step(s, Undo);
  }

  lemma ThreeSleeps() returns (s: State)
    ensures Reaches(LoweredStart(), s)
    ensures s == Scene(Plain(5, 1, 1, Outside, false), Plain(1, 1, 1, Waiting(0, true, true), false),
      Plain(2, 2, 0, Waiting(0, true, true), false), Plain(5, 5, 0, Outside, true),
      Mutex(false, Some(0), [1, 2]), Mutex(false, Some(1), []), 0)
  {
    hide Reaches, Legal, Exec, Safe, IsHighestReady, InsertPos, WaiterValues;
    s := ThreeLowersOne();
    HighestInScene(Step(s, Sleep(0)), 0);
    ReachesStep(LoweredStart(), s, Sleep(0));
    s := Step(s, Sleep(0));
  }

  /** Task 1 is woken by the give, still in front of task 2. */
  lemma OneIsWoken() returns (s: State)
    ensures Reaches(LoweredStart(), s)
    ensures s == Scene(Plain(1, 1, 0, Outside, false), Plain(1, 1, 1, Top(0, true, true), false),
      Plain(2, 2, 0, Waiting(0, true, true), false),
      Plain(5, 5, 0, Outside, true), Mutex(true, None, [2]), Mutex(false, Some(1), []), 0)
  {
    hide Reaches, Legal, Exec, Safe, Step, Enabled, RaisesWaiter;
    s := ThreeSleeps();
    WokenStep(s);
    ReachesStep(LoweredStart(), s, Give(0, 0));
    s := Step(s, Give(0, 0));
  }

  lemma WokenStep(s: State)
    requires s == Scene(Plain(5, 1, 1, Outside, false), Plain(1, 1, 1, Waiting(0, true, true), false),
      Plain(2, 2, 0, Waiting(0, true, true), false), Plain(5, 5, 0, Outside, true),
      Mutex(false, Some(0), [1, 2]), Mutex(false, Some(1), []), 0)
    ensures Step(s, Give(0, 0)) == Scene(Plain(1, 1, 0, Outside, false), Plain(1, 1, 1, Top(0, true, true), false),
      Plain(2, 2, 0, Waiting(0, true, true), false), Plain(5, 5, 0, Outside, true), Mutex(true, None, [2]),
        Mutex(false, Some(1), []), 0)
    ensures Enabled(s, Give(0, 0)) && !RaisesWaiter(s, Give(0, 0))
  {
    hide IsHighestReady, GiveMutex, Freed, Without;
    GiveShape(s, 0);
    FreedScene(s);
    WithoutFirst(1, 2);
  }

  lemma FreedScene(s: State)
    requires s == Scene(Plain(5, 1, 1, Outside, false), Plain(1, 1, 1, Waiting(0, true, true), false),
      Plain(2, 2, 0, Waiting(0, true, true), false), Plain(5, 5, 0, Outside, true),
      Mutex(false, Some(0), [1, 2]), Mutex(false, Some(1), []), 0)
    ensures Freed(s, 0) == Scene(Plain(1, 1, 0, Outside, false), Plain(1, 1, 1, Waiting(0, true, true), false),
      Plain(2, 2, 0, Waiting(0, true, true), false), Plain(5, 5, 0, Outside, true), Mutex(true, None, [1, 2]),
        Mutex(false, Some(1), []), 0)
  {
  }

  /** Task 1, still in front of task 2, is woken by the give and takes the mutex: a holder
      below a task on its wait list, without any waiting task having been raised. */
  lemma LoweredWaiterOvertakes() returns (s: State)
    ensures Safe(LoweredStart()) && Reaches(LoweredStart(), s)
    ensures MutexOf(s, 0).holder == Some(1) && MutexOf(s, 0).waiters == [2]
      && TcbOf(s, 1).priority < TcbOf(s, 2).priority
  {
    hide Reaches, Legal, Exec, Safe, IsHighestReady, InsertPos, WaiterValues;
    StartsSafe();
    s := OneIsWoken();
    HighestInScene(Step(s, Switch(1)), 1);
    ReachesStep(LoweredStart(), s, Switch(1));
    s := Step(s, Switch(1));
    ReachesStep(LoweredStart(), s, Try);
    s := Step(s, Try);
  }

  // ---- a yield is dropped ----

  /** Base priorities 1, 1, 2 and 5; tasks 2 and 3 sleep, task 1 runs. */
  function DroppedStart(): State {
    Scene(Plain(1, 1, 0, Outside, false), Plain(1, 1, 0, Outside, false), Plain(2, 2, 0, Outside, true),
      Plain(5, 5, 0, Outside, true),
      FREE, FREE, 1)
  }

  /** Task 1 takes both mutexes, one after the other. */
  lemma OneTakesBoth() returns (s: State)
    ensures Reaches(DroppedStart(), s)
    ensures s == Scene(Plain(1, 1, 0, Outside, false), Plain(1, 1, 2, Outside, false), Plain(2, 2, 0, Outside, true),
      Plain(5, 5, 0, Outside, true), Mutex(false, Some(1), []), Mutex(false, Some(1), []), 1)
  {
    hide Reaches, Legal, Exec, Safe, IsHighestReady, InsertPos, WaiterValues;
    s := DroppedStart();
    ReachesItself(DroppedStart());
    ReachesStep(DroppedStart(), s, StartTake(0, true));
    s := Step(s, StartTake(0, true));
    ReachesStep(DroppedStart(), s, Try);
    s := Step(s, Try);
    ReachesStep(DroppedStart(), s, StartTake(1, true));
    s := Step(s, StartTake(1, true));
    ReachesStep(DroppedStart(), s, Try);
    s := Step(s, Try);
  }

  lemma ZeroAsks() returns (s: State)
    ensures Reaches(DroppedStart(), s)
    ensures s == Scene(Plain(1, 1, 0, Checked(0, false, true), false), Plain(1, 1, 2, Outside, false),
      Plain(2, 2, 0, Outside, true),
      Plain(5, 5, 0, Outside, true), Mutex(false, Some(1), []), Mutex(false, Some(1), []), 0)
  {
    hide Reaches, Legal, Exec, Safe, IsHighestReady, InsertPos, WaiterValues;
    s := OneTakesBoth();
    HighestInScene(Step(s, Switch(0)), 0);
    ReachesStep(DroppedStart(), s, Switch(0));
    s := Step(s, Switch(0));
    ReachesStep(DroppedStart(), s, StartTake(0, true));
    s := Step(s, StartTake(0, true));
    ReachesStep(DroppedStart(), s, Try);
    s := Step(s, Try);
  }

  /** Task 0, of the same priority, waits for the first. */
  lemma ZeroWaits() returns (s: State)
    ensures Reaches(DroppedStart(), s)
    ensures s == Scene(Plain(1, 1, 0, Waiting(0, false, true), false), Plain(1, 1, 2, Outside, false),
      Plain(2, 2, 0, Outside, true),
      Plain(5, 5, 0, Outside, true), Mutex(false, Some(1), [0]), Mutex(false, Some(1), []), 1)
  {
    hide Reaches, Legal, Exec, Safe, IsHighestReady, InsertPos, WaiterValues, Enqueue, GiveMutex, UndoInheritance,
      TryTake;
    s := ZeroAsks();
    WaitsAlone(Inherited(s, 0), 0, 0);
    HighestInScene(Step(s, Wait(1)), 1);
    ReachesStep(DroppedStart(), s, Wait(1));
    s := Step(s, Wait(1));
  }

  lemma TwoAsksForOne() returns (s: State)
    ensures Reaches(DroppedStart(), s)
    ensures s == Scene(Plain(1, 1, 0, Waiting(0, false, true), false), Plain(1, 1, 2, Outside, false),
      Plain(2, 2, 0, Checked(1, false, true), false), Plain(5, 5, 0, Outside, true), Mutex(false, Some(1), [0]),
        Mutex(false, Some(1), []), 2)
  {
    hide Reaches, Legal, Exec, Safe, IsHighestReady, InsertPos, WaiterValues;
    s := ZeroWaits();
    ReachesStep(DroppedStart(), s, WakeUp(2));
    s := Step(s, WakeUp(2));
    HighestInScene(Step(s, Switch(2)), 2);
    ReachesStep(DroppedStart(), s, Switch(2));
    s := Step(s, Switch(2));
    ReachesStep(DroppedStart(), s, StartTake(1, true));
    s := Step(s, StartTake(1, true));
    ReachesStep(DroppedStart(), s, Try);
    s := Step(s, Try);
  }

  /** Tasks 2 and 3 wait for the second. */
  lemma TwoWaitsForOne() returns (s: State)
    ensures Reaches(DroppedStart(), s)
    ensures s == Scene(Plain(1, 1, 0, Waiting(0, false, true), false), Plain(2, 1, 2, Outside, false),
      Plain(2, 2, 0, Waiting(1, true, true), false), Plain(5, 5, 0, Outside, true), Mutex(false, Some(1), [0]),
        Mutex(false, Some(1), [2]), 1)
  {
    hide Reaches, Legal, Exec, Safe, IsHighestReady, InsertPos, WaiterValues, Enqueue, GiveMutex, UndoInheritance,
      TryTake;
    s := TwoAsksForOne();
    WaitsAlone(Inherited(s, 1), 1, 2);
    HighestInScene(Step(s, Wait(1)), 1);
    ReachesStep(DroppedStart(), s, Wait(1));
    s := Step(s, Wait(1));
  }

  lemma ThreeAsksForOne() returns (s: State)
    ensures Reaches(DroppedStart(), s)
    ensures s == Scene(Plain(1, 1, 0, Waiting(0, false, true), false), Plain(2, 1, 2, Outside, false),
      Plain(2, 2, 0, Waiting(1, true, true), false), Plain(5, 5, 0, Checked(1, false, true), false),
      Mutex(false, Some(1), [0]), Mutex(false, Some(1), [2]), 3)
  {
    hide Reaches, Legal, Exec, Safe, IsHighestReady, InsertPos, WaiterValues;
    s := TwoWaitsForOne();
    ReachesStep(DroppedStart(), s, WakeUp(3));
    s := Step(s, WakeUp(3));
    HighestInScene(Step(s, Switch(3)), 3);
    ReachesStep(DroppedStart(), s, Switch(3));
    s := Step(s, Switch(3));
    ReachesStep(DroppedStart(), s, StartTake(1, true));
    s := Step(s, StartTake(1, true));
    ReachesStep(DroppedStart(), s, Try);
    s := Step(s, Try);
  }

  /** Task 1 has risen to priority 5. */
  lemma ThreeWaitsForOne() returns (s: State)
    ensures Reaches(DroppedStart(), s)
    ensures s == Scene(Plain(1, 1, 0, Waiting(0, false, true), false), Plain(5, 1, 2, Outside, false),
      Plain(2, 2, 0, Waiting(1, true, true), false), Plain(5, 5, 0, Waiting(1, true, true), false),
      Mutex(false, Some(1), [0]), Mutex(false, Some(1), [3, 2]), 1)
  {
    hide Reaches, Legal, Exec, Safe, IsHighestReady, InsertPos, WaiterValues, Enqueue, GiveMutex, UndoInheritance,
      TryTake;
    s := ThreeAsksForOne();
    WaitsFirst(Inherited(s, 1), 1, 3, 2);
    HighestInScene(Step(s, Wait(1)), 1);
    ReachesStep(DroppedStart(), s, Wait(1));
    s := Step(s, Wait(1));
  }

  lemma OneGivesSecond() returns (s: State)
    ensures Reaches(DroppedStart(), s)
    ensures s == Scene(Plain(1, 1, 0, Waiting(0, false, true), false), Plain(5, 1, 1, Outside, false),
      Plain(2, 2, 0, Waiting(1, true, true), false), Plain(5, 5, 0, Top(1, true, true), false),
      Mutex(false, Some(1), [0]), Mutex(true, None, [2]), 1)
  {
    hide Reaches, Legal, Exec, Safe, IsHighestReady, InsertPos, WaiterValues;
    s := ThreeWaitsForOne();
    WithoutFirst(3, 2);
    ReachesStep(DroppedStart(), s, Give(1, 3));
    s := Step(s, Give(1, 3));
  }

  /** It gives the second mutex, which wakes task 3, then the first, which wakes task 0. Back
      at priority 1 it runs on, as task 0 is no higher. */
  lemma OneGivesBoth() returns (s: State)
    ensures Reaches(DroppedStart(), s)
    ensures s == Scene(Plain(1, 1, 0, Top(0, false, true), false), Plain(1, 1, 0, Outside, false),
      Plain(2, 2, 0, Waiting(1, true, true), false), Plain(5, 5, 0, Top(1, true, true), false), FREE,
        Mutex(true, None, [2]), 1)
  {
    hide Reaches, Legal, Exec, Safe, Step, Enabled, RaisesWaiter;
    s := OneGivesSecond();
    DroppedStep(s);
    ReachesStep(DroppedStart(), s, Give(0, 3));
    s := Step(s, Give(0, 3));
  }

  lemma DroppedStep(s: State)
    requires s == Scene(Plain(1, 1, 0, Waiting(0, false, true), false), Plain(5, 1, 1, Outside, false),
      Plain(2, 2, 0, Waiting(1, true, true), false), Plain(5, 5, 0, Top(1, true, true), false),
      Mutex(false, Some(1), [0]), Mutex(true, None, [2]), 1)
    ensures Step(s, Give(0, 3)) == Scene(Plain(1, 1, 0, Top(0, false, true), false), Plain(1, 1, 0, Outside, false),
      Plain(2, 2, 0, Waiting(1, true, true), false), Plain(5, 5, 0, Top(1, true, true), false), FREE,
        Mutex(true, None, [2]), 1)
    ensures Enabled(s, Give(0, 3)) && !RaisesWaiter(s, Give(0, 3)) && RunsOnLowered(s, Give(0, 3))
  {
    hide IsHighestReady, GiveMutex, Freed, Without;
    GiveShape(s, 0);
    FreedLast(s);
    WithoutOnly(0);
    assert Contested(s, 1);
  }

  lemma FreedLast(s: State)
    requires s == Scene(Plain(1, 1, 0, Waiting(0, false, true), false), Plain(5, 1, 1, Outside, false),
      Plain(2, 2, 0, Waiting(1, true, true), false), Plain(5, 5, 0, Top(1, true, true), false),
      Mutex(false, Some(1), [0]), Mutex(true, None, [2]), 1)
    ensures Freed(s, 0) == Scene(Plain(1, 1, 0, Waiting(0, false, true), false), Plain(1, 1, 0, Outside, false),
      Plain(2, 2, 0, Waiting(1, true, true), false), Plain(5, 5, 0, Top(1, true, true), false),
      Mutex(true, None, [0]), Mutex(true, None, [2]), 1)
  {
  }

  /** And takes the second again, ahead of tasks 2 and 3: the yield that giving it back
      its base priority asked for was dropped. */
  lemma DroppedYieldOvertakes() returns (s: State)
    ensures Safe(DroppedStart()) && Reaches(DroppedStart(), s)
    ensures MutexOf(s, 1).holder == Some(1) && MutexOf(s, 1).waiters == [2]
      && TcbOf(s, 1).priority < TcbOf(s, 2).priority
  {
    hide Reaches, Legal, Exec, Safe, IsHighestReady, InsertPos, WaiterValues;
    StartsSafe();
    s := OneGivesBoth();
    ReachesStep(DroppedStart(), s, StartTake(1, true));
    s := Step(s, StartTake(1, true));
    ReachesStep(DroppedStart(), s, Try);
    s := Step(s, Try);
  }
}
