/** Concrete runs of tasks and mutexes, built one event at a time. */
module MutexScenes {
  import opened Common
  import opened Rings
  import opened MutexModel
  import opened MutexSafety

  /** Running events one after another. */
  function Exec(s: State, events: seq<Event>): State
    decreases |events|
  {
    if events == [] then s else Step(Exec(s, events[..|events| - 1]), events[|events| - 1])
  }

  /** Each event is enabled where it happens, and none raises a waiting holder. */
  ghost predicate Legal(s: State, events: seq<Event>)
    decreases |events|
  {
    events == [] ||
    var before := events[..|events| - 1];
    Legal(s, before) && Enabled(Exec(s, before), events[|events| - 1])
      && !RaisesWaiter(Exec(s, before), events[|events| - 1])
  }

  /** t is reached from s without a step that raises a waiting holder. */
  ghost predicate Reaches(s: State, t: State) {
    exists events :: Legal(s, events) && Exec(s, events) == t
  }

  lemma ReachesStep(start: State, s: State, e: Event)
    requires Reaches(start, s) && Enabled(s, e) && !RaisesWaiter(s, e)
    ensures Reaches(start, Step(s, e))
  {
    hide Step, Enabled, RaisesWaiter;
    var events :| Legal(start, events) && Exec(start, events) == s;
    var longer := events + [e];
    assert longer[..|longer| - 1] == events;
    assert Legal(start, longer) && Exec(start, longer) == Step(s, e);
  }

  lemma ReachesItself(s: State)
    ensures Reaches(s, s)
  {
    assert Legal(s, []) && Exec(s, []) == s;
  }

  /** What is reached in this sense is a state of a run. */
  lemma {:induction false} LegalIsRun(s: State, events: seq<Event>) returns (states: seq<State>)
    requires Legal(s, events)
    ensures Run(states, events) && states[0] == s && states[|events|] == Exec(s, events)
    ensures forall i :: 0 <= i < |events| ==> !RaisesWaiter(states[i], events[i])
    decreases |events|
  {
    hide Step, Enabled, RaisesWaiter;
    if events == [] {
      states := [s];
    } else {
      var before := events[..|events| - 1];
      var shorter := LegalIsRun(s, before);
      states := shorter + [Exec(s, events)];
    }
  }

  function Plain(priority: nat, base: nat, held: nat, pc: Pc, asleep: bool): Tcb {
    Tcb(priority, base, held, MAX_PRIORITIES - priority, pc, asleep)
  }

  const FREE: Mutex := Mutex(true, None, [])

  /** Four tasks and two mutexes. */
  function Scene(t0: Tcb, t1: Tcb, t2: Tcb, t3: Tcb, m0: Mutex, m1: Mutex, current: Task): State {
    State(map[0 := t0, 1 := t1, 2 := t2, 3 := t3], map[0 := m0, 1 := m1], current)
  }

  /** Of four tasks, t is ready and no other that is has a higher priority. */
  lemma HighestInScene(s: State, t: Task)
    requires s.tcbs.Keys == {0, 1, 2, 3} && Ready(s, t)
    requires (Ready(s, 0) ==> s.tcbs[0].priority <= s.tcbs[t].priority)
      && (Ready(s, 1) ==> s.tcbs[1].priority <= s.tcbs[t].priority)
    requires (Ready(s, 2) ==> s.tcbs[2].priority <= s.tcbs[t].priority)
      && (Ready(s, 3) ==> s.tcbs[3].priority <= s.tcbs[t].priority)
    ensures IsHighestReady(s, t)
  {
  }

  /** The first task on a wait list. */
  lemma WaitsAlone(s: State, m: MutexId, t: Task)
    requires MutexOf(s, m).waiters == []
    ensures Enqueue(s, m, t) == SetMutex(s, m, MutexOf(s, m).(waiters := [t]))
  {
    assert WaiterValues(s, m) == [];
    assert [] + [t] + [] == [t];
  }

  /** A task of higher priority than the one that waits already. */
  lemma WaitsFirst(s: State, m: MutexId, t: Task, u: Task)
    requires MutexOf(s, m).waiters == [u] && 0 <= TcbOf(s, t).value < TcbOf(s, u).value
    ensures Enqueue(s, m, t) == SetMutex(s, m, MutexOf(s, m).(waiters := [t, u]))
  {
    var values := WaiterValues(s, m);
    assert values == [TcbOf(s, u).value];
    InsertPosUnique(values, TcbOf(s, t).value, 0);
    assert [u][..0] + [t] + [u][0..] == [t, u];
  }

  lemma WithoutOnly(t: Task)
    ensures Without([t], t) == []
  {
    assert [t][1..] == [];
  }

  lemma WithoutFirst(t: Task, u: Task)
    requires t != u
    ensures Without([t, u], t) == [u]
  {
    WithoutSplit([], t, [u]);
    assert [] + [t] + [u] == [t, u] && [] + [u] == [u];
  }

  // ---- a start shared by two runs ----

  const IDLE: Tcb := Plain(0, 0, 0, Outside, false)

  /** Base priorities 0, 1, 2 and 5; task 1 runs, tasks 2 and 3 sleep, both mutexes are free. */
  function ChainStart(): State {
    Scene(IDLE, Plain(1, 1, 0, Outside, false), Plain(2, 2, 0, Outside, true), Plain(5, 5, 0, Outside, true), FREE,
      FREE, 1)
  }

  lemma ChainStarts()
    ensures Safe(ChainStart()) && Reaches(ChainStart(), ChainStart())
  {
    hide Safe, Reaches;
    FreshSafe(ChainStart());
    ReachesItself(ChainStart());
  }

  lemma OneStarts() returns (s: State)
    ensures Reaches(ChainStart(), s)
    ensures s == Scene(IDLE, Plain(1, 1, 0, Top(0, false, true), false), Plain(2, 2, 0, Outside, true),
      Plain(5, 5, 0, Outside, true),
      FREE, FREE, 1)
  {
    hide Reaches, Legal, Exec, Safe, IsHighestReady, InsertPos, WaiterValues;
    ChainStarts();
    s := ChainStart();
    ReachesStep(ChainStart(), s, StartTake(0, true));
    s := Step(s, StartTake(0, true));
  }

  lemma OneBegins() returns (s: State)
    ensures Reaches(ChainStart(), s)
    ensures s == Scene(IDLE, Plain(1, 1, 1, Outside, false), Plain(2, 2, 0, Outside, true),
      Plain(5, 5, 0, Outside, true),
      Mutex(false, Some(1), []), FREE, 1)
  {
    hide Reaches, Legal, Exec, Safe, IsHighestReady, InsertPos, WaiterValues;
    s := OneStarts();
    ReachesStep(ChainStart(), s, Try);
    s := Step(s, Try);
  }

  /** Task 1 takes mutex 0, then task 2 wakes and runs. */
  lemma OneTakes() returns (s: State)
    ensures Reaches(ChainStart(), s)
    ensures s == Scene(IDLE, Plain(1, 1, 1, Outside, false), Plain(2, 2, 0, Outside, false),
      Plain(5, 5, 0, Outside, true),
      Mutex(false, Some(1), []), FREE, 2)
  {
    hide Reaches, Legal, Exec, Safe, IsHighestReady, InsertPos, WaiterValues;
    s := OneBegins();
    ReachesStep(ChainStart(), s, WakeUp(2));
    s := Step(s, WakeUp(2));
    HighestInScene(Step(s, Switch(2)), 2);
    ReachesStep(ChainStart(), s, Switch(2));
    s := Step(s, Switch(2));
  }
}
