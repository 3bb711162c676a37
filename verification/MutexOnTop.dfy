/** Runs over any number of mutexes, whatever their callers do: exactly three kinds of step
    put a holder below a task on its wait list. */
module MutexOnTop {
  import opened Common
  import opened Rings
  import opened MutexModel
  import opened MutexAccounting
  import opened MutexSafety

  ghost predicate OnTop(s: State) {
    forall m :: m in s.mutexes ==> HolderOnTop(s, m)
  }

  ghost predicate Sound(s: State) {
    Accounts(s) && ValuesOk(s)
  }

  // ---- the steps that break it ----

  /** The running task, about to wait, raises a holder that waits for another mutex above
      the holder of that one: inheritance is not passed on. */
  predicate Lifts(s: State, e: Event) {
    RaisesWaiter(s, e) &&
    var h := MutexOf(s, RunningFor(s)).holder.value;
    var g := MutexOf(s, TcbOf(s, h).pc.m).holder;
    g.Some? && g.value != h && TcbOf(s, g.value).priority < TcbOf(s, s.current).priority
  }

  /** The running task takes a mutex that a task of higher priority waits for. */
  predicate Overtakes(s: State, e: Event) {
    e.Try? &&
    var (t, m) := (s.current, RunningFor(s));
    && TcbOf(s, t).pc.Top? && MutexOf(s, m).available
    && exists w :: w in MutexOf(s, m).waiters && TcbOf(s, t).priority < TcbOf(s, w).priority
  }

  /** The priority a holder of only mutex m falls to when a task waiting for m times out. */
  function FallsTo(s: State, m: MutexId, h: Task): int {
    if TcbOf(s, h).base < HighestWaiting(s, m) then HighestWaiting(s, m) else TcbOf(s, h).base
  }

  /** The holder falls below a task that still waits, but not at the head of the list. */
  predicate Undercuts(s: State, e: Event) {
    e.Undo? &&
    var m := RunningFor(s);
    var h := MutexOf(s, m).holder;
    && h.Some? && TcbOf(s, h.value).held == 1
    && exists w :: w in MutexOf(s, m).waiters && w != h.value && FallsTo(s, m, h.value) < TcbOf(s, w).priority
  }

  predicate Breaks(s: State, e: Event) {
    Lifts(s, e) || Overtakes(s, e) || Undercuts(s, e)
  }

  // ---- waiting ----

  lemma WaitFor(s: State, next: Task, n: MutexId)
    requires Accounts(s) && ValuesOk(s) && Enabled(s, Wait(next)) && n in s.mutexes
    requires var m := s.tcbs[s.current].pc.m; m in s.mutexes && !s.mutexes[m].available && HolderOnTop(s, m)
    requires HolderOnTop(s, n)
    ensures HolderOnTop(Step(s, Wait(next)), n)
      <==> !(Lifts(s, Wait(next)) && n == TcbOf(s, s.mutexes[s.tcbs[s.current].pc.m].holder.value).pc.m)
  {
    hide CountsOk, HoldersOk, WaitersOk, IsHighestReady, ValuesOk, Inherited, Enqueue, Step, Ordered, HolderOnTop,
      Guarded, Lifts, RaisesWaiter;
    var (t, m) := (s.current, s.tcbs[s.current].pc.m);
    HolderFacts(s, m);
    HolderFacts(s, n);
    var h := s.mutexes[m].holder.value;
    BlocksShape(s, next);
    InheritedShape(s, m, h);
    InheritedValues(s, m, h);
    EnqueueShape(Inherited(s, m), m, t);
    ListFacts(s, n);
    OnListOf(s, h, n);
    var r := Step(s, Wait(next));
    if n == m {
      assert forall u :: u in r.mutexes[m].waiters ==> u == t || u in s.mutexes[m].waiters;
      OnTopOfOwn(s, r, m, h);
      LiftsElsewhere(s, m, next);
    } else {
      OnTopOfOther(s, r, m, h, n, next);
    }
  }

  lemma OnListOf(s: State, t: Task, n: MutexId)
    requires WaitersOk(s) && t in s.tcbs && n in s.mutexes
    ensures t in s.mutexes[n].waiters <==> s.tcbs[t].pc.Waiting? && s.tcbs[t].pc.m == n
  {
  }

  lemma LiftsElsewhere(s: State, m: MutexId, next: Task)
    requires s.current in s.tcbs && s.tcbs[s.current].pc.Checked? && s.tcbs[s.current].pc.m == m
    ensures Lifts(s, Wait(next)) ==> m != TcbOf(s, MutexOf(s, m).holder.value).pc.m
  {
  }

  lemma OnTopOfOwn(s: State, r: State, m: MutexId, h: Task)
    requires HolderOnTop(s, m) && m in s.mutexes && m in r.mutexes
      && s.mutexes[m].holder == r.mutexes[m].holder == Some(h)
    requires s.current in s.tcbs && h in s.tcbs && r.tcbs.Keys == s.tcbs.Keys
    requires forall u :: u in s.mutexes[m].waiters ==> u in s.tcbs
    requires forall u :: u in s.tcbs && u != h ==> r.tcbs[u].priority == s.tcbs[u].priority
    requires s.tcbs[h].priority <= r.tcbs[h].priority && s.tcbs[s.current].priority <= r.tcbs[h].priority
    requires forall u :: u in r.mutexes[m].waiters ==> u == s.current || u in s.mutexes[m].waiters
    ensures HolderOnTop(r, m)
  {
  }

  lemma OnTopOfOther(s: State, r: State, m: MutexId, h: Task, n: MutexId, next: Task)
    requires HolderOnTop(s, n) && m in s.mutexes && n in s.mutexes && n != m && !s.mutexes[m].available
      && s.mutexes[m].holder == Some(h)
    requires s.current in s.tcbs && s.tcbs[s.current].pc.Checked? && s.tcbs[s.current].pc.m == m
    requires h in s.tcbs && r.tcbs.Keys == s.tcbs.Keys && n in r.mutexes && r.mutexes[n] == s.mutexes[n]
    requires forall u :: u in s.mutexes[n].waiters ==> u in s.tcbs && s.tcbs[u].pc.Waiting? && s.tcbs[u].pc.m == n
    requires h in s.mutexes[n].waiters <==> s.tcbs[h].pc.Waiting? && s.tcbs[h].pc.m == n
    requires s.mutexes[n].holder.Some? ==> s.mutexes[n].holder.value in s.tcbs
    requires forall u :: u in s.tcbs && u != h ==> r.tcbs[u].priority == s.tcbs[u].priority
    requires r.tcbs[h].priority ==
      if s.tcbs[h].priority < s.tcbs[s.current].priority then s.tcbs[s.current].priority else s.tcbs[h].priority
    ensures HolderOnTop(r, n) <==> !(Lifts(s, Wait(next)) && n == s.tcbs[h].pc.m)
  {
  }

  lemma KeepsMutexes(s: State, e: Event)
    requires Accounts(s) && Enabled(s, e)
    ensures Step(s, e).mutexes.Keys == s.mutexes.Keys
  {
    hide CountsOk, HoldersOk, IsHighestReady, InsertPos, WaiterValues, HighestWaiting, GiveYields;
    if e.Wait? { CallFacts(s, s.current); }
  }

  lemma WaitOnTop(s: State, next: Task)
    requires Sound(s) && OnTop(s) && Enabled(s, Wait(next))
    ensures ValuesOk(Step(s, Wait(next))) && (OnTop(Step(s, Wait(next))) <==> !Lifts(s, Wait(next)))
  {
    hide CountsOk, HoldersOk, WaitersOk, ValuesOk, IsHighestReady, Step, HolderOnTop;
    var (m, r) := (s.tcbs[s.current].pc.m, Step(s, Wait(next)));
    CallFacts(s, s.current);
    KeepsMutexes(s, Wait(next));
    if s.mutexes[m].available {
      Retries(s, next);
    } else {
      WaitValues(s, next);
      HolderFacts(s, m);
      forall n | n in s.mutexes
        ensures HolderOnTop(r, n) <==> !(Lifts(s, Wait(next)) && n == TcbOf(s, s.mutexes[m].holder.value).pc.m)
      {
        WaitFor(s, next, n);
      }
      if Lifts(s, Wait(next)) { LiftedFor(s, next); }
    }
  }

  lemma LiftedFor(s: State, next: Task)
    requires Accounts(s) && Lifts(s, Wait(next)) && s.current in s.tcbs && s.tcbs[s.current].pc.m in s.mutexes
    ensures var h := s.mutexes[s.tcbs[s.current].pc.m].holder; h.Some? && TcbOf(s, h.value).pc.m in s.mutexes
  {
    hide CountsOk, WaitersOk, HoldersOk;
    var m := s.tcbs[s.current].pc.m;
    HolderFacts(s, m);
    CallFacts(s, s.mutexes[m].holder.value);
  }

  lemma Retries(s: State, next: Task)
    requires ValuesOk(s) && OnTop(s) && s.current in s.tcbs && s.tcbs[s.current].pc.Checked?
    requires s.tcbs[s.current].pc.m in s.mutexes && s.mutexes[s.tcbs[s.current].pc.m].available
    ensures ValuesOk(Step(s, Wait(next))) && OnTop(Step(s, Wait(next))) && !Lifts(s, Wait(next))
  {
    hide ValuesOk, HolderOnTop;
    PassesAll(s, Step(s, Wait(next)));
  }

  /** Priorities and mutexes stay as they are. */
  lemma PassesAll(s: State, r: State)
    requires ValuesOk(s) && OnTop(s) && SamePriorities(s, r) && r.mutexes == s.mutexes
    ensures ValuesOk(r) && OnTop(r)
  {
    hide ValuesOk, HolderOnTop;
    SameValues(s, r);
    SamePrioritiesOf(s, r);
    forall n | n in r.mutexes ensures HolderOnTop(r, n) { StaysOnTop(s, r, n); }
  }

  lemma WaitValues(s: State, next: Task)
    requires Accounts(s) && ValuesOk(s) && Enabled(s, Wait(next))
    requires var m := s.tcbs[s.current].pc.m; m in s.mutexes && !s.mutexes[m].available
    ensures ValuesOk(Step(s, Wait(next)))
  {
    hide CountsOk, HoldersOk, WaitersOk, ValuesOk, IsHighestReady, Step, Inherited, Enqueue;
    var (t, m) := (s.current, s.tcbs[s.current].pc.m);
    HolderFacts(s, m);
    var h := s.mutexes[m].holder.value;
    BlocksShape(s, next);
    InheritedShape(s, m, h);
    InheritedValues(s, m, h);
    EnqueueShape(Inherited(s, m), m, t);
    SameValues(Inherited(s, m), Step(s, Wait(next)));
  }

  // ---- taking ----

  lemma TryOnTop(s: State)
    requires Sound(s) && OnTop(s) && Enabled(s, Try)
    ensures ValuesOk(TryTake(s)) && (OnTop(TryTake(s)) <==> !Overtakes(s, Try))
  {
    hide CountsOk, HoldersOk, WaitersOk, ValuesOk, IsHighestReady, HolderOnTop, TryTake, Overtakes;
    var (m, r) := (s.tcbs[s.current].pc.m, TryTake(s));
    CallFacts(s, s.current);
    TryShape(s);
    SameValues(s, r);
    SamePrioritiesOf(s, r);
    forall n | n in s.mutexes ensures HolderOnTop(r, n) <==> !(Overtakes(s, Try) && n == m) {
      if n == m && s.mutexes[m].available {
        Taken(s, r, m);
      } else {
        StaysOnTop(s, r, n);
        TakesOnly(s, m);
      }
    }
  }

  lemma Taken(s: State, r: State, m: MutexId)
    requires s.current in s.tcbs && s.tcbs[s.current].pc.Top? && s.tcbs[s.current].pc.m == m
    requires m in s.mutexes && s.mutexes[m].available
    requires SamePriorities(s, r) && m in r.mutexes
    requires r.mutexes[m] == s.mutexes[m].(available := false, holder := Some(s.current))
    ensures HolderOnTop(r, m) <==> !Overtakes(s, Try)
  {
    SamePrioritiesOf(s, r);
  }

  lemma TakesOnly(s: State, m: MutexId)
    requires s.current in s.tcbs && s.tcbs[s.current].pc.Top? && s.tcbs[s.current].pc.m == m && m in s.mutexes
    ensures Overtakes(s, Try) ==> s.mutexes[m].available
  {
  }

  // ---- undoing inheritance ----

  /** Whatever the order of the list, its head is a task, and its item value its priority. */
  lemma HeadValue(s: State, m: MutexId)
    requires ValuesOk(s) && m in s.mutexes && forall t :: t in s.mutexes[m].waiters ==> t in s.tcbs
    ensures 0 <= HighestWaiting(s, m) < MAX_PRIORITIES
    ensures s.mutexes[m].waiters != [] ==>
      exists w :: w in s.mutexes[m].waiters && HighestWaiting(s, m) == s.tcbs[w].priority
  {
    var w := s.mutexes[m].waiters;
    if w != [] { assert w[0] in w && HighestWaiting(s, m) == s.tcbs[w[0]].priority; }
  }

  lemma LoweredIs(s: State, m: MutexId)
    requires ValuesOk(s) && m in s.mutexes && HolderOnTop(s, m)
    requires forall t :: t in s.mutexes[m].waiters ==> t in s.tcbs
    requires s.mutexes[m].holder.Some? ==> s.mutexes[m].holder.value in s.tcbs
    ensures var (r, h) := (Lowered(s, m), s.mutexes[m].holder);
      && r.mutexes == s.mutexes && r.current == s.current && r.tcbs.Keys == s.tcbs.Keys && ValuesOk(r)
      && (forall t :: t in s.tcbs && h != Some(t) ==> r.tcbs[t] == s.tcbs[t])
      && (h.Some? ==>
           && r.tcbs[h.value].priority ==
                (if s.tcbs[h.value].held == 1 then FallsTo(s, m, h.value) else s.tcbs[h.value].priority)
           && r.tcbs[h.value].priority <= s.tcbs[h.value].priority)
  {
    hide HighestWaiting, ValuesOk;
    HeadValue(s, m);
    var h := s.mutexes[m].holder;
    if h.Some? {
      FallsNoHigher(s, m, h.value);
      LoweredValues(s, m, h.value);
    }
  }

  lemma FallsNoHigher(s: State, m: MutexId, h: Task)
    requires ValuesOk(s) && m in s.mutexes && HolderOnTop(s, m) && s.mutexes[m].holder == Some(h) && h in s.tcbs
    requires forall t :: t in s.mutexes[m].waiters ==> t in s.tcbs
    ensures s.tcbs[h].base <= FallsTo(s, m, h) <= s.tcbs[h].priority < MAX_PRIORITIES
  {
    HeadValue(s, m);
    if s.mutexes[m].waiters != [] {
      var w :| w in s.mutexes[m].waiters && HighestWaiting(s, m) == s.tcbs[w].priority;
      assert TcbOf(s, w).priority <= TcbOf(s, h).priority;
    }
  }

  lemma LoweredValues(s: State, m: MutexId, h: Task)
    requires ValuesOk(s) && m in s.mutexes && s.mutexes[m].holder == Some(h) && h in s.tcbs
    requires s.tcbs[h].base <= FallsTo(s, m, h) < MAX_PRIORITIES && HighestWaiting(s, m) >= 0
    ensures ValuesOk(Lowered(s, m))
  {
    hide HighestWaiting;
  }

  /** Only the mutex waited for can be undercut: a lowered holder holds nothing else. */
  lemma LoweredFor(s: State, m: MutexId, n: MutexId)
    requires Sound(s) && m in s.mutexes && n in s.mutexes && HolderOnTop(s, m) && HolderOnTop(s, n)
    requires s.current in s.tcbs && s.tcbs[s.current].pc.Undoing? && s.tcbs[s.current].pc.m == m
    ensures HolderOnTop(Lowered(s, m), n) <==> !(Undercuts(s, Undo) && n == m)
  {
    hide CountsOk, HoldersOk, WaitersOk, ValuesOk, Lowered, HighestWaiting, FallsTo;
    ListFacts(s, m);
    ListFacts(s, n);
    HolderFacts(s, m);
    HolderFacts(s, n);
    LoweredIs(s, m);
    var h := s.mutexes[m].holder;
    if n != m && h.Some? && s.tcbs[h.value].held == 1 && s.mutexes[n].holder == h {
      HoldsOne(s, m, n, h.value);
    }
  }

  lemma UndoOnTopExactly(s: State)
    requires Sound(s) && OnTop(s) && Enabled(s, Undo)
    ensures ValuesOk(UndoInheritance(s)) && (OnTop(UndoInheritance(s)) <==> !Undercuts(s, Undo))
  {
    hide CountsOk, HoldersOk, WaitersOk, ValuesOk, HolderOnTop, Lowered, UndoInheritance, IsHighestReady, Undercuts;
    var m := s.tcbs[s.current].pc.m;
    CallFacts(s, s.current);
    ListFacts(s, m);
    HolderFacts(s, m);
    UndoShape(s);
    LoweredIs(s, m);
    var (s1, r) := (Lowered(s, m), UndoInheritance(s));
    SameValues(s1, r);
    SamePrioritiesOf(s1, r);
    forall n | n in s.mutexes ensures HolderOnTop(r, n) <==> !(Undercuts(s, Undo) && n == m) {
      LoweredFor(s, m, n);
      StaysOnTop(s1, r, n);
      StaysOnTop(r, s1, n);
    }
  }

  // ---- the other steps ----

  lemma FreedTop(s: State, m: MutexId, n: MutexId)
    requires Sound(s) && m in s.mutexes && s.mutexes[m].holder == Some(s.current) && s.current in s.tcbs
    requires s.tcbs[s.current].pc == Outside && n in s.mutexes && HolderOnTop(s, n)
    ensures HolderOnTop(Freed(s, m), n)
  {
    hide CountsOk, HoldersOk, WaitersOk, ValuesOk, Freed;
    FreedShape(s, m);
    ListFacts(s, n);
    HolderFacts(s, n);
    if n != m && s.mutexes[n].holder == Some(s.current) && s.tcbs[s.current].held <= 1 {
      HoldsOne(s, m, n, s.current);
    }
  }

  lemma GiveNeverBreaks(s: State, m: MutexId, next: Task)
    requires Sound(s) && OnTop(s) && Enabled(s, Give(m, next))
    ensures ValuesOk(Step(s, Give(m, next))) && OnTop(Step(s, Give(m, next)))
  {
    hide CountsOk, HoldersOk, WaitersOk, ValuesOk, GiveMutex, Freed, Awaken, HolderOnTop, IsHighestReady;
    var (s1, s2, r) := (Freed(s, m), GiveMutex(s, m), Step(s, Give(m, next)));
    FreedShape(s, m);
    FreedAccounts(s, m);
    GiveShape(s, m);
    forall n | n in s.mutexes ensures HolderOnTop(s2, n) {
      FreedTop(s, m, n);
      if s.mutexes[m].waiters != [] { AwakenFor(s1, m, s.mutexes[m].waiters[0], n); }
    }
    if s.mutexes[m].waiters != [] {
      AwakenFor(s1, m, s.mutexes[m].waiters[0], m);
      AwakenShape(s1, m, s.mutexes[m].waiters[0]);
      SameValues(s1, s2);
    }
    PassesAll(s2, r);
  }

  lemma TimeOutNeverBreaks(s: State, t: Task)
    requires Sound(s) && OnTop(s) && Enabled(s, TimeOut(t))
    ensures ValuesOk(Step(s, TimeOut(t))) && OnTop(Step(s, TimeOut(t)))
  {
    hide CountsOk, HoldersOk, WaitersOk, ValuesOk, Awaken, HolderOnTop, IsHighestReady;
    WaiterIsListed(s, t);
    var (m, r) := (s.tcbs[t].pc.m, Step(s, TimeOut(t)));
    AwakenShape(s, m, t);
    AwakenFor(s, m, t, m);
    SameValues(s, r);
    forall n | n in r.mutexes ensures HolderOnTop(r, n) { AwakenFor(s, m, t, n); }
  }

  lemma QuietNeverBreaks(s: State, e: Event)
    requires Sound(s) && OnTop(s) && Enabled(s, e)
    requires e.StartTake? || e.Expire? || e.Recheck? || e.WakeUp? || e.Switch? || e.Sleep?
    ensures ValuesOk(Step(s, e)) && OnTop(Step(s, e))
  {
    hide Accounts, ValuesOk, HolderOnTop, IsHighestReady;
    PassesAll(s, Step(s, e));
  }

  /** From any state in which every holder is on top, in order or not. */
  lemma StepOnTopExactly(s: State, e: Event)
    requires Sound(s) && OnTop(s) && Enabled(s, e) && !e.SetBase?
    ensures Sound(Step(s, e)) && (OnTop(Step(s, e)) <==> !Breaks(s, e))
  {
    hide Accounts, ValuesOk, OnTop, TryTake, UndoInheritance, Enabled, Lifts, Overtakes, Undercuts;
    StepKeepsAccounts(s, e);
    OnlyThese(s, e);
    match e {
      case Wait(next) => WaitOnTop(s, next);
      case Try => TryOnTop(s);
      case Undo => UndoOnTopExactly(s);
      case Give(m, next) => GiveNeverBreaks(s, m, next);
      case TimeOut(t) => TimeOutNeverBreaks(s, t);
      case _ => QuietNeverBreaks(s, e);
    }
  }

  lemma OnlyThese(s: State, e: Event)
    ensures Lifts(s, e) ==> e.Wait?
    ensures Overtakes(s, e) ==> e.Try?
    ensures Undercuts(s, e) ==> e.Undo?
  {
  }


  // ---- runs ----

  lemma {:induction false} NoneBroken(states: seq<State>, events: seq<Event>, k: nat)
    requires Run(states, events) && Sound(states[0]) && OnTop(states[0]) && k < |states|
    requires forall i :: 0 <= i < k ==> !events[i].SetBase? && (OnTop(states[i + 1]) || !Breaks(states[i], events[i]))
    ensures Sound(states[k]) && OnTop(states[k]) && forall i :: 0 <= i < k ==> !Breaks(states[i], events[i])
    decreases k
  {
    hide Sound, OnTop, Step, Enabled, Breaks;
    if k > 0 {
      NoneBroken(states, events, k - 1);
      StepOnTopExactly(states[k - 1], events[k - 1]);
    }
  }

  /** Over any number of mutexes, nested in any way: in a run in which no priority is set
      from outside, no holder is ever below a task on its wait list if and only if no step
      lifts a waiting holder above the holder it waits for, no task takes a mutex ahead of a
      higher waiter, and no holder falls below a waiter behind the head of its list. */
  lemma RunOnTopExactly(states: seq<State>, events: seq<Event>)
    requires Run(states, events) && Sound(states[0]) && OnTop(states[0])
    requires forall i :: 0 <= i < |events| ==> !events[i].SetBase?
    ensures (forall k :: 0 <= k < |states| ==> OnTop(states[k])) <==>
      (forall i :: 0 <= i < |events| ==> !Breaks(states[i], events[i]))
  {
    hide Sound, OnTop, Step, Enabled, Breaks;
    if forall k :: 0 <= k < |states| ==> OnTop(states[k]) {
      NoneBroken(states, events, |events|);
    }
    if forall i :: 0 <= i < |events| ==> !Breaks(states[i], events[i]) {
      forall k | 0 <= k < |states| ensures OnTop(states[k]) { NoneBroken(states, events, k); }
    }
  }

  /** In a safe state only the first of the three is possible. */
  lemma SafeOnlyLifts(s: State, e: Event)
    requires Safe(s) && Enabled(s, e)
    ensures !Overtakes(s, e) && !Undercuts(s, e)
  {
    hide CountsOk, HoldersOk, WaitersOk, ValuesOk, Ordered, HighestWaiting, IsHighestReady, Step;
    if e.Try? || e.Undo? {
      var m := s.tcbs[s.current].pc.m;
      CallFacts(s, s.current);
      ListFacts(s, m);
      HolderFacts(s, m);
      assert SafeFor(s, m);
      HeadHighest(s, m);
    }
  }

  /** So from a safe state a step puts a holder below a task on its wait list exactly if it
      lifts a waiting holder above the holder it waits for. */
  lemma StepBreaksExactly(s: State, e: Event)
    requires Safe(s) && Enabled(s, e) && !e.SetBase?
    ensures (forall n :: n in s.mutexes ==> HolderOnTop(Step(s, e), n)) <==> !Lifts(s, e)
  {
    hide Accounts, ValuesOk, HolderOnTop, Ordered, Guarded, Step, Enabled, Lifts, Overtakes, Undercuts;
    StepOnTopExactly(s, e);
    SafeOnlyLifts(s, e);
    KeepsMutexes(s, e);
  }
}
