/** The holder of a mutex inherits no more than its waiters justify: once every task that
    timed out has left xQueueSemaphoreTake, the holder runs at the higher of its base
    priority and its highest waiter's. */
module MutexExact {
  import opened Common
  import opened Rings
  import opened MutexModel
  import opened MutexAccounting
  import opened MutexSafety
  import opened MutexOnTop
  import opened MutexLimits

  /** w is in a call that has raised the holder and has not undone that yet. */
  ghost predicate Raises(pc: Pc, m: MutexId) {
    match pc
    case Outside => false
    case Undoing(n) => n == m
    case Top(n, inherited, wait) => n == m && inherited && wait
    case _ => pc.m == m && pc.inherited
  }

  /** w accounts for the priority the holder a runs at. */
  ghost predicate Accountable(s: State, m: MutexId, a: Task, w: Task) {
    w in s.tcbs && w != a && Raises(s.tcbs[w].pc, m) && s.tcbs[w].priority >= TcbOf(s, a).priority
  }

  ghost predicate Justified(s: State, m: MutexId) {
    var h := MutexOf(s, m).holder;
    h.Some? && TcbOf(s, h.value).priority > TcbOf(s, h.value).base ==> exists w :: Accountable(s, m, h.value, w)
  }

  /** A waiter above the holder's base priority knows that inheritance occurred. */
  ghost predicate Marked(s: State, m: MutexId) {
    var h := MutexOf(s, m).holder;
    h.Some? ==>
      forall w :: w in s.tcbs && s.tcbs[w].pc.Waiting? && s.tcbs[w].pc.m == m ==>
        (s.tcbs[w].priority > TcbOf(s, h.value).base ==> s.tcbs[w].pc.inherited)
  }

  /** The holder is not itself in a call; a task only waits if it was asked to. */
  ghost predicate Disciplined(s: State, m: MutexId) {
    && (forall t :: t in s.tcbs && (s.tcbs[t].pc.Waiting? || s.tcbs[t].pc.Checked?) ==> s.tcbs[t].pc.wait)
    && (forall t :: t in s.tcbs && MutexOf(s, m).holder == Some(t) ==> s.tcbs[t].pc == Outside)
  }

  ghost predicate Exact(s: State, m: MutexId) {
    SafeAlone(s, m) && Justified(s, m) && Marked(s, m) && Disciplined(s, m)
  }

  /** No task takes a mutex it already holds. */
  ghost predicate NoSelfTake(s: State, e: Event) {
    e.StartTake? ==> MutexOf(s, e.m).holder != Some(s.current)
  }

  lemma TryExact(s: State, m: MutexId)
    requires Exact(s, m) && Enabled(s, Try)
    ensures Exact(TryTake(s), m)
  {
    hide IsHighestReady, SafeAlone, Step, TryTake;
    OneMutex(s, m);
    AloneFacts(s, m);
    StepSafeAlone(s, m, Try);
    TryIs(s);
    CallFacts(s, s.current);
    if s.mutexes[m].available { TakenExact(s, m); } else { RetriedExact(s, m); }
  }

  lemma TryIs(s: State)
    ensures Step(s, Try) == TryTake(s)
  {
    hide TryTake;
  }

  /** A task that takes the mutex held nothing, so it runs at its base priority. */
  lemma TakenExact(s: State, m: MutexId)
    requires Exact(s, m) && SafeAlone(TryTake(s), m) && m in s.mutexes && s.mutexes[m].available
      && s.mutexes[m].holder == None
    requires s.mutexes.Keys == {m} && CountsOk(s)
    requires s.current in s.tcbs && s.tcbs[s.current].pc.Top? && s.tcbs[s.current].pc.m == m
    ensures Exact(TryTake(s), m)
  {
    hide SafeAlone, CountsOk, TryTake, HeldBy;
    var (t, r) := (s.current, TryTake(s));
    TakenFields(s, m);
    HoldsNothing(s, m, t);
    AloneFacts(r, m);
    TopMarks(r, m, t);
  }

  lemma TakenFields(s: State, m: MutexId)
    requires m in s.mutexes && s.mutexes[m].available && s.current in s.tcbs && s.tcbs[s.current].pc.Top?
      && s.tcbs[s.current].pc.m == m
    ensures var (t, r) := (s.current, TryTake(s));
      && m in r.mutexes && r.mutexes[m].holder == Some(t) && r.tcbs.Keys == s.tcbs.Keys
      && r.tcbs[t] == s.tcbs[t].(pc := Outside, held := s.tcbs[t].held + 1)
      && forall u :: u in s.tcbs && u != t ==> r.tcbs[u] == s.tcbs[u]
  {
  }

  lemma HoldsNothing(s: State, m: MutexId, t: Task)
    requires CountsOk(s) && s.mutexes.Keys == {m} && s.mutexes[m].holder == None && t in s.tcbs
    ensures s.tcbs[t].priority == s.tcbs[t].base
  {
    assert HeldBy(s, t) == {};
  }

  /** Nobody waiting is above a holder that runs at its base priority. */
  lemma TopMarks(s: State, m: MutexId, t: Task)
    requires WaitersOk(s) && SafeFor(s, m) && m in s.mutexes && s.mutexes[m].holder == Some(t) && t in s.tcbs
    requires s.tcbs[t].priority == s.tcbs[t].base
    ensures Marked(s, m)
  {
    hide WaitersOk, Ordered, Guarded;
    forall w | w in s.tcbs && s.tcbs[w].pc.Waiting? && s.tcbs[w].pc.m == m
      ensures s.tcbs[w].priority <= s.tcbs[t].base
    {
      OnListOf(s, w, m);
    }
  }

  lemma RetriedExact(s: State, m: MutexId)
    requires Exact(s, m) && SafeAlone(TryTake(s), m) && m in s.mutexes && !s.mutexes[m].available
    requires s.current in s.tcbs && s.tcbs[s.current].pc.Top? && s.tcbs[s.current].pc.m == m
    ensures Exact(TryTake(s), m)
  {
    hide SafeAlone;
    KeepsAccountable(s, TryTake(s), m);
  }

  /** Priorities and holder stay, and nobody stops being accountable. */
  lemma KeepsAccountable(s: State, r: State, m: MutexId)
    requires Justified(s, m) && MutexOf(r, m).holder == MutexOf(s, m).holder && r.tcbs.Keys == s.tcbs.Keys
    requires forall t :: t in s.tcbs ==> r.tcbs[t].priority == s.tcbs[t].priority && r.tcbs[t].base == s.tcbs[t].base
    requires forall t :: t in s.tcbs && Raises(s.tcbs[t].pc, m) ==> Raises(r.tcbs[t].pc, m)
    ensures Justified(r, m)
  {
    var h := MutexOf(s, m).holder;
    if h.Some? && TcbOf(s, h.value).priority > TcbOf(s, h.value).base {
      var w :| Accountable(s, m, h.value, w);
      assert Accountable(r, m, h.value, w);
    }
  }

  lemma WaitExact(s: State, m: MutexId, next: Task)
    requires Exact(s, m) && Enabled(s, Wait(next))
    ensures Exact(Step(s, Wait(next)), m)
  {
    hide IsHighestReady, Accounts, ValuesOk, Ordered, HolderOnTop, Guarded, Justified, Marked, Disciplined, Step;
    StepSafeAlone(s, m, Wait(next));
    WaitMarked(s, m, next);
    WaitJustified(s, m, next);
  }

  lemma WaitMarked(s: State, m: MutexId, next: Task)
    requires Exact(s, m) && Enabled(s, Wait(next))
    ensures Marked(Step(s, Wait(next)), m) && Disciplined(Step(s, Wait(next)), m)
  {
    hide IsHighestReady, SafeAlone, InsertPos, WaiterValues, Justified, BeginWait, Step;
    OneMutex(s, m);
    AloneFacts(s, m);
    CallFacts(s, s.current);
    if s.mutexes[m].available { RetryMarked(s, m, next); } else { BlockMarked(s, m, next); }
  }

  lemma AloneFacts(s: State, m: MutexId)
    requires SafeAlone(s, m)
    ensures CountsOk(s) && HoldersOk(s) && WaitersOk(s) && ValuesOk(s) && SafeFor(s, m) && m in s.mutexes
  {
    hide CountsOk, HoldersOk, WaitersOk, ValuesOk, SafeFor;
    assert m in s.mutexes;
  }

  lemma RetryMarked(s: State, m: MutexId, next: Task)
    requires Marked(s, m) && Disciplined(s, m) && m in s.mutexes && s.mutexes[m].available
    requires s.current in s.tcbs && s.tcbs[s.current].pc.Checked? && s.tcbs[s.current].pc.m == m
    ensures Marked(Step(s, Wait(next)), m) && Disciplined(Step(s, Wait(next)), m)
  {
    hide BeginWait;
  }

  lemma BlockMarked(s: State, m: MutexId, next: Task)
    requires Marked(s, m) && Disciplined(s, m) && m in s.mutexes && !s.mutexes[m].available && HoldersOk(s)
      && WaitersOk(s)
    requires s.current in s.tcbs && s.tcbs[s.current].pc.Checked? && s.tcbs[s.current].pc.m == m
    ensures Marked(Step(s, Wait(next)), m) && Disciplined(Step(s, Wait(next)), m)
  {
    hide BeginWait, WaitersOk;
    HolderFacts(s, m);
    BeginWaitShape(s);
    BlockHolder(s);
  }

  lemma BlockHolder(s: State)
    requires s.current in s.tcbs && s.tcbs[s.current].pc.Checked? && s.tcbs[s.current].pc.m in s.mutexes
    ensures var m := s.tcbs[s.current].pc.m; MutexOf(BeginWait(s), m).holder == s.mutexes[m].holder
  {
    hide InsertPos, WaiterValues;
  }

  lemma WaitJustified(s: State, m: MutexId, next: Task)
    requires Exact(s, m) && Enabled(s, Wait(next))
    ensures Justified(Step(s, Wait(next)), m)
  {
    hide IsHighestReady, SafeAlone, InsertPos, WaiterValues, Marked, BeginWait, Step;
    OneMutex(s, m);
    AloneFacts(s, m);
    CallFacts(s, s.current);
    if s.mutexes[m].available { RetryJustified(s, m, next); } else { BlockJustified(s, m, next); }
  }

  lemma RetryJustified(s: State, m: MutexId, next: Task)
    requires Justified(s, m) && m in s.mutexes && s.mutexes[m].available && s.mutexes[m].holder == None
    requires s.current in s.tcbs && s.tcbs[s.current].pc.Checked? && s.tcbs[s.current].pc.m == m
    ensures Justified(Step(s, Wait(next)), m)
  {
    hide BeginWait;
  }

  /** The new waiter accounts for a priority it has raised the holder to. */
  lemma BlockJustified(s: State, m: MutexId, next: Task)
    requires Justified(s, m) && Disciplined(s, m) && m in s.mutexes && !s.mutexes[m].available && HoldersOk(s)
    requires s.current in s.tcbs && s.tcbs[s.current].pc.Checked? && s.tcbs[s.current].pc.m == m
    ensures Justified(Step(s, Wait(next)), m)
  {
    hide BeginWait, Step, HoldersOk;
    HolderFacts(s, m);
    BeginWaitShape(s);
    BlockHolder(s);
    BlockStep(s, next);
    RaisedTo(s, m);
    var (h, r) := (s.mutexes[m].holder.value, Step(s, Wait(next)));
    if r.tcbs[h].priority > r.tcbs[h].base {
      if s.tcbs[h].priority < s.tcbs[s.current].priority {
        assert Accountable(r, m, h, s.current);
      } else {
        var w :| Accountable(s, m, h, w);
        assert Accountable(r, m, h, w);
      }
    }
  }

  lemma BlockStep(s: State, next: Task)
    requires s.current in s.tcbs && s.tcbs[s.current].pc.Checked? && !MutexOf(s, s.tcbs[s.current].pc.m).available
    ensures Step(s, Wait(next)) == RunNext(BeginWait(s), next)
  {
    hide BeginWait;
  }

  lemma RaisedTo(s: State, m: MutexId)
    requires s.current in s.tcbs && s.tcbs[s.current].pc.Checked? && s.tcbs[s.current].pc.m == m && m in s.mutexes
    requires s.mutexes[m].holder.Some? && s.mutexes[m].holder.value in s.tcbs
    ensures var (r, h) := (BeginWait(s), s.mutexes[m].holder.value);
      r.tcbs.Keys == s.tcbs.Keys
      && r.tcbs[h].priority ==
           if s.tcbs[h].priority < s.tcbs[s.current].priority then s.tcbs[s.current].priority else s.tcbs[h].priority
  {
    hide InsertPos, WaiterValues;
  }

  lemma UndoExact(s: State, m: MutexId)
    requires Exact(s, m) && Enabled(s, Undo)
    ensures Exact(UndoInheritance(s), m)
  {
    hide IsHighestReady, Ordered, HolderOnTop, Guarded, Justified, Marked, Disciplined, UndoInheritance;
    StepSafeAlone(s, m, Undo);
    UndoMarked(s, m);
    UndoJustified(s, m);
  }

  lemma UndoMarked(s: State, m: MutexId)
    requires Exact(s, m) && Enabled(s, Undo)
    ensures Marked(UndoInheritance(s), m) && Disciplined(UndoInheritance(s), m)
  {
    hide IsHighestReady, Ordered, HolderOnTop, Guarded, Justified, ValuesOk, CountsOk, WaitersOk;
    OneMutex(s, m);
    CallFacts(s, s.current);
    HolderFacts(s, m);
    ListFacts(s, m);
  }

  lemma UndoJustified(s: State, m: MutexId)
    requires Exact(s, m) && Enabled(s, Undo)
    ensures Justified(UndoInheritance(s), m)
  {
    hide IsHighestReady, SafeAlone, UndoInheritance, Lowered, Justified;
    OneMutex(s, m);
    AloneFacts(s, m);
    UndoShape(s);
    CallFacts(s, s.current);
    HolderFacts(s, m);
    ListFacts(s, m);
    if s.mutexes[m].holder.Some? { LoweredJustified(s, m); }
    LeftJustified(s, m);
  }

  lemma LeftJustified(s: State, m: MutexId)
    requires s.current in s.tcbs && s.tcbs[s.current].pc.Undoing? && m in s.mutexes
    requires s.mutexes[m].holder.Some? ==> JustifiedBy(Lowered(s, m), m, s.current)
    ensures Justified(SetPc(Lowered(s, m), s.current, Outside), m)
  {
    hide HighestWaiting;
    var (s1, h) := (Lowered(s, m), s.mutexes[m].holder);
    var r := SetPc(s1, s.current, Outside);
    if h.Some? && TcbOf(r, h.value).priority > TcbOf(r, h.value).base {
      var w :| Accountable(s1, m, h.value, w) && w != s.current;
      assert Accountable(r, m, h.value, w);
    }
  }

  /** Some task other than t accounts for the holder's priority. */
  ghost predicate JustifiedBy(s: State, m: MutexId, t: Task) {
    var h := MutexOf(s, m).holder;
    h.Some? && TcbOf(s, h.value).priority > TcbOf(s, h.value).base ==>
      exists w :: Accountable(s, m, h.value, w) && w != t
  }

  /** Once lowered, the holder is above its base priority only for the sake of the first
      waiter. */
  lemma LoweredJustified(s: State, m: MutexId)
    requires Exact(s, m) && CountsOk(s) && HoldersOk(s) && WaitersOk(s) && ValuesOk(s) && SafeFor(s, m)
      && m in s.mutexes
    requires s.mutexes.Keys == {m} && s.mutexes[m].holder.Some? && s.current in s.tcbs && s.tcbs[s.current].pc.Undoing?
    ensures JustifiedBy(Lowered(s, m), m, s.current)
  {
    hide SafeAlone, CountsOk, HoldersOk, WaitersOk, Ordered, HolderOnTop, Guarded, HighestWaiting, Justified;
    HeldOnce(s, m);
    ListFacts(s, m);
    HeadHighest(s, m);
    var (w, h, r) := (s.mutexes[m].waiters, s.mutexes[m].holder.value, Lowered(s, m));
    var highest := HighestWaiting(s, m);
    assert r.tcbs[h].priority == if s.tcbs[h].base < highest then highest else s.tcbs[h].base;
    if s.tcbs[h].base < highest {
      assert Accountable(r, m, h, w[0]);
    }
  }

  lemma HeldOnce(s: State, m: MutexId)
    requires CountsOk(s) && HoldersOk(s) && s.mutexes.Keys == {m} && s.mutexes[m].holder.Some?
    ensures s.mutexes[m].holder.value in s.tcbs && s.tcbs[s.mutexes[m].holder.value].held == 1
  {
    assert HeldBy(s, s.mutexes[m].holder.value) == {m};
  }

  lemma TimeOutExact(s: State, m: MutexId, t: Task)
    requires Exact(s, m) && Enabled(s, TimeOut(t))
    ensures Exact(Step(s, TimeOut(t)), m)
  {
    hide IsHighestReady, CountsOk, HoldersOk, ValuesOk, Ordered, HolderOnTop, Guarded;
    StepSafeAlone(s, m, TimeOut(t));
    WaiterIsListed(s, t);
    KeepsAccountable(s, Step(s, TimeOut(t)), m);
  }

  lemma GiveExact(s: State, m: MutexId, next: Task)
    requires Exact(s, m) && Enabled(s, Give(m, next))
    ensures Exact(Step(s, Give(m, next)), m)
  {
    hide IsHighestReady, SafeAlone, GiveYields, Step, GiveMutex;
    AloneFacts(s, m);
    StepSafeAlone(s, m, Give(m, next));
    GivenFields(s, m, next);
  }

  /** Nobody holds the mutex, and nobody has come to hold it. */
  lemma GivenFields(s: State, m: MutexId, next: Task)
    requires Disciplined(s, m) && m in s.mutexes && s.current in s.tcbs && s.mutexes[m].holder == Some(s.current)
    ensures var r := Step(s, Give(m, next));
      MutexOf(r, m).holder == None && Justified(r, m) && Marked(r, m) && Disciplined(r, m)
  {
    hide GiveYields, Without;
  }

  lemma QuietExact(s: State, m: MutexId, e: Event)
    requires Exact(s, m) && Enabled(s, e) && NoSelfTake(s, e)
    requires e.StartTake? || e.Expire? || e.Recheck? || e.WakeUp? || e.Switch? || e.Sleep?
    ensures Exact(Step(s, e), m)
  {
    hide Exact, Enabled, Step;
    match e {
      case StartTake(_, _) => StartExact(s, m, e);
      case Expire(_) => StartExact(s, m, e);
      case Recheck => RecheckExact(s, m);
      case _ => TaskExact(s, m, e);
    }
  }

  lemma StartExact(s: State, m: MutexId, e: Event)
    requires Exact(s, m) && Enabled(s, e) && NoSelfTake(s, e) && (e.StartTake? || e.Expire?)
    ensures Exact(Step(s, e), m)
  {
    hide SafeAlone, IsHighestReady;
    OneMutex(s, m);
    StepSafeAlone(s, m, e);
    KeepsAccountable(s, Step(s, e), m);
  }

  lemma RecheckExact(s: State, m: MutexId)
    requires Exact(s, m) && Enabled(s, Recheck)
    ensures Exact(Step(s, Recheck), m)
  {
    hide SafeAlone, IsHighestReady;
    OneMutex(s, m);
    StepSafeAlone(s, m, Recheck);
    if !MutexOf(s, m).available {
      KeepsAccountable(s, Step(s, Recheck), m);
    }
  }

  lemma TaskExact(s: State, m: MutexId, e: Event)
    requires Exact(s, m) && Enabled(s, e) && (e.WakeUp? || e.Switch? || e.Sleep?)
    ensures Exact(Step(s, e), m)
  {
    hide SafeAlone, IsHighestReady, Step, Justified, Marked, Disciplined;
    OneMutex(s, m);
    StepSafeAlone(s, m, e);
    TaskFields(s, e);
    SleepExact(s, Step(s, e), m);
  }

  lemma TaskFields(s: State, e: Event)
    requires Enabled(s, e) && (e.WakeUp? || e.Switch? || e.Sleep?)
    ensures var r := Step(s, e);
      r.mutexes == s.mutexes && r.tcbs.Keys == s.tcbs.Keys && forall t :: t in s.tcbs ==>
        r.tcbs[t] == s.tcbs[t].(asleep := r.tcbs[t].asleep)
  {
    hide IsHighestReady;
  }

  lemma SleepExact(s: State, r: State, m: MutexId)
    requires Justified(s, m) && Marked(s, m) && Disciplined(s, m)
    requires r.mutexes == s.mutexes && r.tcbs.Keys == s.tcbs.Keys && forall t :: t in s.tcbs ==>
      r.tcbs[t] == s.tcbs[t].(asleep := r.tcbs[t].asleep)
    ensures Justified(r, m) && Marked(r, m) && Disciplined(r, m)
  {
    hide Justified;
    KeepsAccountable(s, r, m);
  }

  lemma OneMutex(s: State, m: MutexId)
    requires SafeAlone(s, m)
    ensures s.mutexes.Keys == {m} && (s.mutexes[m].available <==> s.mutexes[m].holder == None)
    ensures forall t :: t in s.tcbs && s.tcbs[t].pc != Outside ==> s.tcbs[t].pc.m == m
  {
    assert m in s.mutexes;
  }

  lemma StepExact(s: State, m: MutexId, e: Event)
    requires Exact(s, m) && Enabled(s, e) && !e.SetBase? && NoSelfTake(s, e)
    ensures Exact(Step(s, e), m)
  {
    hide TryTake, BeginWait, CheckEmpty, UndoInheritance, Awaken, GiveMutex, SafeAlone, Justified, Marked, Disciplined;
    match e {
      case Try => TryExact(s, m);
      case Wait(next) => WaitExact(s, m, next);
      case Undo => UndoExact(s, m);
      case Give(n, next) =>
        OneMutex(s, m);
        assert n == m;
        GiveExact(s, m, next);
      case TimeOut(t) => TimeOutExact(s, m, t);
      case _ => QuietExact(s, m, e);
    }
  }

  /** No task is between being woken by its timeout and leaving its call. */
  ghost predicate Settled(s: State) {
    forall t :: t in s.tcbs ==>
      s.tcbs[t].pc == Outside || s.tcbs[t].pc.Waiting? || (!s.tcbs[t].pc.Undoing? && !s.tcbs[t].pc.inherited)
  }

  /** priority is the higher of base and the priorities of the waiters. */
  ghost predicate IsHighest(s: State, priority: nat, base: nat, waiters: seq<Task>) {
    && base <= priority && (forall t :: t in waiters ==> TcbOf(s, t).priority <= priority)
    && (priority == base || exists t :: t in waiters && TcbOf(s, t).priority == priority)
  }

  lemma SettledIsExact(s: State, m: MutexId)
    requires Exact(s, m) && Settled(s) && m in s.mutexes && s.mutexes[m].holder.Some?
    ensures var h := TcbOf(s, s.mutexes[m].holder.value); IsHighest(s, h.priority, h.base, s.mutexes[m].waiters)
  {
    hide CountsOk, Ordered, Guarded, Marked, Disciplined;
    var h := s.mutexes[m].holder.value;
    if s.tcbs[h].priority > s.tcbs[h].base {
      var w :| Accountable(s, m, h, w);
      assert w in s.mutexes[m].waiters;
      assert TcbOf(s, w).priority == TcbOf(s, h).priority;
    }
  }

  /** In every run over one mutex that no task takes twice and in which no priority is set
      from outside: whenever no timed-out task is still on its way out, the holder runs at
      exactly the higher of its base priority and the highest priority waiting. */
  lemma {:induction false} RunExact(states: seq<State>, events: seq<Event>, m: MutexId, k: nat)
    requires Run(states, events) && Exact(states[0], m) && k < |states|
    requires forall i :: 0 <= i < |events| ==> !events[i].SetBase? && NoSelfTake(states[i], events[i])
    ensures Exact(states[k], m)
    ensures Settled(states[k]) && m in states[k].mutexes && states[k].mutexes[m].holder.Some? ==>
      var h := TcbOf(states[k], states[k].mutexes[m].holder.value);
      IsHighest(states[k], h.priority, h.base, states[k].mutexes[m].waiters)
    decreases k
  {
    hide Exact, Step, Enabled, NoSelfTake, Settled, IsHighest;
    if k > 0 {
      RunExact(states, events, m, k - 1);
      StepExact(states[k - 1], m, events[k - 1]);
    }
    if Settled(states[k]) && m in states[k].mutexes && states[k].mutexes[m].holder.Some? {
      SettledIsExact(states[k], m);
    }
  }

  /** A free mutex among tasks that hold nothing is a start state of all three theorems. */
  lemma FreshExact(s: State, m: MutexId)
    requires s.mutexes == map[m := Mutex(true, None, [])]
    requires forall t :: t in s.tcbs ==>
      var tcb := s.tcbs[t];
      tcb.held == 0 && tcb.priority == tcb.base < MAX_PRIORITIES && tcb.value == MAX_PRIORITIES - tcb.base
        && tcb.pc == Outside
    ensures Exact(s, m)
  {
    hide Safe;
    FreshSafe(s);
  }
}
