/** Over any number of mutexes, nested takes, gives in any order, timeouts and priority
    changes: who holds what is counted right. */
module MutexAccounting {
  import opened Common
  import opened Rings
  import opened MutexModel

  ghost function HeldBy(s: State, t: Task): set<MutexId> {
    set m | m in s.mutexes && s.mutexes[m].holder == Some(t)
  }

  /** uxMutexesHeld counts the mutexes naming the task as holder; a task that holds none
      runs at its base priority. */
  ghost predicate CountsOk(s: State) {
    forall t :: t in s.tcbs ==>
      s.tcbs[t].held == |HeldBy(s, t)| && (s.tcbs[t].held == 0 ==> s.tcbs[t].priority == s.tcbs[t].base)
  }

  /** A mutex is available exactly when it has no holder. */
  ghost predicate HoldersOk(s: State) {
    forall m :: m in s.mutexes ==>
      (s.mutexes[m].available <==> s.mutexes[m].holder == None)
      && (s.mutexes[m].holder.Some? ==> s.mutexes[m].holder.value in s.tcbs)
  }

  /** The wait lists hold exactly the waiting tasks, each once. */
  ghost predicate WaitersOk(s: State) {
    && (forall m :: m in s.mutexes ==> Distinct(s.mutexes[m].waiters))
    && (forall m, t :: m in s.mutexes ==>
         (t in s.mutexes[m].waiters <==> t in s.tcbs && s.tcbs[t].pc.Waiting? && s.tcbs[t].pc.m == m))
    && (forall t :: t in s.tcbs && s.tcbs[t].pc != Outside ==> s.tcbs[t].pc.m in s.mutexes && !s.tcbs[t].asleep)
  }

  ghost predicate Accounts(s: State) {
    CountsOk(s) && HoldersOk(s) && WaitersOk(s)
  }

  /** Only pc, and priorities of tasks that hold something, may have changed. */
  ghost predicate SameHoldings(s: State, r: State) {
    && r.mutexes.Keys == s.mutexes.Keys && r.tcbs.Keys == s.tcbs.Keys
    && (forall m :: m in s.mutexes ==>
         r.mutexes[m].holder == s.mutexes[m].holder && r.mutexes[m].available == s.mutexes[m].available)
    && (forall t :: t in s.tcbs ==> r.tcbs[t].held == s.tcbs[t].held)
    && (forall t :: t in s.tcbs && s.tcbs[t].held == 0 && s.tcbs[t].priority == s.tcbs[t].base ==>
         r.tcbs[t].priority == r.tcbs[t].base)
  }

  lemma SameHoldingsKeep(s: State, r: State)
    requires CountsOk(s) && HoldersOk(s) && SameHoldings(s, r)
    ensures CountsOk(r) && HoldersOk(r)
  {
    forall t | t in r.tcbs
      ensures r.tcbs[t].held == |HeldBy(r, t)|
    {
      assert HeldBy(r, t) == HeldBy(s, t);
    }
  }

  /** A holder holds at least one mutex. */
  lemma HolderHolds(s: State, m: MutexId)
    requires CountsOk(s) && HoldersOk(s) && m in s.mutexes && s.mutexes[m].holder.Some?
    ensures s.mutexes[m].holder.value in s.tcbs && s.tcbs[s.mutexes[m].holder.value].held > 0
  {
    assert m in HeldBy(s, s.mutexes[m].holder.value);
  }

  lemma TakeCounts(s: State, m: MutexId, t: Task, r: State)
    requires CountsOk(s) && HoldersOk(s) && m in s.mutexes && s.mutexes[m].available && t in s.tcbs
    requires r.mutexes.Keys == s.mutexes.Keys && r.mutexes[m].holder == Some(t) && !r.mutexes[m].available
    requires forall n :: n in s.mutexes && n != m ==> r.mutexes[n] == s.mutexes[n]
    requires r.tcbs.Keys == s.tcbs.Keys && r.tcbs[t].held == s.tcbs[t].held + 1
    requires forall u :: u in s.tcbs && u != t ==> r.tcbs[u] == s.tcbs[u]
    ensures CountsOk(r) && HoldersOk(r)
  {
    hide HeldBy;
    forall u | u in r.tcbs
      ensures r.tcbs[u].held == |HeldBy(r, u)|
    {
      TakeHeld(s, m, t, r, u);
    }
  }

  lemma TakeHeld(s: State, m: MutexId, t: Task, r: State, u: Task)
    requires m in s.mutexes && s.mutexes[m].holder.None?
    requires r.mutexes.Keys == s.mutexes.Keys && r.mutexes[m].holder == Some(t)
    requires forall n :: n in s.mutexes && n != m ==> r.mutexes[n] == s.mutexes[n]
    ensures |HeldBy(r, u)| == |HeldBy(s, u)| + (if u == t then 1 else 0)
  {
    assert HeldBy(r, u) == if u == t then HeldBy(s, u) + {m} else HeldBy(s, u);
  }

  lemma GiveCounts(s: State, m: MutexId, t: Task, r: State)
    requires CountsOk(s) && HoldersOk(s) && m in s.mutexes && s.mutexes[m].holder == Some(t) && t in s.tcbs
    requires r.mutexes.Keys == s.mutexes.Keys && r.mutexes[m].holder == None && r.mutexes[m].available
    requires forall n :: n in s.mutexes && n != m ==> r.mutexes[n] == s.mutexes[n]
    requires r.tcbs.Keys == s.tcbs.Keys && r.tcbs[t].held == s.tcbs[t].held - 1
    requires r.tcbs[t].held == 0 ==> r.tcbs[t].priority == r.tcbs[t].base
    requires forall u :: u in s.tcbs && u != t ==> r.tcbs[u] == s.tcbs[u].(pc := r.tcbs[u].pc)
    ensures CountsOk(r) && HoldersOk(r)
  {
    hide HeldBy;
    forall u | u in r.tcbs
      ensures r.tcbs[u].held == |HeldBy(r, u)|
    {
      GiveHeld(s, m, t, r, u);
    }
  }

  lemma GiveHeld(s: State, m: MutexId, t: Task, r: State, u: Task)
    requires m in s.mutexes && s.mutexes[m].holder == Some(t)
    requires r.mutexes.Keys == s.mutexes.Keys && r.mutexes[m].holder == None
    requires forall n :: n in s.mutexes && n != m ==> r.mutexes[n] == s.mutexes[n]
    ensures |HeldBy(r, u)| == |HeldBy(s, u)| - (if u == t then 1 else 0)
  {
    assert HeldBy(r, u) == if u == t then HeldBy(s, u) - {m} else HeldBy(s, u);
  }

  // ---- wait lists ----

  lemma AwakenWaiters(s: State, m: MutexId, t: Task)
    requires WaitersOk(s) && m in s.mutexes && t in s.mutexes[m].waiters
    ensures WaitersOk(Awaken(s, m, t))
  {
    hide Distinct, Without;
    var w := s.mutexes[m].waiters;
    WithoutKeeps(w, t);
    var r := Awaken(s, m, t);
    assert r.mutexes[m].waiters == Without(w, t);
  }

  lemma WithoutKeeps(w: seq<Task>, t: Task)
    requires Distinct(w) && t in w
    ensures Distinct(Without(w, t)) && forall u :: u in Without(w, t) <==> u != t && u in w
  {
    RemoveKeepsValid(Ring(w, -1), t);
  }

  lemma EnqueueWaiters(s: State, r: State, m: MutexId, t: Task, pc: Pc, pos: nat)
    requires WaitersOk(s) && m in s.mutexes && t in s.tcbs && !s.tcbs[t].pc.Waiting? && !s.tcbs[t].asleep
    requires pc.Waiting? && pc.m == m && pos <= |s.mutexes[m].waiters|
    requires r.tcbs.Keys == s.tcbs.Keys && r.tcbs[t].pc == pc && !r.tcbs[t].asleep
    requires forall u :: u in s.tcbs && u != t ==> r.tcbs[u].pc == s.tcbs[u].pc && r.tcbs[u].asleep == s.tcbs[u].asleep
    requires var w := s.mutexes[m].waiters;
      r.mutexes == s.mutexes[m := s.mutexes[m].(waiters := w[..pos] + [t] + w[pos..])]
    ensures WaitersOk(r)
  {
    hide Distinct;
    var w := s.mutexes[m].waiters;
    WaitsNowhere(s, t, m);
    Inserted(w, pos, t);
    forall n, u | n in r.mutexes
      ensures u in r.mutexes[n].waiters <==> u in r.tcbs && r.tcbs[u].pc.Waiting? && r.tcbs[u].pc.m == n
    {
      WaitsNowhere(s, t, n);
      if u != t { assert u in s.mutexes[n].waiters <==> u in s.tcbs && s.tcbs[u].pc.Waiting? && s.tcbs[u].pc.m == n; }
    }
  }

  lemma WaitsNowhere(s: State, t: Task, n: MutexId)
    requires WaitersOk(s) && t in s.tcbs && !s.tcbs[t].pc.Waiting? && n in s.mutexes
    ensures t !in s.mutexes[n].waiters && Distinct(s.mutexes[n].waiters)
  {
    hide Distinct;
  }

  lemma Inserted(w: seq<Task>, pos: nat, t: Task)
    requires Distinct(w) && t !in w && pos <= |w|
    ensures var w' := w[..pos] + [t] + w[pos..]; Distinct(w') && forall u :: u in w' <==> u == t || u in w
  {
    InsertAtKeepsValid(Ring(w, -1), pos, t);
  }

  lemma PcWaiters(s: State, r: State)
    requires WaitersOk(s) && r.mutexes.Keys == s.mutexes.Keys && r.tcbs.Keys == s.tcbs.Keys
    requires forall m :: m in s.mutexes ==> r.mutexes[m].waiters == s.mutexes[m].waiters
    requires forall t :: t in s.tcbs ==>
      r.tcbs[t].pc == s.tcbs[t].pc || (!r.tcbs[t].pc.Waiting? && !s.tcbs[t].pc.Waiting?)
    requires forall t :: t in s.tcbs && r.tcbs[t].pc != Outside ==> r.tcbs[t].pc.m in s.mutexes && !r.tcbs[t].asleep
    ensures WaitersOk(r)
  {
  }

  // ---- every step keeps the accounts ----

  lemma TryKeeps(s: State)
    requires Accounts(s) && Enabled(s, Try)
    ensures Accounts(TryTake(s))
  {
    hide CountsOk, HoldersOk, IsHighestReady;
    var t, r := s.current, TryTake(s);
    var m := s.tcbs[t].pc.m;
    if s.mutexes[m].available {
      TakeCounts(s, m, t, r);
    } else {
      SameHoldingsKeep(s, r);
    }
    PcWaiters(s, r);
  }

  lemma WaitKeeps(s: State, next: Task)
    requires Accounts(s) && Enabled(s, Wait(next))
    ensures Accounts(Step(s, Wait(next)))
  {
    hide CountsOk, HoldersOk, IsHighestReady, InsertPos;
    var t, r := s.current, Step(s, Wait(next));
    var pc := s.tcbs[t].pc;
    var mutex := s.mutexes[pc.m];
    if mutex.available {
      SameHoldingsKeep(s, r);
      PcWaiters(s, r);
    } else {
      BeginWaitKeeps(s);
      RunNextKeeps(BeginWait(s), next);
    }
  }

  lemma BeginWaitKeeps(s: State)
    requires Accounts(s) && s.current in s.tcbs && s.tcbs[s.current].pc.Checked? && s.tcbs[s.current].pc.m in s.mutexes
    ensures Accounts(BeginWait(s))
  {
    hide CountsOk, HoldersOk, InsertPos, WaiterValues;
    var (t, r) := (s.current, BeginWait(s));
    var (pc, mutex) := (s.tcbs[t].pc, s.mutexes[s.tcbs[t].pc.m]);
    HolderIsTask(s, pc.m);
    BeginWaitShape(s);
    BeginWaitHoldings(s, r);
    var s1 := SetPc(Inherit(s, mutex.holder), t, Waiting(pc.m, InheritanceOccurred(s, mutex.holder), pc.wait));
    var pos := InsertPos(WaiterValues(s1, pc.m), if TcbOf(s1, t).value < 0 then 0 else TcbOf(s1, t).value);
    EnqueueWaiters(s, r, pc.m, t, s1.tcbs[t].pc, pos);
  }

  lemma HolderIsTask(s: State, m: MutexId)
    requires HoldersOk(s) && m in s.mutexes
    ensures s.mutexes[m].holder.Some? ==> s.mutexes[m].holder.value in s.tcbs
  {
  }

  lemma BeginWaitHoldings(s: State, r: State)
    requires CountsOk(s) && HoldersOk(s) && s.current in s.tcbs && s.tcbs[s.current].pc.Checked?
      && s.tcbs[s.current].pc.m in s.mutexes
    requires r.mutexes == BeginWait(s).mutexes && r.tcbs == BeginWait(s).tcbs
    ensures CountsOk(r) && HoldersOk(r)
  {
    hide CountsOk, InsertPos;
    var m := s.tcbs[s.current].pc.m;
    if s.mutexes[m].holder.Some? {
      HolderHolds(s, m);
    }
    SameHoldingsKeep(s, r);
  }

  lemma EnqueueFrame(s: State, m: MutexId, t: Task)
    ensures Enqueue(s, m, t).tcbs == s.tcbs && Enqueue(s, m, t).current == s.current
  {
  }

  /** BeginWait changes the priority of the holder only, and the pc of the running task. */
  lemma BeginWaitShape(s: State)
    requires s.current in s.tcbs && s.tcbs[s.current].pc.Checked? && s.tcbs[s.current].pc.m in s.mutexes
    requires var h := s.mutexes[s.tcbs[s.current].pc.m].holder; h.Some? ==> h.value in s.tcbs
    ensures var (r, pc) := (BeginWait(s), s.tcbs[s.current].pc);
      var holder := s.mutexes[pc.m].holder;
      && r.tcbs.Keys == s.tcbs.Keys && r.current == s.current
      && (forall u :: u in s.tcbs ==>
        r.tcbs[u] == s.tcbs[u].(priority := r.tcbs[u].priority, value := r.tcbs[u].value, pc := r.tcbs[u].pc))
      && (forall u :: u in s.tcbs && u != s.current ==> r.tcbs[u].pc == s.tcbs[u].pc)
      && (forall u :: u in s.tcbs && holder != Some(u) ==>
        r.tcbs[u].priority == s.tcbs[u].priority && r.tcbs[u].value == s.tcbs[u].value)
      && r.tcbs[s.current].pc == Waiting(pc.m, InheritanceOccurred(s, holder), pc.wait)
  {
    hide InsertPos, WaiterValues, Enqueue;
    EnqueueFrame(SetPc(Inherit(s, MutexOf(s, s.tcbs[s.current].pc.m).holder), s.current,
      Waiting(s.tcbs[s.current].pc.m, InheritanceOccurred(s, MutexOf(s, s.tcbs[s.current].pc.m).holder),
        s.tcbs[s.current].pc.wait)),
      s.tcbs[s.current].pc.m, s.current);
  }

  lemma UndoKeeps(s: State)
    requires Accounts(s) && Enabled(s, Undo)
    ensures Accounts(UndoInheritance(s))
  {
    hide CountsOk, HoldersOk, WaitersOk, IsHighestReady, DisinheritAfterTimeout, HighestWaiting;
    var m := s.tcbs[s.current].pc.m;
    UndoingIn(s);
    var s1 := DisinheritAfterTimeout(s, s.mutexes[m].holder, HighestWaiting(s, m));
    LoweredKeeps(s, m);
    LowerChanges(s, s.mutexes[m].holder, HighestWaiting(s, m));
    LeaveKeeps(s1, s.current);
  }

  lemma UndoingIn(s: State)
    requires WaitersOk(s) && HoldersOk(s) && s.current in s.tcbs && s.tcbs[s.current].pc.Undoing?
    ensures var m := s.tcbs[s.current].pc.m;
      m in s.mutexes && (s.mutexes[m].holder.Some? ==> s.mutexes[m].holder.value in s.tcbs)
  {
    hide Distinct;
  }

  lemma LoweredKeeps(s: State, m: MutexId)
    requires Accounts(s) && m in s.mutexes
    ensures Accounts(DisinheritAfterTimeout(s, s.mutexes[m].holder, HighestWaiting(s, m)))
  {
    hide CountsOk, HoldersOk, WaitersOk, HighestWaiting, DisinheritAfterTimeout;
    HolderIsTask(s, m);
    if s.mutexes[m].holder.Some? {
      HolderHolds(s, m);
    }
    var r := DisinheritAfterTimeout(s, s.mutexes[m].holder, HighestWaiting(s, m));
    LowerChanges(s, s.mutexes[m].holder, HighestWaiting(s, m));
    SameHoldingsKeep(s, r);
    GiveWaiters(s, r);
  }

  /** A task that is not waiting leaves its call. */
  lemma LeaveKeeps(s: State, t: Task)
    requires Accounts(s) && t in s.tcbs && !s.tcbs[t].pc.Waiting?
    ensures Accounts(SetPc(s, t, Outside))
  {
    hide CountsOk, HoldersOk, Distinct;
    SameHoldingsKeep(s, SetPc(s, t, Outside));
    PcWaiters(s, SetPc(s, t, Outside));
  }

  lemma LowerChanges(s: State, holder: Option<Task>, highest: int)
    requires holder.Some? ==> holder.value in s.tcbs
    ensures var r := DisinheritAfterTimeout(s, holder, highest);
      && r.mutexes == s.mutexes && r.current == s.current && r.tcbs.Keys == s.tcbs.Keys
      && (forall t :: t in s.tcbs ==> r.tcbs[t] == s.tcbs[t].(priority := r.tcbs[t].priority, value := r.tcbs[t].value))
      && (forall t :: t in s.tcbs && holder != Some(t) ==> r.tcbs[t] == s.tcbs[t])
  {
  }

  lemma GiveKeeps(s: State, m: MutexId)
    requires Accounts(s) && m in s.mutexes && s.mutexes[m].holder == Some(s.current) && s.current in s.tcbs
    requires !s.tcbs[s.current].pc.Waiting?
    ensures Accounts(GiveMutex(s, m))
  {
    hide CountsOk, HoldersOk, WaitersOk, Awaken;
    HolderHolds(s, m);
    var t := s.current;
    var s1 := Disinherit(s, Some(t));
    var s2 := SetMutex(s1, m, MutexOf(s1, m).(available := true, holder := None));
    GiveCounts(s, m, t, s2);
    GiveWaiters(s, s2);
    if s.mutexes[m].waiters != [] {
      AwakenAccounts(s2, m, s.mutexes[m].waiters[0]);
    }
  }

  lemma GiveWaiters(s: State, r: State)
    requires WaitersOk(s) && r.mutexes.Keys == s.mutexes.Keys && r.tcbs.Keys == s.tcbs.Keys
    requires forall m :: m in s.mutexes ==> r.mutexes[m].waiters == s.mutexes[m].waiters
    requires forall t :: t in s.tcbs ==> r.tcbs[t].pc == s.tcbs[t].pc && r.tcbs[t].asleep == s.tcbs[t].asleep
    ensures WaitersOk(r)
  {
  }

  lemma AwakenAccounts(s: State, m: MutexId, t: Task)
    requires Accounts(s) && m in s.mutexes && t in s.mutexes[m].waiters
    ensures Accounts(Awaken(s, m, t))
  {
    hide CountsOk, HoldersOk;
    AwakenWaiters(s, m, t);
    SameHoldingsKeep(s, Awaken(s, m, t));
  }

  lemma QuietKeeps(s: State, e: Event)
    requires Accounts(s) && Enabled(s, e)
    requires e.StartTake? || e.Expire? || e.Recheck? || e.Switch? || e.Sleep? || e.WakeUp? || e.SetBase?
    ensures Accounts(Step(s, e))
  {
    hide Accounts, Enabled, Step;
    match e {
      case StartTake(_, _) => CallKeeps(s, e);
      case Expire(_) => CallKeeps(s, e);
      case Recheck => RecheckKeeps(s);
      case _ => TaskKeeps(s, e);
    }
  }

  lemma CallKeeps(s: State, e: Event)
    requires Accounts(s) && Enabled(s, e) && (e.StartTake? || e.Expire?)
    ensures Accounts(Step(s, e))
  {
    hide CountsOk, HoldersOk, IsHighestReady;
    SameHoldingsKeep(s, Step(s, e));
    PcWaiters(s, Step(s, e));
  }

  lemma RecheckKeeps(s: State)
    requires Accounts(s) && Enabled(s, Recheck)
    ensures Accounts(Step(s, Recheck))
  {
    hide CountsOk, HoldersOk, WaitersOk, IsHighestReady, CheckEmpty;
    RecheckShape(s);
    SameHoldingsKeep(s, CheckEmpty(s));
    PcWaiters(s, CheckEmpty(s));
  }

  /** A recheck moves the running task's pc and nothing else. */
  lemma RecheckShape(s: State)
    requires WaitersOk(s) && Enabled(s, Recheck)
    ensures var r := CheckEmpty(s);
      && r.mutexes == s.mutexes && r.tcbs.Keys == s.tcbs.Keys
      && (forall t :: t in s.tcbs ==> r.tcbs[t] == s.tcbs[t].(pc := r.tcbs[t].pc))
      && (forall t :: t in s.tcbs && t != s.current ==> r.tcbs[t].pc == s.tcbs[t].pc)
      && !r.tcbs[s.current].pc.Waiting? && !s.tcbs[s.current].pc.Waiting?
      && (forall t :: t in s.tcbs && r.tcbs[t].pc != Outside ==> r.tcbs[t].pc.m in s.mutexes && !r.tcbs[t].asleep)
  {
    hide IsHighestReady, Distinct;
  }

  lemma TaskKeeps(s: State, e: Event)
    requires Accounts(s) && Enabled(s, e) && (e.Switch? || e.Sleep? || e.WakeUp? || e.SetBase?)
    ensures Accounts(Step(s, e))
  {
    hide Accounts, IsHighestReady;
    match e {
      case Switch(next) => RunNextKeeps(s, next);
      case Sleep(next) =>
        TcbKeeps(s, s.current, s.tcbs[s.current].(asleep := true));
        RunNextKeeps(SetTcb(s, s.current, s.tcbs[s.current].(asleep := true)), next);
      case WakeUp(t) => TcbKeeps(s, t, s.tcbs[t].(asleep := false));
      case SetBase(t, priority) =>
        if s.tcbs[t].base != priority { TcbKeeps(s, t, PrioritySet(s, t, priority).tcbs[t]); }
    }
  }

  /** Changing a task's base priority, or whether it sleeps outside any call. */
  lemma TcbKeeps(s: State, t: Task, tcb: Tcb)
    requires Accounts(s) && t in s.tcbs && tcb.held == s.tcbs[t].held && tcb.pc == s.tcbs[t].pc
    requires s.tcbs[t].priority == s.tcbs[t].base ==> tcb.priority == tcb.base
    requires tcb.asleep ==> tcb.pc == Outside || s.tcbs[t].asleep
    ensures Accounts(SetTcb(s, t, tcb))
  {
    hide CountsOk, HoldersOk, Distinct;
    SameHoldingsKeep(s, SetTcb(s, t, tcb));
    PcWaiters(s, SetTcb(s, t, tcb));
  }

  /** Steps change the running task last; the accounts do not depend on it. */
  lemma RunNextKeeps(s: State, next: Task)
    requires Accounts(s)
    ensures Accounts(RunNext(s, next))
  {
    hide IsHighestReady;
    SameHoldingsKeep(s, RunNext(s, next));
  }

  lemma StepKeepsAccounts(s: State, e: Event)
    requires Accounts(s) && Enabled(s, e)
    ensures Accounts(Step(s, e))
  {
    hide Accounts, TryTake, BeginWait, CheckEmpty, UndoInheritance, Awaken, GiveMutex, PrioritySet;
    match e {
      case Try => TryKeeps(s);
      case Wait(next) => WaitKeeps(s, next);
      case Undo => UndoKeeps(s);
      case Give(m, next) => GiveKeeps(s, m); RunNextKeeps(GiveMutex(s, m), next);
      case TimeOut(t) => WaiterIsListed(s, t); AwakenAccounts(s, TcbOf(s, t).pc.m, t);
      case _ => QuietKeeps(s, e);
    }
  }

  lemma WaiterIsListed(s: State, t: Task)
    requires Accounts(s) && TcbOf(s, t).pc.Waiting?
    ensures TcbOf(s, t).pc.m in s.mutexes && t in s.mutexes[TcbOf(s, t).pc.m].waiters
  {
  }

  /** In every state of every run, over any number of mutexes: each task's uxMutexesHeld is
      the number of mutexes naming it holder, a mutex is available exactly when it has no
      holder, and a task holding none runs at its base priority. */
  lemma {:induction false} RunKeepsAccounts(states: seq<State>, events: seq<Event>, k: nat)
    requires Run(states, events) && Accounts(states[0]) && k < |states|
    ensures Accounts(states[k])
    decreases k
  {
    hide Accounts, Step, Enabled;
    if k > 0 {
      RunKeepsAccounts(states, events, k - 1);
      StepKeepsAccounts(states[k - 1], events[k - 1]);
    }
  }
}
