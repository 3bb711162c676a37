/** What each critical section does to the call it is part of, to the mutex and to the
    processor. */
module MutexCalls {
  import opened Common
  import opened Rings
  import opened MutexModel
  import opened MutexAccounting
  import opened MutexSafety

  /** Only t's control block may differ. */
  ghost predicate OnlyTask(s: State, r: State, t: Task) {
    t in s.tcbs && r.tcbs.Keys == s.tcbs.Keys && forall u :: u in s.tcbs && u != t ==> r.tcbs[u] == s.tcbs[u]
  }

  /** Only mutex m may differ. */
  ghost predicate OnlyMutex(s: State, r: State, m: MutexId) {
    && m in s.mutexes && r.mutexes.Keys == s.mutexes.Keys
    && forall n :: n in s.mutexes && n != m ==> r.mutexes[n] == s.mutexes[n]
  }

  // ---- taking ----

  /** The call takes the mutex exactly if it is available, and is over then; otherwise it goes
      on to wait if it has block time, and is over if not. */
  lemma TryOutcome(s: State)
    requires Accounts(s) && Enabled(s, Try)
    ensures var (r, t, pc) := (Step(s, Try), s.current, s.tcbs[s.current].pc);
      && OnlyTask(s, r, t) && OnlyMutex(s, r, pc.m) && r.current == t && SamePriorities(s, r)
      && if s.mutexes[pc.m].available then
           && r.mutexes[pc.m] == Mutex(false, Some(t), s.mutexes[pc.m].waiters)
           && r.tcbs[t].pc == Outside && r.tcbs[t].held == s.tcbs[t].held + 1
         else
           && r.mutexes == s.mutexes && r.tcbs[t].held == s.tcbs[t].held
           && r.tcbs[t].pc == if pc.wait then Checked(pc.m, pc.inherited, true) else Outside
  {
    hide CountsOk, HoldersOk, IsHighestReady;
    CallFacts(s, s.current);
  }

  /** A call waits only while its mutex is unavailable. It knows that inheritance occurred
      exactly if the holder's base priority is below its own. */
  lemma WaitOutcome(s: State, next: Task)
    requires Accounts(s) && ValuesOk(s) && Enabled(s, Wait(next))
    ensures var (r, t, pc) := (Step(s, Wait(next)), s.current, s.tcbs[s.current].pc);
      if s.mutexes[pc.m].available then
        && OnlyTask(s, r, t) && r.mutexes == s.mutexes && r.current == t
        && r.tcbs[t].pc == Top(pc.m, pc.inherited, pc.wait)
      else
        var h := s.mutexes[pc.m].holder;
        && OnlyMutex(s, r, pc.m) && r.tcbs.Keys == s.tcbs.Keys && h.Some? && h.value in s.tcbs
        && t in r.mutexes[pc.m].waiters && IsHighestReady(r, r.current)
        && r.tcbs[t].pc == Waiting(pc.m, s.tcbs[h.value].base < s.tcbs[t].priority, pc.wait)
        && r.mutexes[pc.m].holder == h && !r.mutexes[pc.m].available
  {
    hide CountsOk, HoldersOk, ValuesOk, WaiterValues, InsertPos, IsHighestReady;
    CallFacts(s, s.current);
    var m := s.tcbs[s.current].pc.m;
    HolderFacts(s, m);
    if !s.mutexes[m].available {
      SwitchesIn(s, Wait(next));
      OwnBase(s, s.mutexes[m].holder.value);
      OwnBase(s, s.current);
    }
  }

  lemma OwnBase(s: State, t: Task)
    requires ValuesOk(s) && t in s.tcbs
    ensures s.tcbs[t].base <= s.tcbs[t].priority && 0 < s.tcbs[t].value <= MAX_PRIORITIES
  {
  }

  /** After an expired timeout the call tries once more if the mutex is available, undoes the
      inheritance it caused if there was any, and is over otherwise. */
  lemma RecheckOutcome(s: State)
    requires Accounts(s) && Enabled(s, Recheck)
    ensures var (r, t, pc) := (Step(s, Recheck), s.current, s.tcbs[s.current].pc);
      && OnlyTask(s, r, t) && SamePriorities(s, r) && r.mutexes == s.mutexes && r.current == t
      && r.tcbs[t].held == s.tcbs[t].held
      && r.tcbs[t].pc ==
           if s.mutexes[pc.m].available then Top(pc.m, pc.inherited, pc.wait)
           else if pc.inherited then Undoing(pc.m) else Outside
  {
    hide CountsOk, HoldersOk, IsHighestReady;
    CallFacts(s, s.current);
  }

  /** The call is over without the mutex; only the holder's priority changes, and only if it
      holds nothing else: to the higher of its base and the highest still waiting. */
  lemma UndoOutcome(s: State)
    requires Safe(s) && Enabled(s, Undo)
    ensures var (r, t, m) := (Step(s, Undo), s.current, s.tcbs[s.current].pc.m);
      var h := s.mutexes[m].holder;
      && r.mutexes == s.mutexes && r.current == t && r.tcbs.Keys == s.tcbs.Keys && r.tcbs[t].pc == Outside
      && (forall u :: u in s.tcbs ==> r.tcbs[u].held == s.tcbs[u].held && r.tcbs[u].base == s.tcbs[u].base)
      && (forall u :: u in s.tcbs && h != Some(u) ==> r.tcbs[u].priority == s.tcbs[u].priority)
      && (h.Some? && s.tcbs[h.value].held == 1 && h.value !in s.mutexes[m].waiters ==>
           && r.tcbs[h.value].priority >= s.tcbs[h.value].base
           && (forall w :: w in s.mutexes[m].waiters ==> s.tcbs[w].priority <= r.tcbs[h.value].priority)
           && (r.tcbs[h.value].priority == s.tcbs[h.value].base
               || exists w :: w in s.mutexes[m].waiters && r.tcbs[h.value].priority == s.tcbs[w].priority))
      && (h.Some? && s.tcbs[h.value].held != 1 ==> r.tcbs[h.value].priority == s.tcbs[h.value].priority)
  {
    hide CountsOk, HoldersOk, WaitersOk, Ordered, HighestWaiting, IsHighestReady;
    var m := s.tcbs[s.current].pc.m;
    CallFacts(s, s.current);
    ListFacts(s, m);
    HolderFacts(s, m);
    assert SafeFor(s, m);
    HeadHighest(s, m);
    var w := s.mutexes[m].waiters;
    if w != [] { assert w[0] in w; }
  }

  /** A waiting task that times out leaves its list, the others keeping their order, and
      tries again. */
  lemma TimeOutOutcome(s: State, t: Task)
    requires Accounts(s) && Enabled(s, TimeOut(t))
    ensures var (r, pc) := (Step(s, TimeOut(t)), s.tcbs[t].pc);
      && OnlyTask(s, r, t) && OnlyMutex(s, r, pc.m) && SamePriorities(s, r) && r.current == s.current
      && r.mutexes[pc.m] == s.mutexes[pc.m].(waiters := r.mutexes[pc.m].waiters)
      && RemovedAt(s.mutexes[pc.m].waiters, r.mutexes[pc.m].waiters, IndexOf(s.mutexes[pc.m].waiters, t))
      && r.tcbs[t].pc == Top(pc.m, pc.inherited, pc.wait) && r.tcbs[t].held == s.tcbs[t].held
  {
    hide CountsOk, HoldersOk, WaitersOk, Awaken, RemovedAt, IsHighestReady;
    WaiterIsListed(s, t);
    var m := s.tcbs[t].pc.m;
    ListFacts(s, m);
    AwakenShape(s, m, t);
    WithoutAt(s.mutexes[m].waiters, t);
  }

  /** A call begins at the top of its loop without inheritance to its name, and after an expired
      timeout goes on to recheck; task switches, sleep and wakeups touch no call. */
  lemma OtherOutcomes(s: State, e: Event)
    requires Accounts(s) && Enabled(s, e) && (e.StartTake? || e.Expire? || e.Switch? || e.Sleep? || e.WakeUp?)
    ensures var (r, t) := (Step(s, e), s.current);
      && SamePriorities(s, r) && r.mutexes == s.mutexes && t in s.tcbs
      && (forall u :: u in s.tcbs ==> r.tcbs[u].held == s.tcbs[u].held)
      && (forall u :: u in s.tcbs && !(u == t && (e.StartTake? || e.Expire?)) ==> r.tcbs[u].pc == s.tcbs[u].pc)
      && (e.StartTake? ==> r.tcbs[t].pc == Top(e.m, false, e.wait))
      && (e.Expire? ==> r.tcbs[t].pc == Expired(s.tcbs[t].pc.m, s.tcbs[t].pc.inherited, e.wait))
      && (e.Switch? || e.Sleep? ==> IsHighestReady(r, r.current))
      && (e.Sleep? ==> r.tcbs[t].asleep) && (e.WakeUp? ==> !r.tcbs[e.task].asleep)
      && (forall u :: u in s.tcbs && !(e.Sleep? && u == t) && !(e.WakeUp? && u == e.task) ==>
           r.tcbs[u].asleep == s.tcbs[u].asleep)
  {
    hide CountsOk, HoldersOk, WaitersOk, IsHighestReady;
    if e.Switch? || e.Sleep? { SwitchesTo(s, e); }
  }

  lemma SwitchesTo(s: State, e: Event)
    requires Enabled(s, e) && (e.Switch? || e.Sleep?)
    ensures Step(s, e).current == e.next && IsHighestReady(Step(s, e), e.next)
  {
    hide IsHighestReady;
    SwitchesIn(s, e);
  }

  // ---- giving ----

  /** The mutex is free, the giver holds one less, and runs at its base priority with its last
      one. The head of the wait list, if any, is off the list and tries again. */
  lemma GiveOutcome(s: State, m: MutexId, next: Task)
    requires Accounts(s) && ValuesOk(s) && Enabled(s, Give(m, next))
    ensures var (r, t, w) := (Step(s, Give(m, next)), s.current, s.mutexes[m].waiters);
      && r.current == (if GiveYields(s, m) then next else t)
      && OnlyMutex(s, r, m) && r.tcbs.Keys == s.tcbs.Keys && r.tcbs[t].held == s.tcbs[t].held - 1
      && r.tcbs[t].priority == (if s.tcbs[t].held == 1 then s.tcbs[t].base else s.tcbs[t].priority)
      && (forall u :: u in s.tcbs && u != t ==> r.tcbs[u] == s.tcbs[u].(pc := r.tcbs[u].pc))
      && (forall u :: u in s.tcbs && !(w != [] && u == w[0]) ==> r.tcbs[u].pc == s.tcbs[u].pc)
      && r.tcbs[t].asleep == s.tcbs[t].asleep
      && if w == [] then r.mutexes[m] == Mutex(true, None, [])
         else
           && r.mutexes[m] == Mutex(true, None, w[1..]) && w[0] in s.tcbs && s.tcbs[w[0]].pc.Waiting?
           && r.tcbs[w[0]].pc == Top(m, s.tcbs[w[0]].pc.inherited, s.tcbs[w[0]].pc.wait)
  {
    hide CountsOk, HoldersOk, WaitersOk, IsHighestReady, Awaken, Without;
    var w := s.mutexes[m].waiters;
    HolderHolds(s, m);
    ListFacts(s, m);
    if w != [] {
      assert w[0] in w;
      FreedAccounts(s, m);
      FreedShape(s, m);
      AwakenShape(Freed(s, m), m, w[0]);
      WithoutHead(w);
    }
  }

  lemma WithoutHead(w: seq<Task>)
    requires w != [] && Distinct(w)
    ensures Without(w, w[0]) == w[1..]
  {
    WithoutSplit([], w[0], w[1..]);
    assert [] + [w[0]] + w[1..] == w && [] + w[1..] == w[1..];
  }

  /** Which gives ask for a yield: with nobody waiting those that take a priority back; with
      somebody waiting those that wake a task above the giver as it then stands. */
  lemma GiveYieldsExactly(s: State, m: MutexId, next: Task)
    requires Accounts(s) && ValuesOk(s) && Enabled(s, Give(m, next))
    ensures var (r, t, w) := (GiveMutex(s, m), s.current, s.mutexes[m].waiters);
      && r.tcbs.Keys == s.tcbs.Keys
      && if w == [] then GiveYields(s, m) <==> r.tcbs[t].priority != s.tcbs[t].priority
         else w[0] in s.tcbs && (GiveYields(s, m) <==> s.tcbs[w[0]].priority > r.tcbs[t].priority)
  {
    hide CountsOk, HoldersOk, WaitersOk, IsHighestReady, Awaken;
    var w := s.mutexes[m].waiters;
    HolderHolds(s, m);
    ListFacts(s, m);
    if w != [] {
      assert w[0] in w;
      FreedAccounts(s, m);
      FreedShape(s, m);
      AwakenShape(Freed(s, m), m, w[0]);
    }
  }

  /** A give leaves a highest ready task running, except exactly if it drops the yield of a
      giver that has fallen back: somebody waits, the woken task is no higher than the giver
      then is, but some other ready task is. */
  lemma GiveRunsHighest(s: State, m: MutexId, next: Task)
    requires Accounts(s) && ValuesOk(s) && Enabled(s, Give(m, next)) && IsHighestReady(s, s.current)
    ensures var r := Step(s, Give(m, next));
      IsHighestReady(r, r.current) <==>
        !(s.mutexes[m].waiters != [] && !GiveYields(s, m)
          && exists u :: Ready(r, u) && TcbOf(r, u).priority > TcbOf(r, s.current).priority)
  {
    hide CountsOk, HoldersOk, WaitersOk, ValuesOk, GiveMutex, GiveYields;
    GiveYieldsExactly(s, m, next);
    GiveOutcome(s, m, next);
    var r := Step(s, Give(m, next));
    if GiveYields(s, m) {
      SwitchesIn(s, Give(m, next));
    } else if s.mutexes[m].waiters == [] {
      NothingChanged(s, r);
    } else {
      assert Ready(r, s.current);
    }
  }

  lemma NothingChanged(s: State, r: State)
    requires IsHighestReady(s, s.current) && r.current == s.current && r.tcbs.Keys == s.tcbs.Keys
    requires forall u :: u in s.tcbs ==>
      r.tcbs[u].priority == s.tcbs[u].priority && r.tcbs[u].pc == s.tcbs[u].pc && r.tcbs[u].asleep == s.tcbs[u].asleep
    ensures IsHighestReady(r, r.current)
  {
    forall u | Ready(r, u) ensures TcbOf(r, u).priority <= TcbOf(r, r.current).priority {
      assert Ready(s, u);
    }
  }

  // ---- priorities ----

  /** vTaskPrioritySet: an inherited priority stays. The item value mirrors the new priority
      even then. */
  lemma SetBaseOutcome(s: State, t: Task, priority: nat)
    requires t in s.tcbs
    ensures var (r, tcb) := (Step(s, SetBase(t, priority)), s.tcbs[t]);
      && OnlyTask(s, r, t) && r.mutexes == s.mutexes && r.current == s.current && r.tcbs[t].base == priority
      && r.tcbs[t].priority == (if tcb.base == tcb.priority then priority else tcb.priority)
      && r.tcbs[t].value == (if tcb.base == priority then tcb.value else MAX_PRIORITIES - priority)
      && r.tcbs[t].held == tcb.held && r.tcbs[t].pc == tcb.pc && r.tcbs[t].asleep == tcb.asleep
  {
  }
}
