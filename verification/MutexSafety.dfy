/** Any number of mutexes and tasks: a holder is never outranked by a task on its wait
    list, unless a step rewrites the priority of a task that is itself on its way to
    another mutex. With one mutex no such step exists. */
module MutexSafety {
  import opened Common
  import opened Rings
  import opened MutexModel
  import opened MutexAccounting

  /** Item values mirror priorities, and priorities are at least the base priorities. */
  ghost predicate ValuesOk(s: State) {
    forall t :: t in s.tcbs ==>
      s.tcbs[t].value == MAX_PRIORITIES - s.tcbs[t].priority && s.tcbs[t].base <= s.tcbs[t].priority < MAX_PRIORITIES
  }

  /** The wait list is in priority order, but for the holder, should it wait for itself. */
  ghost predicate Ordered(s: State, m: MutexId) {
    InOrder(s, MutexOf(s, m).waiters, MutexOf(s, m).holder)
  }

  ghost predicate InOrder(s: State, w: seq<Task>, h: Option<Task>) {
    forall i, j :: 0 <= i < j < |w| && h != Some(w[i]) && h != Some(w[j]) ==>
      TcbOf(s, w[j]).priority <= TcbOf(s, w[i]).priority
  }

  /** The holder's priority is at least that of every waiting task. */
  ghost predicate HolderOnTop(s: State, m: MutexId) {
    var h := MutexOf(s, m).holder;
    h.Some? ==> forall t :: t in MutexOf(s, m).waiters ==> TcbOf(s, t).priority <= TcbOf(s, h.value).priority
  }

  /** x has been woken for the mutex, outranks every task still waiting, and does not
      outrank the running task. */
  ghost predicate Woken(s: State, m: MutexId, x: Task) {
    && x in s.tcbs && s.tcbs[x].pc.Top? && s.tcbs[x].pc.m == m
    && s.tcbs[x].priority <= TcbOf(s, s.current).priority
    && forall t :: t in MutexOf(s, m).waiters ==> TcbOf(s, t).priority <= s.tcbs[x].priority
  }

  /** Free with tasks waiting. */
  predicate Contested(s: State, m: MutexId) {
    MutexOf(s, m).available && MutexOf(s, m).waiters != []
  }

  /** While the mutex is contested, one woken task guards it against takers of lower
      priority. */
  ghost predicate Guarded(s: State, m: MutexId) {
    Contested(s, m) ==> exists x :: Woken(s, m, x)
  }

  ghost predicate SafeFor(s: State, m: MutexId) {
    Ordered(s, m) && HolderOnTop(s, m) && Guarded(s, m)
  }

  ghost predicate Safe(s: State) {
    Accounts(s) && ValuesOk(s) && forall m :: m in s.mutexes ==> SafeFor(s, m)
  }

  // ---- steps that reach a second mutex ----

  /** The running task, about to wait, raises a holder that waits for another mutex. */
  predicate RaisesWaiter(s: State, e: Event) {
    e.Wait? &&
    var m := RunningFor(s);
    var h := MutexOf(s, m).holder;
    && TcbOf(s, s.current).pc.Checked? && !MutexOf(s, m).available && h.Some?
    && TcbOf(s, h.value).priority < TcbOf(s, s.current).priority
    && TcbOf(s, h.value).pc.Waiting? && TcbOf(s, h.value).pc.m != m
  }

  /** The mutex the running task is in a call for. */
  function RunningFor(s: State): MutexId {
    var pc := TcbOf(s, s.current).pc;
    if pc == Outside then 0 else pc.m
  }

  /** A task whose timeout has expired lowers a holder that waits for, or has been woken
      for, another mutex. */
  predicate LowersCaller(s: State, e: Event) {
    e.Undo? &&
    var m := RunningFor(s);
    var h := MutexOf(s, m).holder;
    && h.Some? && TcbOf(Step(s, e), h.value).priority < TcbOf(s, h.value).priority
    && var pc := TcbOf(s, h.value).pc; (pc.Waiting? || pc.Top?) && pc.m != m
  }

  /** The running task is lowered, by its own give or undo, and runs on while another
      mutex is contested. */
  ghost predicate RunsOnLowered(s: State, e: Event) {
    && (e.Give? || e.Undo?) && !Switches(s, e)
    && TcbOf(Step(s, e), s.current).priority < TcbOf(s, s.current).priority
    && exists n :: n in s.mutexes && n != (if e.Give? then e.m else RunningFor(s)) && Contested(s, n)
  }

  ghost predicate Hazard(s: State, e: Event) {
    RaisesWaiter(s, e) || LowersCaller(s, e) || RunsOnLowered(s, e)
  }

  // ---- facts from the accounts ----

  lemma ListFacts(s: State, m: MutexId)
    requires WaitersOk(s) && m in s.mutexes
    ensures Distinct(s.mutexes[m].waiters)
    ensures forall t :: t in s.mutexes[m].waiters ==> t in s.tcbs && s.tcbs[t].pc.Waiting? && s.tcbs[t].pc.m == m
  {
  }

  lemma HolderFacts(s: State, m: MutexId)
    requires HoldersOk(s) && m in s.mutexes
    ensures s.mutexes[m].available <==> s.mutexes[m].holder == None
    ensures s.mutexes[m].holder.Some? ==> s.mutexes[m].holder.value in s.tcbs
  {
  }

  lemma CallFacts(s: State, t: Task)
    requires WaitersOk(s) && t in s.tcbs && s.tcbs[t].pc != Outside
    ensures s.tcbs[t].pc.m in s.mutexes && !s.tcbs[t].asleep
    ensures !s.tcbs[t].pc.Waiting? ==> t !in s.mutexes[s.tcbs[t].pc.m].waiters
  {
  }

  /** A task that holds no more than one mutex holds no other. */
  lemma HoldsOne(s: State, m: MutexId, n: MutexId, t: Task)
    requires CountsOk(s) && t in s.tcbs && s.tcbs[t].held <= 1
    requires m in s.mutexes && n in s.mutexes && s.mutexes[m].holder == s.mutexes[n].holder == Some(t)
    ensures m == n
  {
    FewerIn({m, n}, HeldBy(s, t));
  }

  lemma {:induction false} FewerIn<T>(a: set<T>, b: set<T>)
    requires a <= b
    ensures |a| <= |b|
  {
    if a != {} {
      var x :| x in a;
      FewerIn(a - {x}, b - {x});
    }
  }

  // ---- a mutex that a step passes by ----

  ghost predicate SamePriorities(s: State, r: State) {
    && r.tcbs.Keys == s.tcbs.Keys
    && forall t :: t in s.tcbs ==>
         r.tcbs[t].priority == s.tcbs[t].priority && r.tcbs[t].value == s.tcbs[t].value
           && r.tcbs[t].base == s.tcbs[t].base
  }

  lemma SameValues(s: State, r: State)
    requires ValuesOk(s) && SamePriorities(s, r)
    ensures ValuesOk(r)
  {
  }

  /** The tasks on the wait list of n keep their priorities, and its holder at least its. */
  ghost predicate PassedBy(s: State, r: State, n: MutexId) {
    && MutexOf(r, n) == MutexOf(s, n)
    && (forall t :: t in MutexOf(s, n).waiters ==> TcbOf(r, t).priority == TcbOf(s, t).priority)
    && (MutexOf(s, n).holder.Some? ==>
      TcbOf(s, MutexOf(s, n).holder.value).priority <= TcbOf(r, MutexOf(s, n).holder.value).priority)
  }

  lemma StaysOnTop(s: State, r: State, n: MutexId)
    requires PassedBy(s, r, n)
    ensures Ordered(s, n) ==> Ordered(r, n)
    ensures HolderOnTop(s, n) ==> HolderOnTop(r, n)
  {
    var w := MutexOf(s, n).waiters;
    assert forall i :: 0 <= i < |w| ==> w[i] in w;
  }

  predicate MayGuard(s: State, n: MutexId, x: Task) {
    && x in s.tcbs && s.tcbs[x].pc.Top? && s.tcbs[x].pc.m == n
    && s.tcbs[x].priority <= TcbOf(s, s.current).priority
  }

  /** No task woken for n is lowered, nor raised above the running task. */
  lemma StaysGuarded(s: State, r: State, n: MutexId)
    requires PassedBy(s, r, n) && Guarded(s, n)
    requires Contested(s, n) ==> forall x :: MayGuard(s, n, x) ==>
      && x in r.tcbs && r.tcbs[x].pc == s.tcbs[x].pc
      && s.tcbs[x].priority <= r.tcbs[x].priority <= TcbOf(r, r.current).priority
    ensures Guarded(r, n)
  {
    if Contested(s, n) {
      var x :| Woken(s, n, x);
      assert Woken(r, n, x);
    }
  }

  /** A step in which only calls move on, none of them from Top. */
  lemma QuietFor(s: State, r: State, n: MutexId)
    requires SafeFor(s, n) && SamePriorities(s, r) && MutexOf(r, n) == MutexOf(s, n) && r.current == s.current
    requires forall t :: t in s.tcbs && s.tcbs[t].pc.Top? && s.tcbs[t].pc.m == n ==> r.tcbs[t].pc == s.tcbs[t].pc
    ensures SafeFor(r, n)
  {
    hide Ordered, HolderOnTop, Guarded, Contested;
    SamePrioritiesOf(s, r);
    StaysOnTop(s, r, n);
    StaysGuarded(s, r, n);
  }

  lemma SamePrioritiesOf(s: State, r: State)
    requires SamePriorities(s, r)
    ensures forall t :: TcbOf(r, t).priority == TcbOf(s, t).priority
  {
  }

  /** A context switch picks a ready task of the highest priority, so guards stay guards. */
  lemma SwitchFor(s: State, n: MutexId, next: Task)
    requires SafeFor(s, n) && IsHighestReady(RunNext(s, next), next)
    requires forall t :: t in s.tcbs && s.tcbs[t].pc.Top? ==> !s.tcbs[t].asleep
    ensures SafeFor(RunNext(s, next), n)
  {
    hide Ordered, HolderOnTop, Contested;
    var r := RunNext(s, next);
    assert forall t :: TcbOf(r, t) == TcbOf(s, t) && Ready(r, t) == Ready(s, t);
    StaysOnTop(s, r, n);
    if Contested(s, n) {
      assert forall t :: t in s.tcbs && s.tcbs[t].pc.Top? ==> Ready(r, t);
    }
    ContestedSame(s, r, n);
    StaysGuarded(s, r, n);
  }

  lemma ContestedSame(s: State, r: State, n: MutexId)
    requires MutexOf(r, n) == MutexOf(s, n)
    ensures Contested(r, n) == Contested(s, n)
  {
  }

  // ---- the wait list ----

  lemma WithoutAt<T>(s: seq<T>, x: T)
    requires Distinct(s) && x in s
    ensures RemovedAt(s, Without(s, x), IndexOf(s, x))
    ensures forall y :: y in Without(s, x) <==> y != x && y in s
  {
    RemoveKeepsValid(Ring(s, -1), x);
  }

  lemma ShorterInOrder(s: State, r: State, w: seq<Task>, k: nat, w': seq<Task>, h: Option<Task>)
    requires InOrder(s, w, h) && RemovedAt(w, w', k)
    requires forall t :: TcbOf(r, t).priority == TcbOf(s, t).priority
    ensures InOrder(r, w', h)
  {
    assert forall i :: 0 <= i < |w'| ==> w'[i] == w[if i < k then i else i + 1];
  }

  /** Awaken takes t off one wait list and changes its pc. */
  lemma AwakenShape(s: State, m: MutexId, t: Task)
    requires WaitersOk(s) && m in s.mutexes && t in s.mutexes[m].waiters
    ensures var r := Awaken(s, m, t);
      && t in s.tcbs && s.tcbs[t].pc.Waiting? && s.tcbs[t].pc.m == m
      && r.current == s.current
        && r.mutexes == s.mutexes[m := s.mutexes[m].(waiters := Without(s.mutexes[m].waiters, t))]
      && r.tcbs == s.tcbs[t := s.tcbs[t].(pc := Top(m, s.tcbs[t].pc.inherited, s.tcbs[t].pc.wait))]
  {
  }

  lemma AwakenFor(s: State, m: MutexId, t: Task, n: MutexId)
    requires WaitersOk(s) && m in s.mutexes && t in s.mutexes[m].waiters && n in s.mutexes
    ensures var r := Awaken(s, m, t);
      && SamePriorities(s, r)
      && (Ordered(s, n) ==> Ordered(r, n)) && (HolderOnTop(s, n) ==> HolderOnTop(r, n))
        && (Guarded(s, n) ==> Guarded(r, n))
  {
    hide Awaken, WaitersOk, InOrder;
    var r := Awaken(s, m, t);
    AwakenShape(s, m, t);
    ListFacts(s, m);
    WithoutAt(s.mutexes[m].waiters, t);
    SamePrioritiesOf(s, r);
    if n == m {
      if Ordered(s, n) {
        ShorterInOrder(s, r, s.mutexes[m].waiters, IndexOf(s.mutexes[m].waiters, t), r.mutexes[m].waiters,
          s.mutexes[m].holder);
      }
    } else if Ordered(s, n) {
      StaysOnTop(s, r, n);
    }
    if Guarded(s, n) && Contested(r, n) {
      var x :| Woken(s, n, x);
      assert Woken(r, n, x);
    }
  }

  /** The new waiter's place: the scan passes the holder, whose item value cannot exceed
      that of a task it has inherited from. */
  lemma EnqueueOrdered(w: seq<Task>, v: map<Task, nat>, t: Task, h: Option<Task>, values: seq<nat>, pos: nat)
    requires t in v && forall u :: u in w ==> u in v
    requires |values| == |w| && forall i :: 0 <= i < |w| ==> values[i] == v[w[i]]
    requires pos == InsertPos(values, v[t])
    requires forall i, j :: 0 <= i < j < |w| && h != Some(w[i]) && h != Some(w[j]) ==> v[w[i]] <= v[w[j]]
    requires h.Some? && h.value in w ==> v[h.value] <= v[t]
    ensures var w' := w[..pos] + [t] + w[pos..];
      forall i, j :: 0 <= i < j < |w'| && h != Some(w'[i]) && h != Some(w'[j]) ==> v[w'[i]] <= v[w'[j]]
  {
    hide InsertPos;
    var w' := w[..pos] + [t] + w[pos..];
    forall i, j | 0 <= i < j < |w'| && h != Some(w'[i]) && h != Some(w'[j])
      ensures v[w'[i]] <= v[w'[j]]
    {
      PutAt(w, t, pos, i);
      PutAt(w, t, pos, j);
      if i == pos {
        BehindNew(w, v, t, h, values, pos, j - 1);
      } else if j == pos {
        assert values[i] <= v[t];
      }
    }
  }

  lemma PutAt(w: seq<Task>, t: Task, pos: nat, i: nat)
    requires pos <= |w| && i <= |w|
    ensures (w[..pos] + [t] + w[pos..])[i] == if i < pos then w[i] else if i == pos then t else w[i - 1]
  {
  }

  /** Everything behind the new waiter has a larger value. */
  lemma BehindNew(w: seq<Task>, v: map<Task, nat>, t: Task, h: Option<Task>, values: seq<nat>, pos: nat, j: nat)
    requires t in v && (forall u :: u in w ==> u in v) && pos <= j < |w|
    requires |values| == |w| && forall i :: 0 <= i < |w| ==> values[i] == v[w[i]]
    requires v[t] < values[pos]
    requires forall i, j :: 0 <= i < j < |w| && h != Some(w[i]) && h != Some(w[j]) ==> v[w[i]] <= v[w[j]]
    requires h != Some(w[j]) && (h.Some? && h.value in w ==> v[h.value] <= v[t])
    ensures v[t] <= v[w[j]]
  {
    assert w[pos] in w;
  }

  // ---- taking ----

  lemma TryShape(s: State)
    requires s.current in s.tcbs && s.tcbs[s.current].pc.Top? && s.tcbs[s.current].pc.m in s.mutexes
    ensures var (r, t, m) := (TryTake(s), s.current, s.tcbs[s.current].pc.m);
      && SamePriorities(s, r) && r.current == t && !r.tcbs[t].pc.Top?
      && (forall u :: u in s.tcbs && u != t ==> r.tcbs[u] == s.tcbs[u])
      && r.mutexes ==
           if s.mutexes[m].available then s.mutexes[m := s.mutexes[m].(available := false, holder := Some(t))]
           else s.mutexes
  {
  }

  /** A barging task may take the mutex ahead of the woken one, but only by outranking it. */
  lemma TakenOnTop(s: State, r: State, m: MutexId)
    requires SafeFor(s, m) && m in s.mutexes && s.mutexes[m].available && s.mutexes[m].holder == None
    requires SamePriorities(s, r) && m in r.mutexes
      && r.mutexes[m] == s.mutexes[m].(available := false, holder := Some(s.current))
    ensures SafeFor(r, m)
  {
    SamePrioritiesOf(s, r);
    if s.mutexes[m].waiters != [] {
      var x :| Woken(s, m, x);
      assert forall t :: t in s.mutexes[m].waiters ==> TcbOf(s, t).priority <= TcbOf(s, s.current).priority;
    }
  }

  lemma TrySafe(s: State)
    requires Safe(s) && Enabled(s, Try)
    ensures Safe(TryTake(s))
  {
    hide CountsOk, HoldersOk, WaitersOk, IsHighestReady, SafeFor, ValuesOk, TryTake;
    TryKeeps(s);
    var (m, r) := (s.tcbs[s.current].pc.m, TryTake(s));
    CallFacts(s, s.current);
    HolderFacts(s, m);
    TryShape(s);
    SameValues(s, r);
    forall n | n in r.mutexes ensures SafeFor(r, n) {
      if n == m && s.mutexes[m].available { TakenOnTop(s, r, m); } else { TryPasses(s, n); }
    }
  }

  lemma TryPasses(s: State, n: MutexId)
    requires SafeFor(s, n) && n in s.mutexes && s.current in s.tcbs && s.tcbs[s.current].pc.Top?
      && s.tcbs[s.current].pc.m in s.mutexes
    requires n == s.tcbs[s.current].pc.m ==> !s.mutexes[n].available
    ensures SafeFor(TryTake(s), n)
  {
    hide Ordered, HolderOnTop, TryTake;
    TryShape(s);
    var r := TryTake(s);
    SamePrioritiesOf(s, r);
    StaysOnTop(s, r, n);
    StaysGuarded(s, r, n);
  }

  // ---- waiting ----

  lemma {:induction false} ClipsNothing(s: State, m: MutexId)
    requires ValuesOk(s) && m in s.mutexes && forall t :: t in s.mutexes[m].waiters ==> t in s.tcbs
    ensures forall i :: 0 <= i < |s.mutexes[m].waiters| ==>
      WaiterValues(s, m)[i] == s.tcbs[s.mutexes[m].waiters[i]].value
  {
  }

  /** The state in which the wait list of m is about to be extended by the running task. */
  function Inherited(s: State, m: MutexId): State {
    var pc := TcbOf(s, s.current).pc;
    if !pc.Checked? then s
    else SetPc(Inherit(s, MutexOf(s, m).holder), s.current,
      Waiting(m, InheritanceOccurred(s, MutexOf(s, m).holder), pc.wait))
  }

  /** Inheriting raises the holder to the running task's priority, if it is below it. */
  lemma InheritedShape(s: State, m: MutexId, h: Task)
    requires s.current in s.tcbs && s.tcbs[s.current].pc.Checked? && m in s.mutexes && s.mutexes[m].holder == Some(h)
      && h in s.tcbs
    ensures var (r, c) := (Inherited(s, m), s.tcbs[s.current].priority);
      && r.mutexes == s.mutexes && r.current == s.current && r.tcbs.Keys == s.tcbs.Keys
      && (forall t :: t in s.tcbs ==>
           r.tcbs[t].base == s.tcbs[t].base && (t != s.current ==> r.tcbs[t].pc == s.tcbs[t].pc))
      && (forall t :: t in s.tcbs && t != h ==>
           r.tcbs[t].priority == s.tcbs[t].priority && r.tcbs[t].value == s.tcbs[t].value)
      && (if s.tcbs[h].priority < c then r.tcbs[h].priority == c && r.tcbs[h].value == MAX_PRIORITIES - c
          else r.tcbs[h].priority == s.tcbs[h].priority && r.tcbs[h].value == s.tcbs[h].value)
      && r.tcbs[s.current].pc.Waiting?
  {
  }

  /** After inheriting, before joining the wait list. */
  lemma InheritedFor(s: State, m: MutexId, h: Task, n: MutexId)
    requires s.current in s.tcbs && s.tcbs[s.current].pc.Checked? && m in s.mutexes && s.mutexes[m].holder == Some(h)
      && h in s.tcbs
    requires n in s.mutexes && SafeFor(s, n) && WaitersOk(s) && HoldersOk(s)
      && (h in s.mutexes[n].waiters ==> n == m || s.tcbs[s.current].priority <= s.tcbs[h].priority)
    ensures SafeFor(Inherited(s, m), n)
  {
    hide Inherited, CountsOk, WaitersOk, Ordered, HolderOnTop;
    InheritedShape(s, m, h);
    var r := Inherited(s, m);
    ListFacts(s, n);
    HolderFacts(s, n);
    if h in s.mutexes[n].waiters && n == m {
      RaisedSelf(s, r, m, h);
    } else {
      StaysOnTop(s, r, n);
      StaysGuarded(s, r, n);
    }
  }

  /** A holder that waits for its own mutex may rise. */
  lemma RaisedSelf(s: State, r: State, m: MutexId, h: Task)
    requires m in s.mutexes && s.mutexes[m].holder == Some(h) && h in s.tcbs && !s.mutexes[m].available
      && r.mutexes == s.mutexes
    requires forall t :: t in s.mutexes[m].waiters ==> t in s.tcbs
    requires r.tcbs.Keys == s.tcbs.Keys && s.tcbs[h].priority <= r.tcbs[h].priority
    requires forall t :: t in s.tcbs && t != h ==> r.tcbs[t].priority == s.tcbs[t].priority
    requires SafeFor(s, m)
    ensures SafeFor(r, m)
  {
    var w := s.mutexes[m].waiters;
    assert forall i :: 0 <= i < |w| ==> w[i] in w;
  }

  lemma InheritedValues(s: State, m: MutexId, h: Task)
    requires s.current in s.tcbs && s.tcbs[s.current].pc.Checked? && m in s.mutexes && s.mutexes[m].holder == Some(h)
      && h in s.tcbs
    requires ValuesOk(s)
    ensures ValuesOk(Inherited(s, m))
  {
    hide Inherited;
    InheritedShape(s, m, h);
  }

  lemma BlocksShape(s: State, next: Task)
    requires s.current in s.tcbs && s.tcbs[s.current].pc.Checked? && !MutexOf(s, s.tcbs[s.current].pc.m).available
    ensures var m := s.tcbs[s.current].pc.m;
      Step(s, Wait(next)) == RunNext(Enqueue(Inherited(s, m), m, s.current), next)
  {
    hide Enqueue, Inherit;
  }

  lemma EnqueueShape(s: State, m: MutexId, t: Task)
    requires ValuesOk(s) && m in s.mutexes && t in s.tcbs
    ensures var pos := InsertPos(WaiterValues(s, m), s.tcbs[t].value); var w := s.mutexes[m].waiters;
      Enqueue(s, m, t) == s.(mutexes := s.mutexes[m := s.mutexes[m].(waiters := w[..pos] + [t] + w[pos..])])
  {
    hide InsertPos, WaiterValues;
  }

  /** A task joins a wait list whose holder it does not outrank. */
  lemma EnqueueFor(s: State, m: MutexId, t: Task, n: MutexId)
    requires ValuesOk(s) && SafeFor(s, n) && m in s.mutexes && n in s.mutexes && t in s.tcbs
    requires !s.mutexes[m].available && s.mutexes[m].holder.Some? && s.mutexes[m].holder.value in s.tcbs
    requires s.tcbs[s.mutexes[m].holder.value].priority >= s.tcbs[t].priority
    requires forall u :: u in s.mutexes[m].waiters ==> u in s.tcbs
    ensures SafeFor(Enqueue(s, m, t), n)
  {
    hide InsertPos, WaiterValues, Enqueue, ValuesOk, Ordered, HolderOnTop;
    EnqueueShape(s, m, t);
    var r := Enqueue(s, m, t);
    if n == m {
      ValuesMirror(s);
      var pos := InsertPos(WaiterValues(s, m), s.tcbs[t].value);
      EnqueuedOrder(s, m, t, pos, r);
      EnqueuedTop(s, m, t, pos, r);
    } else {
      StaysOnTop(s, r, n);
      StaysGuarded(s, r, n);
    }
  }

  lemma EnqueuedOrder(s: State, m: MutexId, t: Task, pos: nat, r: State)
    requires ValuesOk(s) && Ordered(s, m) && m in s.mutexes && t in s.tcbs
    requires forall u :: u in s.mutexes[m].waiters ==> u in s.tcbs
    requires pos == InsertPos(WaiterValues(s, m), s.tcbs[t].value)
    requires var w := s.mutexes[m].waiters;
      r.mutexes == s.mutexes[m := s.mutexes[m].(waiters := w[..pos] + [t] + w[pos..])] && r.tcbs == s.tcbs
    requires s.mutexes[m].holder.Some? && s.mutexes[m].holder.value in s.tcbs
    requires s.tcbs[s.mutexes[m].holder.value].priority >= s.tcbs[t].priority
    ensures Ordered(r, m)
  {
    hide InsertPos, WaiterValues, ValuesOk;
    ClipsNothing(s, m);
    var (w, h) := (s.mutexes[m].waiters, s.mutexes[m].holder);
    var v := ValueMap(s);
    ValuesMirror(s);
    forall i, j | 0 <= i < j < |w| && h != Some(w[i]) && h != Some(w[j])
      ensures v[w[i]] <= v[w[j]]
    {
      assert w[i] in w && w[j] in w && TcbOf(s, w[j]).priority <= TcbOf(s, w[i]).priority;
    }
    EnqueueOrdered(w, v, t, h, WaiterValues(s, m), pos);
    ByValues(s, r, v, w[..pos] + [t] + w[pos..], h);
  }

  function ValueMap(s: State): map<Task, nat> {
    map u | u in s.tcbs :: (if s.tcbs[u].value < 0 then 0 else s.tcbs[u].value) as nat
  }

  /** A smaller item value is a higher priority. */
  lemma ValuesMirror(s: State)
    requires ValuesOk(s)
    ensures ValueMap(s).Keys == s.tcbs.Keys
    ensures forall u :: u in s.tcbs ==> ValueMap(s)[u] == s.tcbs[u].value == MAX_PRIORITIES - s.tcbs[u].priority
  {
  }

  lemma ByValues(s: State, r: State, v: map<Task, nat>, w: seq<Task>, h: Option<Task>)
    requires r.tcbs == s.tcbs && v == ValueMap(s) && ValuesOk(s) && forall u :: u in w ==> u in s.tcbs
    requires forall i, j :: 0 <= i < j < |w| && h != Some(w[i]) && h != Some(w[j]) ==>
      w[i] in v && w[j] in v && v[w[i]] <= v[w[j]]
    ensures InOrder(r, w, h)
  {
    hide ValuesOk, ValueMap;
    ValuesMirror(s);
    assert forall i :: 0 <= i < |w| ==> w[i] in w;
  }

  lemma EnqueuedTop(s: State, m: MutexId, t: Task, pos: nat, r: State)
    requires HolderOnTop(s, m) && m in s.mutexes && t in s.tcbs && pos <= |s.mutexes[m].waiters|
    requires var w := s.mutexes[m].waiters;
      r.mutexes == s.mutexes[m := s.mutexes[m].(waiters := w[..pos] + [t] + w[pos..])] && r.tcbs == s.tcbs
    requires s.mutexes[m].holder.Some? && s.mutexes[m].holder.value in s.tcbs
    requires s.tcbs[s.mutexes[m].holder.value].priority >= s.tcbs[t].priority
    ensures HolderOnTop(r, m)
  {
    var w := s.mutexes[m].waiters;
    assert forall u :: u in w[..pos] + [t] + w[pos..] ==> u == t || u in w;
  }

  /** Inherit, then wait: the holder now outranks the new waiter too. */
  lemma WaitSafe(s: State, next: Task)
    requires Safe(s) && Enabled(s, Wait(next)) && !RaisesWaiter(s, Wait(next))
    ensures Safe(Step(s, Wait(next)))
  {
    hide CountsOk, HoldersOk, WaitersOk, IsHighestReady, SafeFor, ValuesOk, Step;
    WaitKeeps(s, next);
    CallFacts(s, s.current);
    if s.mutexes[s.tcbs[s.current].pc.m].available { WaitRetries(s, next); } else { WaitBlocks(s, next); }
  }

  lemma WaitRetries(s: State, next: Task)
    requires ValuesOk(s) && (forall m :: m in s.mutexes ==> SafeFor(s, m)) && s.current in s.tcbs
      && s.tcbs[s.current].pc.Checked?
    requires s.tcbs[s.current].pc.m in s.mutexes && s.mutexes[s.tcbs[s.current].pc.m].available
    ensures var r := Step(s, Wait(next));
      ValuesOk(r) && r.mutexes == s.mutexes && forall n :: n in r.mutexes ==> SafeFor(r, n)
  {
    hide ValuesOk, SafeFor;
    var r := Step(s, Wait(next));
    SameValues(s, r);
    forall n | n in r.mutexes ensures SafeFor(r, n) { QuietFor(s, r, n); }
  }

  lemma WaitBlocks(s: State, next: Task)
    requires Safe(s) && Enabled(s, Wait(next)) && !RaisesWaiter(s, Wait(next))
    requires s.tcbs[s.current].pc.m in s.mutexes && !s.mutexes[s.tcbs[s.current].pc.m].available
    ensures var r := Step(s, Wait(next));
      ValuesOk(r) && r.mutexes.Keys == s.mutexes.Keys && forall n :: n in r.mutexes ==> SafeFor(r, n)
  {
    hide CountsOk, HoldersOk, WaitersOk, IsHighestReady, SafeFor, ValuesOk, Inherited, Enqueue, Step;
    var (t, m) := (s.current, s.tcbs[s.current].pc.m);
    HolderFacts(s, m);
    var h := s.mutexes[m].holder.value;
    BlocksShape(s, next);
    InheritedShape(s, m, h);
    InheritedValues(s, m, h);
    var s1 := Inherited(s, m);
    EnqueueShape(s1, m, t);
    var s2 := Enqueue(s1, m, t);
    SameValues(s1, s2);
    SameValues(s2, RunNext(s2, next));
    ListFacts(s, m);
    SwitchesIn(s, Wait(next));
    AwakeInCalls(s);
    forall n | n in s.mutexes ensures SafeFor(RunNext(s2, next), n) {
      NotRaised(s, m, h, n, next);
      InheritedFor(s, m, h, n);
      EnqueueFor(s1, m, t, n);
      AwakeAfterwards(s, m, h, s2);
      SwitchFor(s2, n, next);
    }
  }

  lemma NotRaised(s: State, m: MutexId, h: Task, n: MutexId, next: Task)
    requires WaitersOk(s) && n in s.mutexes && s.current in s.tcbs && s.tcbs[s.current].pc.Checked?
      && s.tcbs[s.current].pc.m == m
    requires m in s.mutexes && !s.mutexes[m].available && s.mutexes[m].holder == Some(h) && h in s.tcbs
      && !RaisesWaiter(s, Wait(next))
    ensures h in s.mutexes[n].waiters ==> n == m || s.tcbs[s.current].priority <= s.tcbs[h].priority
  {
    ListFacts(s, n);
  }

  lemma SwitchesIn(s: State, e: Event)
    requires Enabled(s, e) && Switches(s, e)
    ensures IsHighestReady(Step(s, e), e.next)
  {
    hide Step, IsHighestReady;
  }

  lemma AwakeInCalls(s: State)
    requires WaitersOk(s)
    ensures forall t :: t in s.tcbs && s.tcbs[t].pc.Top? ==> !s.tcbs[t].asleep
  {
  }

  lemma AwakeAfterwards(s: State, m: MutexId, h: Task, s2: State)
    requires s.current in s.tcbs && s.tcbs[s.current].pc.Checked? && m in s.mutexes && s.mutexes[m].holder == Some(h)
      && h in s.tcbs
    requires s2.tcbs == Inherited(s, m).tcbs && forall t :: t in s.tcbs && s.tcbs[t].pc.Top? ==> !s.tcbs[t].asleep
    ensures forall t :: t in s2.tcbs && s2.tcbs[t].pc.Top? ==> !s2.tcbs[t].asleep
  {
  }

  // ---- undoing inheritance ----

  /** The state in which a timed-out task has lowered the holder it had raised. */
  function Lowered(s: State, m: MutexId): State {
    DisinheritAfterTimeout(s, MutexOf(s, m).holder, HighestWaiting(s, m))
  }

  lemma HeadHighest(s: State, m: MutexId)
    requires ValuesOk(s) && Ordered(s, m) && m in s.mutexes && forall t :: t in s.mutexes[m].waiters ==> t in s.tcbs
    ensures 0 <= HighestWaiting(s, m) < MAX_PRIORITIES
    ensures var (w, h) := (s.mutexes[m].waiters, s.mutexes[m].holder);
      if w == [] then HighestWaiting(s, m) == 0
      else
        && w[0] in w && w[0] in s.tcbs && HighestWaiting(s, m) == s.tcbs[w[0]].priority
        && (h != Some(w[0]) ==> forall t :: t in w && h != Some(t) ==> s.tcbs[t].priority <= s.tcbs[w[0]].priority)
  {
    var (w, h) := (s.mutexes[m].waiters, s.mutexes[m].holder);
    FirstMember(w);
    if w != [] && h != Some(w[0]) {
      forall t | t in w && h != Some(t) ensures s.tcbs[t].priority <= s.tcbs[w[0]].priority {
        var k := IndexOf(w, t);
        assert k == 0 || TcbOf(s, w[k]).priority <= TcbOf(s, w[0]).priority;
      }
    }
  }

  /** Only the holder is lowered, and not below its base priority or a waiting task. */
  lemma LoweredShape(s: State, m: MutexId)
    requires ValuesOk(s) && Ordered(s, m) && HolderOnTop(s, m) && m in s.mutexes
    requires forall t :: t in s.mutexes[m].waiters ==> t in s.tcbs
    requires s.mutexes[m].holder.Some? ==> s.mutexes[m].holder.value in s.tcbs
    ensures var (r, h) := (Lowered(s, m), s.mutexes[m].holder);
      && r.mutexes == s.mutexes && r.current == s.current && r.tcbs.Keys == s.tcbs.Keys && ValuesOk(r)
      && (forall t :: t in s.tcbs && h != Some(t) ==> r.tcbs[t] == s.tcbs[t])
      && (forall t :: t in s.tcbs ==> r.tcbs[t].priority <= s.tcbs[t].priority && r.tcbs[t].pc == s.tcbs[t].pc)
      && (h.Some? && r.tcbs[h.value].priority < s.tcbs[h.value].priority ==> s.tcbs[h.value].held == 1)
      && (h.Some? ==> forall t :: t in s.mutexes[m].waiters ==> r.tcbs[t].priority <= r.tcbs[h.value].priority)
  {
    hide Ordered, HighestWaiting;
    HeadHighest(s, m);
  }

  /** A lowered holder holds nothing else, so the other holders stay as they are. */
  lemma LoweredOnTop(s: State, m: MutexId, n: MutexId)
    requires Accounts(s) && ValuesOk(s) && m in s.mutexes && n in s.mutexes && Ordered(s, m) && HolderOnTop(s, m)
      && HolderOnTop(s, n)
    ensures HolderOnTop(Lowered(s, m), n)
  {
    hide CountsOk, HoldersOk, WaitersOk, ValuesOk, Ordered, Lowered;
    ListFacts(s, m);
    ListFacts(s, n);
    HolderFacts(s, m);
    HolderFacts(s, n);
    LoweredShape(s, m);
    var (r, h) := (Lowered(s, m), s.mutexes[m].holder);
    if h.Some? && r.tcbs[h.value].priority < s.tcbs[h.value].priority && s.mutexes[n].holder == h {
      HoldsOne(s, m, n, h.value);
    }
  }

  /** And no list that it is not on changes its order. */
  lemma LoweredOrder(s: State, m: MutexId, n: MutexId)
    requires Accounts(s) && ValuesOk(s) && m in s.mutexes && n in s.mutexes && Ordered(s, m) && HolderOnTop(s, m)
      && Ordered(s, n)
    requires var h := s.mutexes[m].holder; h.Some? && h.value in s.mutexes[n].waiters ==>
      n == m || TcbOf(Lowered(s, m), h.value).priority == TcbOf(s, h.value).priority
    ensures Ordered(Lowered(s, m), n)
  {
    hide CountsOk, HoldersOk, WaitersOk, ValuesOk, HolderOnTop, Lowered;
    ListFacts(s, m);
    ListFacts(s, n);
    HolderFacts(s, m);
    LoweredShape(s, m);
    var w := s.mutexes[n].waiters;
    assert forall i :: 0 <= i < |w| ==> w[i] in w;
  }

  lemma UndoShape(s: State)
    requires s.current in s.tcbs && s.tcbs[s.current].pc.Undoing?
    ensures UndoInheritance(s) == SetPc(Lowered(s, s.tcbs[s.current].pc.m), s.current, Outside)
  {
  }

  /** A holder that is lowered after a timeout still outranks every remaining waiter: the
      head of the wait list is the highest of them, unless it is the holder itself. */
  lemma UndoOnTop(s: State)
    requires Safe(s) && Enabled(s, Undo)
    ensures forall n :: n in s.mutexes ==> HolderOnTop(UndoInheritance(s), n)
    ensures UndoInheritance(s).mutexes == s.mutexes && ValuesOk(UndoInheritance(s))
  {
    hide CountsOk, HoldersOk, WaitersOk, ValuesOk, Ordered, HolderOnTop, Guarded, Lowered, UndoInheritance,
      IsHighestReady;
    var m := s.tcbs[s.current].pc.m;
    CallFacts(s, s.current);
    ListFacts(s, m);
    HolderFacts(s, m);
    UndoShape(s);
    LoweredShape(s, m);
    assert SafeFor(s, m);
    var (s1, r) := (Lowered(s, m), UndoInheritance(s));
    SameValues(s1, r);
    SamePrioritiesOf(s1, r);
    forall n | n in s.mutexes ensures HolderOnTop(r, n) {
      assert SafeFor(s, n);
      LoweredOnTop(s, m, n);
      StaysOnTop(s1, r, n);
    }
  }

  lemma UndoSafe(s: State)
    requires Safe(s) && Enabled(s, Undo) && !LowersCaller(s, Undo) && !RunsOnLowered(s, Undo)
    ensures Safe(UndoInheritance(s))
  {
    hide CountsOk, HoldersOk, WaitersOk, ValuesOk, Ordered, HolderOnTop, Guarded, UndoInheritance, IsHighestReady;
    UndoKeeps(s);
    UndoOnTop(s);
    CallFacts(s, s.current);
    forall n | n in s.mutexes ensures SafeFor(UndoInheritance(s), n) {
      assert SafeFor(s, n) && SafeFor(s, s.tcbs[s.current].pc.m);
      UndoOrder(s, n);
      UndoGuard(s, n);
    }
  }

  lemma UndoOrder(s: State, n: MutexId)
    requires Accounts(s) && ValuesOk(s) && Enabled(s, Undo) && !LowersCaller(s, Undo) && n in s.mutexes && Ordered(s, n)
    requires var m := s.tcbs[s.current].pc.m; m in s.mutexes && Ordered(s, m) && HolderOnTop(s, m)
    ensures Ordered(UndoInheritance(s), n)
  {
    hide CountsOk, HoldersOk, ValuesOk, Ordered, HolderOnTop, Lowered, IsHighestReady, UndoInheritance;
    var m := s.tcbs[s.current].pc.m;
    UndoShape(s);
    ListFacts(s, m);
    ListFacts(s, n);
    HolderFacts(s, m);
    LoweredShape(s, m);
    var s1 := Lowered(s, m);
    SamePrioritiesOf(s1, UndoInheritance(s));
    LoweredOrder(s, m, n);
    StaysOnTop(s1, UndoInheritance(s), n);
  }

  lemma UndoGuard(s: State, n: MutexId)
    requires Accounts(s) && ValuesOk(s) && Enabled(s, Undo) && !LowersCaller(s, Undo) && !RunsOnLowered(s, Undo)
      && n in s.mutexes && Guarded(s, n)
    requires var m := s.tcbs[s.current].pc.m; m in s.mutexes && Ordered(s, m) && HolderOnTop(s, m)
    ensures Guarded(UndoInheritance(s), n)
  {
    hide CountsOk, ValuesOk, Ordered, HolderOnTop, Lowered, IsHighestReady, UndoInheritance, WaitersOk;
    var m := s.tcbs[s.current].pc.m;
    UndoShape(s);
    ListFacts(s, m);
    ListFacts(s, n);
    LoweredShape(s, m);
    var (s1, r) := (Lowered(s, m), UndoInheritance(s));
    if Contested(r, n) {
      var x :| Woken(s, n, x);
      assert m == n ==> s.mutexes[m].holder == None;
      assert Woken(r, n, x);
    }
  }

  // ---- giving ----

  /** GiveMutex before the head of the wait list is woken. */
  function Freed(s: State, m: MutexId): State {
    var s1 := Disinherit(s, MutexOf(s, m).holder);
    SetMutex(s1, m, MutexOf(s1, m).(available := true, holder := None))
  }

  lemma FreedShape(s: State, m: MutexId)
    requires ValuesOk(s) && m in s.mutexes && s.mutexes[m].holder == Some(s.current) && s.current in s.tcbs
    ensures var (r, t) := (Freed(s, m), s.current);
      && r.mutexes == s.mutexes[m := Mutex(true, None, s.mutexes[m].waiters)] && r.current == t
        && r.tcbs.Keys == s.tcbs.Keys
      && (forall u :: u in s.tcbs && u != t ==> r.tcbs[u] == s.tcbs[u])
      && r.tcbs[t].pc == s.tcbs[t].pc && r.tcbs[t].asleep == s.tcbs[t].asleep
      && r.tcbs[t].priority <= s.tcbs[t].priority && (s.tcbs[t].held > 1 ==> r.tcbs[t].priority == s.tcbs[t].priority)
      && (r.tcbs[t].priority < s.tcbs[t].priority ==> DisinheritYields(s, Some(t)))
      && ValuesOk(r)
  {
  }

  lemma GiveShape(s: State, m: MutexId)
    ensures GiveMutex(s, m) == if MutexOf(s, m).waiters == [] then Freed(s, m)
      else Awaken(Freed(s, m), m, MutexOf(s, m).waiters[0])
  {
    hide Disinherit, Awaken;
  }

  /** A task that gives its last mutex and falls back to its base priority holds nothing
      else, and waits for nothing. */
  lemma FreedFor(s: State, m: MutexId, n: MutexId)
    requires Accounts(s) && ValuesOk(s) && m in s.mutexes && s.mutexes[m].holder == Some(s.current)
      && s.current in s.tcbs
    requires s.tcbs[s.current].pc == Outside && n in s.mutexes && SafeFor(s, n)
    ensures Ordered(Freed(s, m), n) && HolderOnTop(Freed(s, m), n)
  {
    hide CountsOk, HoldersOk, WaitersOk, ValuesOk, Freed, Guarded;
    FreedShape(s, m);
    ListFacts(s, n);
    HolderFacts(s, n);
    var r := Freed(s, m);
    var w := s.mutexes[n].waiters;
    assert forall i :: 0 <= i < |w| ==> w[i] in w;
    if n != m && s.mutexes[n].holder == Some(s.current) && s.tcbs[s.current].held <= 1 {
      HoldsOne(s, m, n, s.current);
    }
  }

  lemma FreedAccounts(s: State, m: MutexId)
    requires Accounts(s) && m in s.mutexes && s.mutexes[m].holder == Some(s.current) && s.current in s.tcbs
    requires s.tcbs[s.current].pc == Outside
    ensures WaitersOk(Freed(s, m))
  {
    hide CountsOk, HoldersOk, WaitersOk;
    GiveWaiters(s, Freed(s, m));
  }

  lemma GivenFor(s: State, m: MutexId, n: MutexId)
    requires Accounts(s) && ValuesOk(s) && m in s.mutexes && s.mutexes[m].holder == Some(s.current)
      && s.current in s.tcbs
    requires s.tcbs[s.current].pc == Outside && n in s.mutexes && SafeFor(s, n)
    ensures var r := GiveMutex(s, m);
      Ordered(r, n) && HolderOnTop(r, n) && r.mutexes.Keys == s.mutexes.Keys && ValuesOk(r)
  {
    hide CountsOk, HoldersOk, WaitersOk, ValuesOk, Freed, GiveMutex, Guarded, Ordered, HolderOnTop, Awaken;
    FreedShape(s, m);
    FreedFor(s, m, n);
    FreedAccounts(s, m);
    GiveShape(s, m);
    if s.mutexes[m].waiters != [] {
      var (s2, x) := (Freed(s, m), s.mutexes[m].waiters[0]);
      AwakenShape(s2, m, x);
      AwakenFor(s2, m, x, n);
      SameValues(s2, GiveMutex(s, m));
    }
  }

  /** The task woken is the head of the wait list, above all who stay on it. */
  lemma HeadAbove(s: State, m: MutexId)
    requires Accounts(s) && ValuesOk(s) && m in s.mutexes && s.mutexes[m].holder == Some(s.current)
      && s.current in s.tcbs
    requires s.tcbs[s.current].pc == Outside && SafeFor(s, m) && s.mutexes[m].waiters != []
    ensures var (r, x) := (GiveMutex(s, m), s.mutexes[m].waiters[0]);
      && r.current == s.current && x in r.tcbs && r.tcbs[x].pc.Top? && r.tcbs[x].pc.m == m
        && r.tcbs[x].asleep == s.tcbs[x].asleep && m in r.mutexes
      && forall t :: t in r.mutexes[m].waiters ==> TcbOf(r, t).priority <= r.tcbs[x].priority
  {
    hide CountsOk, HoldersOk, WaitersOk, ValuesOk, Freed, GiveMutex, Awaken, HolderOnTop, Guarded;
    var w := s.mutexes[m].waiters;
    FreedShape(s, m);
    FreedAccounts(s, m);
    GiveShape(s, m);
    AwakenShape(Freed(s, m), m, w[0]);
    ListFacts(s, m);
    WithoutAt(w, w[0]);
    FreedFor(s, m, m);
    HeadFirst(Freed(s, m), w, w[0]);
  }

  /** The task woken by a give is the head of the wait list, and guards the free mutex. */
  lemma HeadGuards(s: State, m: MutexId, next: Task)
    requires Safe(s) && Enabled(s, Give(m, next)) && s.mutexes[m].waiters != []
    ensures Woken(Step(s, Give(m, next)), m, s.mutexes[m].waiters[0])
  {
    hide CountsOk, HoldersOk, WaitersOk, ValuesOk, GiveMutex, IsHighestReady, Ordered, HolderOnTop, Guarded;
    var (x, r) := (s.mutexes[m].waiters[0], Step(s, Give(m, next)));
    ListFacts(s, m);
    CallFacts(s, x);
    assert SafeFor(s, m);
    HeadAbove(s, m);
    if GiveYields(s, m) {
      SwitchesIn(s, Give(m, next));
      NextOutranks(r, next, x);
    }
  }

  lemma NextOutranks(r: State, next: Task, x: Task)
    requires IsHighestReady(r, next) && Ready(r, x)
    ensures TcbOf(r, x).priority <= TcbOf(r, next).priority
  {
  }

  lemma HeadFirst(s: State, w: seq<Task>, x: Task)
    requires w != [] && x == w[0] && InOrder(s, w, None)
    ensures forall t :: t in w ==> TcbOf(s, t).priority <= TcbOf(s, x).priority
  {
    forall t | t in w ensures TcbOf(s, t).priority <= TcbOf(s, x).priority {
      var k := IndexOf(w, t);
      assert k == 0 || TcbOf(s, w[k]).priority <= TcbOf(s, w[0]).priority;
    }
  }

  lemma GiveOnTop(s: State, m: MutexId, next: Task)
    requires Safe(s) && Enabled(s, Give(m, next))
    ensures var r := Step(s, Give(m, next));
      && ValuesOk(r) && r.mutexes.Keys == s.mutexes.Keys
      && forall n :: n in s.mutexes ==> Ordered(r, n) && HolderOnTop(r, n)
  {
    hide CountsOk, HoldersOk, WaitersOk, ValuesOk, GiveMutex, Guarded, Ordered, HolderOnTop, IsHighestReady;
    var (s1, r) := (GiveMutex(s, m), Step(s, Give(m, next)));
    assert SafeFor(s, m);
    GivenFor(s, m, m);
    SameValues(s1, r);
    forall n | n in s.mutexes ensures Ordered(r, n) && HolderOnTop(r, n) {
      assert SafeFor(s, n);
      GivenFor(s, m, n);
      StaysOnTop(s1, r, n);
    }
  }

  lemma GiveGuard(s: State, m: MutexId, next: Task, n: MutexId)
    requires Safe(s) && Enabled(s, Give(m, next)) && !RunsOnLowered(s, Give(m, next)) && n in s.mutexes && n != m
    ensures Guarded(Step(s, Give(m, next)), n)
  {
    hide CountsOk, HoldersOk, WaitersOk, ValuesOk, Freed, GiveMutex, Awaken, IsHighestReady, Ordered, HolderOnTop;
    var r := Step(s, Give(m, next));
    FreedShape(s, m);
    FreedAccounts(s, m);
    GiveShape(s, m);
    if s.mutexes[m].waiters != [] { AwakenShape(Freed(s, m), m, s.mutexes[m].waiters[0]); }
    assert SafeFor(s, n);
    if Contested(r, n) {
      var x :| Woken(s, n, x);
      CallFacts(s, x);
      if GiveYields(s, m) {
        SwitchesIn(s, Give(m, next));
        NextOutranks(r, next, x);
      } else {
        assert TcbOf(r, s.current).priority == s.tcbs[s.current].priority;
      }
      GuardPasses(s, m, next, n, x);
    }
  }

  lemma GuardPasses(s: State, m: MutexId, next: Task, n: MutexId, x: Task)
    requires Accounts(s) && ValuesOk(s) && Enabled(s, Give(m, next)) && n in s.mutexes && n != m && Woken(s, n, x)
    requires var r := Step(s, Give(m, next)); TcbOf(r, x).priority <= TcbOf(r, r.current).priority
    ensures Woken(Step(s, Give(m, next)), n, x)
  {
    hide CountsOk, HoldersOk, WaitersOk, ValuesOk, Freed, GiveMutex, Awaken, IsHighestReady, GiveYields;
    FreedShape(s, m);
    FreedAccounts(s, m);
    GiveShape(s, m);
    ListFacts(s, n);
    if s.mutexes[m].waiters != [] { AwakenShape(Freed(s, m), m, s.mutexes[m].waiters[0]); }
  }

  lemma GiveSafe(s: State, m: MutexId, next: Task)
    requires Safe(s) && Enabled(s, Give(m, next)) && !RunsOnLowered(s, Give(m, next))
    ensures Safe(Step(s, Give(m, next)))
  {
    hide Accounts, ValuesOk, Ordered, HolderOnTop, Woken, Step, RunsOnLowered;
    StepKeepsAccounts(s, Give(m, next));
    GiveOnTop(s, m, next);
    var r := Step(s, Give(m, next));
    forall n | n in r.mutexes ensures SafeFor(r, n) {
      if n != m { GiveGuard(s, m, next, n); }
      else if s.mutexes[m].waiters != [] { HeadGuards(s, m, next); }
      else { NobodyWaits(s, m, next); }
    }
  }

  lemma NobodyWaits(s: State, m: MutexId, next: Task)
    requires m in s.mutexes && s.mutexes[m].waiters == []
    ensures !Contested(Step(s, Give(m, next)), m)
  {
  }

  // ---- the other steps ----

  lemma TimeOutSafe(s: State, t: Task)
    requires Safe(s) && Enabled(s, TimeOut(t))
    ensures Safe(Step(s, TimeOut(t)))
  {
    hide CountsOk, HoldersOk, WaitersOk, Awaken, ValuesOk, Ordered, HolderOnTop, Guarded, IsHighestReady;
    StepKeepsAccounts(s, TimeOut(t));
    WaiterIsListed(s, t);
    var (m, r) := (s.tcbs[t].pc.m, Step(s, TimeOut(t)));
    AwakenShape(s, m, t);
    forall n | n in r.mutexes ensures SafeFor(r, n) {
      assert SafeFor(s, n);
      AwakenFor(s, m, t, n);
    }
    AwakenFor(s, m, t, m);
    SameValues(s, r);
  }

  lemma QuietSafe(s: State, e: Event)
    requires Safe(s) && Enabled(s, e) && (e.StartTake? || e.Expire? || e.Recheck? || e.WakeUp?)
    ensures Safe(Step(s, e))
  {
    hide Accounts, IsHighestReady, SafeFor, ValuesOk;
    QuietKeeps(s, e);
    var r := Step(s, e);
    SameValues(s, r);
    forall n | n in r.mutexes ensures SafeFor(r, n) { QuietFor(s, r, n); }
  }

  lemma SwitchSafe(s: State, e: Event)
    requires Safe(s) && Enabled(s, e) && (e.Switch? || e.Sleep?)
    ensures Safe(Step(s, e))
  {
    hide CountsOk, HoldersOk, WaitersOk, SafeFor, ValuesOk, IsHighestReady;
    QuietKeeps(s, e);
    SwitchesIn(s, e);
    AwakeInCalls(s);
    var s1 := if e.Sleep? then SetTcb(s, s.current, s.tcbs[s.current].(asleep := true)) else s;
    var r := Step(s, e);
    SameValues(s, r);
    forall n | n in r.mutexes ensures SafeFor(r, n) {
      QuietFor(s, s1, n);
      SwitchFor(s1, n, e.next);
    }
  }

  // ---- every step and every run ----

  lemma StepSafe(s: State, e: Event)
    requires Safe(s) && Enabled(s, e) && !e.SetBase? && !Hazard(s, e)
    ensures Safe(Step(s, e))
  {
    hide TryTake, BeginWait, CheckEmpty, UndoInheritance, Awaken, GiveMutex, Safe, RaisesWaiter, LowersCaller,
      RunsOnLowered;
    match e {
      case Try => TrySafe(s);
      case Wait(next) => WaitSafe(s, next);
      case Undo => UndoSafe(s);
      case Give(m, next) => GiveSafe(s, m, next);
      case TimeOut(t) => TimeOutSafe(s, t);
      case Switch(_) => SwitchSafe(s, e);
      case Sleep(_) => SwitchSafe(s, e);
      case _ => QuietSafe(s, e);
    }
  }

  /** Over any number of mutexes: no holder is outranked by a task on its wait list in any
      state of a run in which no step rewrites the priority of a task on its way to another
      mutex and no task runs on lowered. */
  lemma {:induction false} RunSafe(states: seq<State>, events: seq<Event>, k: nat)
    requires Run(states, events) && Safe(states[0]) && k < |states|
    requires forall i :: 0 <= i < k ==> !events[i].SetBase? && !Hazard(states[i], events[i])
    ensures Safe(states[k]) && forall m :: m in states[k].mutexes ==> HolderOnTop(states[k], m)
    decreases k
  {
    hide Accounts, ValuesOk, Ordered, HolderOnTop, Guarded, Step, Enabled, Hazard;
    if k > 0 {
      RunSafe(states, events, k - 1);
      StepSafe(states[k - 1], events[k - 1]);
    }
  }

  /** Free mutexes among tasks outside any call are a state from which such runs may start. */
  lemma FreshSafe(s: State)
    requires forall m :: m in s.mutexes ==> s.mutexes[m] == Mutex(true, None, [])
    requires forall t :: t in s.tcbs ==>
      var tcb := s.tcbs[t];
      tcb.held == 0 && tcb.priority == tcb.base < MAX_PRIORITIES && tcb.value == MAX_PRIORITIES - tcb.base
        && tcb.pc == Outside
    ensures Safe(s)
  {
    hide CountsOk, Contested;
    FreshCounts(s);
    forall m | m in s.mutexes ensures SafeFor(s, m) { assert !Contested(s, m) by { FreeUncontested(s, m); } }
  }

  lemma FreshCounts(s: State)
    requires forall m :: m in s.mutexes ==> s.mutexes[m].holder == None
    requires forall t :: t in s.tcbs ==> s.tcbs[t].held == 0 && s.tcbs[t].priority == s.tcbs[t].base
    ensures CountsOk(s)
  {
    forall t | t in s.tcbs
      ensures HeldBy(s, t) == {}
    {
    }
  }

  lemma FreeUncontested(s: State, m: MutexId)
    requires m in s.mutexes && s.mutexes[m].waiters == []
    ensures !Contested(s, m)
  {
  }
}
