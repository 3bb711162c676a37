/** The state of tasks.c and the list moves every scheduler operation is made of. */
module SchedulerState {
  import opened Common
  import opened Rings

  /** The lists a state list item can be on. Delayed(0) and Delayed(1) are the two
      physical delayed lists; Nowhere is a null pvContainer. */
  datatype Place = Ready(priority: nat) | Delayed(which: nat) | Suspended | Termination | Nowhere

  /** wake is the value of xStateListItem, place its container. */
  datatype Tcb = Tcb(priority: nat, base: nat, wake: nat, place: Place)

  ghost predicate IsList(p: Place) {
    match p
    case Ready(n) => n < MAX_PRIORITIES
    case Delayed(k) => k < 2
    case Nowhere => false
    case _ => true
  }

  /** delayed names the list pxDelayedTaskList points at; the other one is the overflow
      list. deadline and interrupts are bookkeeping of the proof: the absolute wake time
      of each task that has ever been delayed, and the tick interrupts taken so far. */
  datatype State = State(
    tcbs: map<Task, Tcb>,
    lists: map<Place, Ring<Task>>,
    delayed: nat,
    pending: seq<Task>,
    onEvent: set<Task>,
    current: Task,
    idle: Task,
    tick: nat,
    nextUnblock: nat,
    suspended: nat,
    pendedTicks: nat,
    yieldPending: bool,
    topReady: nat,
    numTasks: nat,
    overflows: nat,
    deadline: map<Task, nat>,
    interrupts: nat)
  {
    function TcbOf(t: Task): Tcb { if t in tcbs then tcbs[t] else Tcb(0, 0, 0, Nowhere) }

    function ListAt(p: Place): Ring<Task> { if p in lists then lists[p] else Ring([], -1) }

    /** The absolute time at which xTickCount was last 0. */
    function Epoch(): nat { overflows * 0x1_0000_0000 }

    /** Absolute time: ticks processed since start. */
    function Now(): nat { Epoch() + tick }

    function DelayedList(): Place { Delayed(delayed) }

    function OverflowList(): Place { Delayed(if delayed == 0 then 1 else 0) }
  }

  // ---- the invariant ----

  /** Every state list is well formed and holds exactly the tasks that name it as
      their container. */
  ghost predicate Linked(s: State) {
    && s.delayed < 2
    && (forall p :: IsList(p) ==> p in s.lists && s.lists[p].Valid())
    && (forall p, t :: IsList(p) ==> (t in s.lists[p].items <==> t in s.tcbs && s.tcbs[t].place == p))
    && (forall t :: t in s.tcbs ==>
         && s.tcbs[t].priority < MAX_PRIORITIES && s.tcbs[t].base < MAX_PRIORITIES
         && (s.tcbs[t].place == Nowhere || IsList(s.tcbs[t].place)))
  }

  /** Ready lists are indexed by priority, and no ready task is above uxTopReadyPriority. */
  ghost predicate ReadyOk(s: State) {
    && s.topReady < MAX_PRIORITIES
    && forall t :: t in s.tcbs && s.tcbs[t].place.Ready? ==>
         s.tcbs[t].place.priority == s.tcbs[t].priority <= s.topReady
  }

  /** The wake values on list p, in list order. */
  function Wakes(s: State, p: Place): (v: seq<nat>)
    ensures |v| == |s.ListAt(p).items|
    ensures forall i :: 0 <= i < |v| ==> v[i] == s.TcbOf(s.ListAt(p).items[i]).wake
  {
    seq(|s.ListAt(p).items|, i requires 0 <= i < |s.ListAt(p).items| => s.TcbOf(s.ListAt(p).items[i]).wake)
  }

  /** The wake value of a task on the current delayed list is its deadline within this
      epoch of the tick count, on the overflow list within the next one. */
  ghost predicate DeadlinesOk(s: State) {
    && s.tick < TICK_MODULUS
    && (forall t :: t in s.tcbs && s.tcbs[t].place == s.DelayedList() ==>
         t in s.deadline && s.tcbs[t].wake < TICK_MODULUS && s.deadline[t] == s.Epoch() + s.tcbs[t].wake)
    && (forall t :: t in s.tcbs && s.tcbs[t].place == s.OverflowList() ==>
         t in s.deadline && s.tcbs[t].wake < TICK_MODULUS && s.deadline[t] == s.Epoch() + TICK_MODULUS + s.tcbs[t].wake)
  }

  /** xNextTaskUnblockTime never exceeds a wake value on the current delayed list. */
  ghost predicate UnblockOk(s: State) {
    forall t :: t in s.tcbs && s.tcbs[t].place == s.DelayedList() ==> s.nextUnblock <= s.tcbs[t].wake
  }

  ghost predicate TimesOk(s: State) {
    DeadlinesOk(s) && UnblockOk(s)
  }

  /** No delayed task is overdue. */
  ghost predicate NoneDue(s: State) {
    forall t :: t in s.tcbs && s.tcbs[t].place == s.DelayedList() ==> s.tick < s.tcbs[t].wake
  }

  ghost predicate WakeOrder(tcbs: map<Task, Tcb>, items: seq<Task>) {
    && (forall i :: 0 <= i < |items| ==> items[i] in tcbs)
    && (forall i, j :: 0 <= i < j < |items| ==> tcbs[items[i]].wake <= tcbs[items[j]].wake)
  }

  /** Both delayed lists are in wake order. */
  ghost predicate SortedLists(s: State)
    requires Linked(s)
  {
    WakeOrder(s.tcbs, s.lists[Delayed(0)].items) && WakeOrder(s.tcbs, s.lists[Delayed(1)].items)
  }

  /** What holds while one task's state item may be off every list. */
  ghost predicate Core(s: State) {
    Linked(s) && ReadyOk(s) && TimesOk(s) && SortedLists(s)
  }

  /** Tasks on xPendingReadyList are off every event list; the idle task never blocks. */
  ghost predicate EventsOk(s: State) {
    && Distinct(s.pending)
    && (forall t :: t in s.pending ==> t in s.tcbs && t !in s.onEvent && t != s.idle)
    && (forall t :: t in s.onEvent ==> t in s.tcbs && t != s.idle)
  }

  ghost predicate TasksOk(s: State) {
    && (forall t :: t in s.tcbs ==> s.tcbs[t].place != Nowhere)
    && s.numTasks == |s.tcbs|
    && s.current in s.tcbs
    && s.idle in s.tcbs && s.tcbs[s.idle].place.Ready?
  }

  /** What every list operation keeps, whether or not the scheduler is suspended. */
  ghost predicate Base(s: State) {
    Core(s) && NoneDue(s) && EventsOk(s) && TasksOk(s)
  }

  /** The scheduler invariant: nothing is pended unless the scheduler is suspended, and
      every tick interrupt has been processed or is pended. */
  ghost predicate Inv(s: State) {
    && Base(s)
    && (s.suspended == 0 ==> s.pending == [] && s.pendedTicks == 0)
    && s.interrupts == s.Now() + s.pendedTicks
  }

  // ---- list moves ----

  function SetTcb(s: State, t: Task, tcb: Tcb): State {
    s.(tcbs := s.tcbs[t := tcb])
  }

  /** uxListRemove on a state list item. */
  function Unlink(s: State, t: Task): State {
    var p := s.TcbOf(t).place;
    SetTcb(s, t, s.TcbOf(t).(place := Nowhere)).(lists := s.lists[p := s.ListAt(p).Remove(t)])
  }

  /** vListInsert goes by item value, vListInsertEnd by the index. */
  function PositionFor(s: State, t: Task, p: Place): (pos: nat)
    ensures pos <= |s.ListAt(p).items|
  {
    var ring := s.ListAt(p);
    if p.Delayed? then InsertPos(Wakes(s, p), s.TcbOf(t).wake)
    else if 0 <= ring.index < |ring.items| then ring.index else |ring.items|
  }

  /** vListInsert or vListInsertEnd on a state list item that is on no list. */
  function Link(s: State, t: Task, p: Place): State {
    SetTcb(s, t, s.TcbOf(t).(place := p)).(lists := s.lists[p := s.ListAt(p).InsertAt(PositionFor(s, t, p), t)])
  }

  /** prvAddTaskToReadyList. */
  function AddToReadyList(s: State, t: Task): State {
    var p := s.TcbOf(t).priority;
    Link(s.(topReady := if p > s.topReady then p else s.topReady), t, Ready(p))
  }

  function MakeReady(s: State, t: Task): State {
    AddToReadyList(Unlink(s, t), t)
  }

  /** xConstTickCount + xTicksToWait in 32-bit arithmetic. */
  function WakeTime(tick: nat, ticks: nat): nat
  {
    if tick + ticks < TICK_MODULUS then tick + ticks else tick + ticks - TICK_MODULUS
  }

  /** listSET_LIST_ITEM_VALUE on a state item that is on no list, and xNextTaskUnblockTime. */
  function Retime(s: State, t: Task, wake: nat, deadline: nat, unblock: nat): State {
    SetTcb(s, t, s.TcbOf(t).(wake := wake)).(deadline := s.deadline[t := deadline], nextUnblock := unblock)
  }

  /** The timed half of prvAddCurrentTaskToDelayedList, for a task already off its list. */
  function AddToDelayedList(s: State, t: Task, ticks: nat): State {
    var wake := WakeTime(s.tick, ticks);
    if wake < s.tick then
      Link(Retime(s, t, wake, s.Now() + ticks, s.nextUnblock), t, s.OverflowList())
    else
      Link(Retime(s, t, wake, s.Now() + ticks, if wake < s.nextUnblock then wake else s.nextUnblock), t,
        s.DelayedList())
  }

  // ---- each move keeps the invariant ----

  /** Core depends on these fields only. */
  lemma CoreFrame(s: State, r: State)
    requires Core(s) && UnblockOk(r)
    requires r == s.(nextUnblock := r.nextUnblock, onEvent := r.onEvent, pending := r.pending, current := r.current,
      suspended := r.suspended, pendedTicks := r.pendedTicks, yieldPending := r.yieldPending, numTasks := r.numTasks,
      interrupts := r.interrupts, idle := r.idle)
    ensures Core(r)
  {
    hide Linked, ReadyOk, DeadlinesOk, UnblockOk, SortedLists;
    LinkedFrame(s, r);
    DeadlinesFrame(s, r);
  }

  lemma LinkedFrame(s: State, r: State)
    requires Linked(s) && ReadyOk(s) && SortedLists(s)
    requires r.tcbs == s.tcbs && r.lists == s.lists && r.delayed == s.delayed && r.topReady == s.topReady
    ensures Linked(r) && ReadyOk(r) && SortedLists(r)
  {
  }

  lemma DeadlinesFrame(s: State, r: State)
    requires DeadlinesOk(s)
    requires r.tcbs == s.tcbs && r.delayed == s.delayed && r.deadline == s.deadline && r.tick == s.tick
      && r.overflows == s.overflows
    ensures DeadlinesOk(r)
  {
  }

  lemma UnlinkCore(s: State, t: Task)
    requires Core(s) && t in s.tcbs && s.tcbs[t].place != Nowhere
    ensures Core(Unlink(s, t))
  {
    UnlinkLinked(s, t);
    UnlinkOrder(s, t, 0);
    UnlinkOrder(s, t, 1);
  }

  lemma UnlinkLinked(s: State, t: Task)
    requires Core(s) && t in s.tcbs && s.tcbs[t].place != Nowhere
    ensures Linked(Unlink(s, t)) && ReadyOk(Unlink(s, t)) && TimesOk(Unlink(s, t))
  {
    hide Linked, ReadyOk, TimesOk, Unlink;
    UnlinkLists(s, t);
    UnlinkFields(s, t);
  }

  lemma UnlinkLists(s: State, t: Task)
    requires Linked(s) && t in s.tcbs && s.tcbs[t].place != Nowhere
    ensures Linked(Unlink(s, t))
  {
    hide Distinct, Ring.Valid, Ring.Remove;
    RemoveKeepsValid(s.lists[s.tcbs[t].place], t);
  }

  lemma UnlinkFields(s: State, t: Task)
    requires ReadyOk(s) && TimesOk(s)
    ensures ReadyOk(Unlink(s, t)) && TimesOk(Unlink(s, t))
  {
    hide Ring.Remove;
    UnlinkShape(s, t);
  }

  lemma UnlinkShape(s: State, t: Task)
    ensures Unlink(s, t) == s.(tcbs := s.tcbs[t := s.TcbOf(t).(place := Nowhere)], lists := Unlink(s, t).lists)
  {
    hide Ring.Remove;
  }

  lemma UnlinkOrder(s: State, t: Task, k: nat)
    requires Core(s) && t in s.tcbs && s.tcbs[t].place != Nowhere && k < 2
    ensures WakeOrder(Unlink(s, t).tcbs, Unlink(s, t).ListAt(Delayed(k)).items)
  {
    hide ReadyOk, TimesOk;
    var r := Unlink(s, t);
    if s.tcbs[t].place == Delayed(k) {
      WakeOrderRemove(s.tcbs, s.lists[Delayed(k)], t, r.tcbs);
    } else {
      assert r.ListAt(Delayed(k)) == s.ListAt(Delayed(k));
      WakeOrderFrame(s.tcbs, r.tcbs, s.lists[Delayed(k)].items);
    }
  }

  lemma WakeOrderFrame(tcbs: map<Task, Tcb>, tcbs': map<Task, Tcb>, items: seq<Task>)
    requires WakeOrder(tcbs, items) && forall u :: u in tcbs ==> u in tcbs' && tcbs'[u].wake == tcbs[u].wake
    ensures WakeOrder(tcbs', items)
  {
  }

  lemma WakeOrderRemove(tcbs: map<Task, Tcb>, ring: Ring<Task>, t: Task, tcbs': map<Task, Tcb>)
    requires WakeOrder(tcbs, ring.items) && t in ring.items
    requires tcbs.Keys == tcbs'.Keys && forall u :: u in tcbs ==> tcbs'[u].wake == tcbs[u].wake
    ensures WakeOrder(tcbs', ring.Remove(t).items)
  {
    var k := IndexOf(ring.items, t);
    var now := ring.Remove(t).items;
    assert forall i :: 0 <= i < |now| ==> now[i] == ring.items[if i < k then i else i + 1];
  }

  /** t may join list p: what the invariant asks of its item value and priority. */
  ghost predicate Joins(s: State, t: Task, p: Place)
    requires t in s.tcbs
  {
    && IsList(p)
    && (p.Ready? ==> p.priority == s.tcbs[t].priority <= s.topReady)
    && (p.Delayed? ==> t in s.deadline && s.tcbs[t].wake < TICK_MODULUS)
    && (p == s.DelayedList() ==> s.deadline[t] == s.Epoch() + s.tcbs[t].wake && s.nextUnblock <= s.tcbs[t].wake)
    && (p == s.OverflowList() ==> s.deadline[t] == s.Epoch() + TICK_MODULUS + s.tcbs[t].wake)
  }

  lemma LinkCore(s: State, t: Task, p: Place)
    requires Core(s) && t in s.tcbs && s.tcbs[t].place == Nowhere && Joins(s, t, p)
    ensures Core(Link(s, t, p))
  {
    LinkLinked(s, t, p);
    LinkTimes(s, t, p);
    LinkOrder(s, t, p, 0);
    LinkOrder(s, t, p, 1);
  }

  lemma LinkLinked(s: State, t: Task, p: Place)
    requires Core(s) && t in s.tcbs && s.tcbs[t].place == Nowhere && Joins(s, t, p)
    ensures Linked(Link(s, t, p))
  {
    hide PositionFor, Ring.InsertAt, Ring.Valid, Core, Linked, Link;
    LinkedFacts(s, t, p);
    var pos := PositionFor(s, t, p);
    InsertAtKeepsValid(s.lists[p], pos, t);
    LinkedWith(s, t, p, s.lists[p].InsertAt(pos, t), Link(s, t, p));
  }

  lemma LinkedFacts(s: State, t: Task, p: Place)
    requires Core(s) && t in s.tcbs && s.tcbs[t].place == Nowhere && IsList(p)
    ensures Linked(s) && p in s.lists && s.lists[p].Valid() && t !in s.lists[p].items
    ensures var r := Link(s, t, p);
      && r.lists == s.lists[p := s.lists[p].InsertAt(PositionFor(s, t, p), t)]
      && r.tcbs == s.tcbs[t := s.tcbs[t].(place := p)] && r.delayed == s.delayed
  {
    hide PositionFor, Ring.InsertAt, Ring.Valid, ReadyOk, TimesOk, SortedLists;
  }

  lemma LinkedWith(s: State, t: Task, p: Place, ring: Ring<Task>, r: State)
    requires Linked(s) && t in s.tcbs && s.tcbs[t].place == Nowhere && IsList(p)
    requires ring.Valid() && forall u :: u in ring.items <==> u == t || u in s.lists[p].items
    requires r.lists == s.lists[p := ring] && r.tcbs == s.tcbs[t := s.tcbs[t].(place := p)] && r.delayed == s.delayed
    ensures Linked(r)
  {
    hide Ring.Valid;
  }

  lemma LinkTimes(s: State, t: Task, p: Place)
    requires Core(s) && t in s.tcbs && s.tcbs[t].place == Nowhere && Joins(s, t, p)
    ensures ReadyOk(Link(s, t, p)) && TimesOk(Link(s, t, p))
  {
    hide PositionFor, Ring.InsertAt, Linked, SortedLists;
  }

  lemma LinkOrder(s: State, t: Task, p: Place, k: nat)
    requires Core(s) && t in s.tcbs && s.tcbs[t].place == Nowhere && Joins(s, t, p) && k < 2
    ensures WakeOrder(Link(s, t, p).tcbs, Link(s, t, p).ListAt(Delayed(k)).items)
  {
    hide ReadyOk, TimesOk, InsertPos, WakeOrder, Ring.InsertAt, Ring.Valid;
    var r := Link(s, t, p);
    if p == Delayed(k) {
      assert r.ListAt(p) == s.lists[p].InsertAt(InsertPos(Wakes(s, p), s.tcbs[t].wake), t);
      WakeOrderInsert(s.tcbs, s.lists[p], Wakes(s, p), t, r.tcbs);
    } else {
      assert r.ListAt(Delayed(k)) == s.ListAt(Delayed(k));
      WakeOrderFrame(s.tcbs, r.tcbs, s.lists[Delayed(k)].items);
    }
  }

  lemma WakeOrderInsert(tcbs: map<Task, Tcb>, ring: Ring<Task>, wakes: seq<nat>, t: Task, tcbs': map<Task, Tcb>)
    requires WakeOrder(tcbs, ring.items) && t in tcbs && t !in ring.items
    requires |wakes| == |ring.items| && forall i :: 0 <= i < |wakes| ==> wakes[i] == tcbs[ring.items[i]].wake
    requires tcbs.Keys == tcbs'.Keys && forall u :: u in tcbs ==> tcbs'[u].wake == tcbs[u].wake
    ensures WakeOrder(tcbs', ring.InsertAt(InsertPos(wakes, tcbs[t].wake), t).items)
  {
    hide InsertPos;
    var pos := InsertPos(wakes, tcbs[t].wake);
    var now := ring.InsertAt(pos, t).items;
    InsertKeepsSorted(wakes, tcbs[t].wake);
    var v := wakes[..pos] + [tcbs[t].wake] + wakes[pos..];
    forall i | 0 <= i < |now| ensures now[i] in tcbs && v[i] == tcbs[now[i]].wake {
      assert now[i] == if i < pos then ring.items[i] else if i == pos then t else ring.items[i - 1];
    }
  }

  lemma MakeReadyCore(s: State, t: Task)
    requires Core(s) && t in s.tcbs && s.tcbs[t].place != Nowhere
    ensures Core(MakeReady(s, t))
    ensures var r := MakeReady(s, t);
      && r == s.(tcbs := r.tcbs, lists := r.lists, topReady := r.topReady)
      && r.tcbs == s.tcbs[t := s.tcbs[t].(place := Ready(s.tcbs[t].priority))] && r.tcbs.Keys == s.tcbs.Keys
  {
    hide Core, PositionFor;
    UnlinkCore(s, t);
    Overwrite(s.tcbs, t, s.tcbs[t].(place := Nowhere), s.tcbs[t].(place := Ready(s.tcbs[t].priority)));
    AddToReadyCore(Unlink(s, t), t);
  }

  lemma AddToReadyCore(s: State, t: Task)
    requires Core(s) && t in s.tcbs && s.tcbs[t].place == Nowhere
    ensures Core(AddToReadyList(s, t))
    ensures AddToReadyList(s, t).tcbs == s.tcbs[t := s.tcbs[t].(place := Ready(s.tcbs[t].priority))]
  {
    hide Core, PositionFor;
    var p := s.tcbs[t].priority;
    var s1 := s.(topReady := if p > s.topReady then p else s.topReady);
    RaiseTopReady(s, t);
    LinkCore(s1, t, Ready(p));
    Overwrite(s.tcbs, t, s.tcbs[t], s.tcbs[t].(place := Ready(p)));
  }

  /** uxTopReadyPriority may rise to any priority. */
  lemma RaiseTopReady(s: State, t: Task)
    requires Core(s) && t in s.tcbs
    ensures s.tcbs[t].priority < MAX_PRIORITIES
    ensures var p := s.tcbs[t].priority; Core(s.(topReady := if p > s.topReady then p else s.topReady))
  {
    hide WakeOrder, Ring.Valid;
  }

  lemma RetimeCore(s: State, t: Task, wake: nat, deadline: nat, unblock: nat)
    requires Core(s) && t in s.tcbs && s.tcbs[t].place == Nowhere && unblock <= s.nextUnblock
    ensures Core(Retime(s, t, wake, deadline, unblock))
  {
    hide Linked, ReadyOk, TimesOk, SortedLists;
    CoreFacts(s);
    RetimeLinked(s, t, wake, deadline, unblock);
    RetimeTimes(s, t, wake, deadline, unblock);
  }

  lemma RetimeLinked(s: State, t: Task, wake: nat, deadline: nat, unblock: nat)
    requires Linked(s) && ReadyOk(s) && SortedLists(s) && t in s.tcbs && s.tcbs[t].place == Nowhere
    ensures var r := Retime(s, t, wake, deadline, unblock); Linked(r) && ReadyOk(r) && SortedLists(r)
  {
  }

  lemma RetimeTimes(s: State, t: Task, wake: nat, deadline: nat, unblock: nat)
    requires TimesOk(s) && s.delayed < 2 && t in s.tcbs && s.tcbs[t].place == Nowhere && unblock <= s.nextUnblock
    ensures TimesOk(Retime(s, t, wake, deadline, unblock))
  {
  }

  lemma CoreFacts(s: State)
    requires Core(s)
    ensures s.delayed < 2 && s.tick < TICK_MODULUS
  {
  }

  lemma AddToOverflowCore(s: State, t: Task, ticks: nat)
    requires Core(s) && t in s.tcbs && s.tcbs[t].place == Nowhere && ticks < TICK_MODULUS <= s.tick + ticks
    ensures Core(AddToDelayedList(s, t, ticks))
  {
    hide Core, Link;
    CoreFacts(s);
    var wake := WakeTime(s.tick, ticks);
    RetimeCore(s, t, wake, s.Now() + ticks, s.nextUnblock);
    LinkCore(Retime(s, t, wake, s.Now() + ticks, s.nextUnblock), t, s.OverflowList());
  }

  lemma AddToCurrentCore(s: State, t: Task, ticks: nat)
    requires Core(s) && t in s.tcbs && s.tcbs[t].place == Nowhere && s.tick + ticks < TICK_MODULUS
    ensures Core(AddToDelayedList(s, t, ticks))
  {
    hide Core, Link;
    CoreFacts(s);
    var wake := WakeTime(s.tick, ticks);
    var unblock := if wake < s.nextUnblock then wake else s.nextUnblock;
    RetimeCore(s, t, wake, s.Now() + ticks, unblock);
    LinkCore(Retime(s, t, wake, s.Now() + ticks, unblock), t, s.DelayedList());
  }

  lemma Overwrite<K, V>(m: map<K, V>, k: K, v: V, w: V)
    ensures m[k := v][k := w] == m[k := w]
  {
  }

  lemma AddToDelayedTcbs(s: State, t: Task, ticks: nat)
    requires t in s.tcbs && s.tick < TICK_MODULUS && ticks < TICK_MODULUS
    ensures AddToDelayedList(s, t, ticks).tcbs == s.tcbs[t := s.tcbs[t].(wake := WakeTime(s.tick, ticks),
      place := if s.tick + ticks < TICK_MODULUS then s.DelayedList() else s.OverflowList())]
  {
    hide PositionFor;
    var tcb := s.tcbs[t].(wake := WakeTime(s.tick, ticks));
    Overwrite(s.tcbs, t, tcb, tcb.(place := s.DelayedList()));
    Overwrite(s.tcbs, t, tcb, tcb.(place := s.OverflowList()));
  }

  /** A delay of less than 2^32 ticks lands on the list of the epoch its deadline is in. */
  lemma AddToDelayedCore(s: State, t: Task, ticks: nat)
    requires Core(s) && t in s.tcbs && s.tcbs[t].place == Nowhere && ticks < TICK_MODULUS
    ensures Core(AddToDelayedList(s, t, ticks))
    ensures AddToDelayedList(s, t, ticks).tcbs == s.tcbs[t := s.tcbs[t].(wake := WakeTime(s.tick, ticks),
      place := if s.tick + ticks < TICK_MODULUS then s.DelayedList() else s.OverflowList())]
  {
    hide Core, AddToDelayedList;
    CoreFacts(s);
    AddToDelayedTcbs(s, t, ticks);
    if s.tick + ticks < TICK_MODULUS {
      AddToCurrentCore(s, t, ticks);
    } else {
      AddToOverflowCore(s, t, ticks);
    }
  }
}
