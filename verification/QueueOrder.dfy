/** Over whole runs: the wait lists of a queue are in priority order, the highest waiting task
    is woken, items come out in the order they went in, and calls end as they should. */
module QueueOrder {
  import opened Common
  import opened Rings
  import opened QueueModel
  import opened QueueProtocol
  import opened QueueWindow

  // ---- wait lists ----

  /** In item value order. */
  ghost predicate Ordered<T>(q: Queue<T>, list: seq<Task>) {
    forall i, j :: 0 <= i < j < |list| ==> ValueOf(q, list[i]) <= ValueOf(q, list[j])
  }

  ghost predicate ListsOrdered<T>(q: Queue<T>) {
    Ordered(q, q.waitingToSend) && Ordered(q, q.waitingToReceive)
  }

  /** t stands behind every task of the list with a smaller or equal value and in front of
      every other; the others keep their order. */
  ghost predicate PlacedIn<T>(q: Queue<T>, before: seq<Task>, after: seq<Task>, t: Task) {
    exists pos :: PlacedBehind(q, before, after, t, pos)
  }

  ghost predicate PlacedBehind<T>(q: Queue<T>, before: seq<Task>, after: seq<Task>, t: Task, pos: nat) {
    && pos <= |before| && after == before[..pos] + [t] + before[pos..]
    && (forall i :: 0 <= i < pos ==> ValueOf(q, before[i]) <= ValueOf(q, t))
    && (forall i :: pos <= i < |before| ==> ValueOf(q, t) < ValueOf(q, before[i]))
  }

  lemma PlaceInOrder<T>(q: Queue<T>, list: seq<Task>, t: Task)
    requires Ordered(q, list)
    ensures PlacedIn(q, list, PlaceAt(q, list, t), t) && Ordered(q, PlaceAt(q, list, t))
  {
    hide InsertPos;
    var values := ValuesOf(q, list);
    var pos := InsertPos(values, ValueOf(q, t));
    var after := PlaceAt(q, list, t);
    forall i | pos <= i < |list| ensures ValueOf(q, t) < ValueOf(q, list[i]) {
      assert values[pos] <= values[i];
    }
    assert PlacedBehind(q, list, after, t, pos);
    assert forall i :: 0 <= i < |after| ==>
      after[i] == if i < pos then list[i] else if i == pos then t else list[i - 1];
  }

  /** How many tasks the event wakes from the head of xTasksWaitingToReceive. */
  function ReceiversWoken<T>(s: State<T>, e: Event<T>): nat {
    var n := |s.q.waitingToReceive|;
    match e
    case TryCall(t, _) =>
      var pc := PcOf(s, t);
      if pc.Top? && Possible(s.q, pc.call) && !pc.call.Receiving? then Min(1, n) else 0
    case IsrSend(_, position) => if CanPut(s.q, position) && s.q.txLock == UNLOCKED then Min(1, n) else 0
    case UnlockFirst(t) => if PcOf(s, t).UnlockingTx? then Min(Noted(s.q.txLock), n) else 0
    case _ => 0
  }

  function SendersWoken<T>(s: State<T>, e: Event<T>): nat {
    var n := |s.q.waitingToSend|;
    match e
    case TryCall(t, _) =>
      var pc := PcOf(s, t);
      if pc.Top? && Possible(s.q, pc.call) && pc.call.Receiving? then Min(1, n) else 0
    case IsrReceive => if s.q.items != [] && s.q.rxLock == UNLOCKED then Min(1, n) else 0
    case UnlockSecond(t) => if PcOf(s, t).UnlockingRx? then Min(Noted(s.q.rxLock), n) else 0
    case _ => 0
  }

  predicate Joins<T>(s: State<T>, e: Event<T>, sending: bool) {
    e.PlaceTask? && PcOf(s, e.task).Placing? && PcOf(s, e.task).call.Sending? == sending
  }

  /** What becomes of a wait list: its first k tasks are woken, or a task joins in order, or
      one that has timed out leaves. */
  function ListAfter<T>(s: State<T>, e: Event<T>, list: seq<Task>, sending: bool): seq<Task> {
    var k := if sending then SendersWoken(s, e) else ReceiversWoken(s, e);
    if Joins(s, e, sending) then PlaceAt(s.q, list, e.task)
    else if e.TimeOut? then Without(list, e.task)
    else if k <= |list| then list[k..] else list
  }

  /** The tasks that t's arrival at the top of its loop takes out of the woken ones. */
  function Arriving<T>(s: State<T>, e: Event<T>): set<Task> {
    if e.TryCall? && PcOf(s, e.task).Top? then {e.task} else {}
  }

  /** What the event does to the lists and to the woken tasks. */
  ghost predicate ListsMove<T(!new)>(s: State<T>, e: Event<T>, r: Queue<T>) {
    var (k, l) := (ReceiversWoken(s, e), SendersWoken(s, e));
    && r.values == s.q.values && r.length == s.q.length
    && r.waitingToReceive == ListAfter(s, e, s.q.waitingToReceive, false)
    && r.waitingToSend == ListAfter(s, e, s.q.waitingToSend, true)
    && k <= |s.q.waitingToReceive| && l <= |s.q.waitingToSend|
    && r.wokenReceivers == s.q.wokenReceivers - Arriving(s, e) + Elems(s.q.waitingToReceive[..k])
    && r.wokenSenders == s.q.wokenSenders - Arriving(s, e) + Elems(s.q.waitingToSend[..l])
  }

  lemma StepLists<T(!new)>(s: State<T>, e: Event<T>)
    ensures ListsMove(s, e, Step(s, e).q)
  {
    hide Elems, WakeReceivers, WakeSenders, PlaceAt, Without, Put;
    match e {
      case TryCall(_, _) => TryLists(s, e);
      case UnlockFirst(_) => UnlockLists(s, e);
      case UnlockSecond(_) => UnlockLists(s, e);
      case _ => OtherLists(s, e);
    }
  }

  lemma TryLists<T(!new)>(s: State<T>, e: Event<T>)
    requires e.TryCall?
    ensures ListsMove(s, e, Step(s, e).q)
  {
    hide Elems, Put;
    FirstOf(s.q.waitingToReceive);
    FirstOf(s.q.waitingToSend);
  }

  lemma UnlockLists<T(!new)>(s: State<T>, e: Event<T>)
    requires e.UnlockFirst? || e.UnlockSecond?
    ensures ListsMove(s, e, Step(s, e).q)
  {
    hide Elems, WakeReceivers, WakeSenders;
    FirstOf(s.q.waitingToReceive);
    FirstOf(s.q.waitingToSend);
    WakeReceiversTakes(s.q, s.q.txLock);
    WakeSendersTakes(s.q, s.q.rxLock);
  }

  lemma OtherLists<T(!new)>(s: State<T>, e: Event<T>)
    requires !e.TryCall? && !e.UnlockFirst? && !e.UnlockSecond?
    ensures ListsMove(s, e, Step(s, e).q)
  {
    hide Elems, PlaceAt, Without, Put;
    FirstOf(s.q.waitingToReceive);
    FirstOf(s.q.waitingToSend);
  }

  lemma FirstOf(list: seq<Task>)
    ensures list[0..] == list && Elems(list[..0]) == {}
    ensures list != [] ==> Elems(list[..1]) == {list[0]}
  {
  }

  lemma OrderedTail<T>(q: Queue<T>, list: seq<Task>, k: nat)
    requires Ordered(q, list) && k <= |list|
    ensures Ordered(q, list[k..])
    ensures forall u, w :: u in list[..k] && w in list[k..] ==> ValueOf(q, u) <= ValueOf(q, w)
  {
  }

  lemma {:induction false} OrderedWithout<T>(q: Queue<T>, list: seq<Task>, t: Task)
    requires Ordered(q, list)
    ensures Ordered(q, Without(list, t)) && forall u :: u in Without(list, t) <==> u in list && u != t
  {
    if list != [] {
      OrderedWithout(q, list[1..], t);
      assert forall u :: u in Without(list[1..], t) ==> u in list[1..];
      forall u | u in list[1..] ensures ValueOf(q, list[0]) <= ValueOf(q, u) {
      }
      assert forall u :: u in list <==> u == list[0] || u in list[1..];
    }
  }

  lemma SameOrder<T>(q: Queue<T>, r: Queue<T>, list: seq<Task>)
    requires r.values == q.values
    ensures Ordered(r, list) <==> Ordered(q, list)
  {
    assert forall t :: ValueOf(r, t) == ValueOf(q, t);
  }

  lemma ListStaysOrdered<T(!new)>(s: State<T>, e: Event<T>, list: seq<Task>, sending: bool)
    requires Ordered(s.q, list) && list == if sending then s.q.waitingToSend else s.q.waitingToReceive
    ensures Ordered(s.q, ListAfter(s, e, list, sending))
  {
    hide Ordered, PlaceAt, Without, ReceiversWoken, SendersWoken, Step;
    if Joins(s, e, sending) { PlaceInOrder(s.q, list, e.task); }
    else if e.TimeOut? { OrderedWithout(s.q, list, e.task); }
    else {
      var k := if sending then SendersWoken(s, e) else ReceiversWoken(s, e);
      if k <= |list| { OrderedTail(s.q, list, k); }
    }
  }

  lemma StepOrdered<T(!new)>(s: State<T>, e: Event<T>)
    requires ListsOrdered(s.q)
    ensures ListsOrdered(Step(s, e).q)
  {
    hide Ordered, Step, ListAfter, ReceiversWoken, SendersWoken;
    var r := Step(s, e).q;
    StepLists(s, e);
    ListStaysOrdered(s, e, s.q.waitingToReceive, false);
    ListStaysOrdered(s, e, s.q.waitingToSend, true);
    SameOrder(s.q, r, r.waitingToReceive);
    SameOrder(s.q, r, r.waitingToSend);
  }

  /** In every state of every run both wait lists are in priority order, oldest first among
      equals. */
  lemma {:induction false} AlwaysOrdered<T(!new)>(states: seq<State<T>>, events: seq<Event<T>>, i: nat)
    requires Run(states, events) && Initial(states[0]) && i < |states|
    ensures ListsOrdered(states[i].q)
  {
    hide Step, Enabled;
    if i > 0 {
      AlwaysOrdered(states, events, i - 1);
      StepOrdered(states[i - 1], events[i - 1]);
    }
  }

  /** A task that starts to wait joins the list of its call in order. */
  lemma JoinsInOrder<T(!new)>(s: State<T>, t: Task)
    requires ListsOrdered(s.q) && PcOf(s, t).Placing?
    ensures var r := Step(s, PlaceTask(t)).q;
      if PcOf(s, t).call.Sending? then
        PlacedIn(s.q, s.q.waitingToSend, r.waitingToSend, t) && r.waitingToReceive == s.q.waitingToReceive
      else PlacedIn(s.q, s.q.waitingToReceive, r.waitingToReceive, t) && r.waitingToSend == s.q.waitingToSend
  {
    hide PlaceAt, PlacedIn, Ordered;
    PlaceInOrder(s.q, s.q.waitingToSend, t);
    PlaceInOrder(s.q, s.q.waitingToReceive, t);
  }

  /** No task woken by any step has a lower priority than one that goes on waiting. */
  lemma HighestIsWoken<T(!new)>(s: State<T>, e: Event<T>, u: Task, w: Task)
    requires ListsOrdered(s.q)
    ensures var r := Step(s, e).q;
      && (u in r.wokenReceivers && u !in s.q.wokenReceivers && w in r.waitingToReceive ==>
           ValueOf(s.q, u) <= ValueOf(s.q, w))
      && (u in r.wokenSenders && u !in s.q.wokenSenders && w in r.waitingToSend ==>
           ValueOf(s.q, u) <= ValueOf(s.q, w))
  {
    hide Ordered, Step, PlaceAt, Without;
    StepLists(s, e);
    OrderedTail(s.q, s.q.waitingToReceive, ReceiversWoken(s, e));
    OrderedTail(s.q, s.q.waitingToSend, SendersWoken(s, e));
  }

  // ---- items ----

  /** The event puts an item into the queue. */
  predicate Puts<T>(s: State<T>, e: Event<T>) {
    match e
    case TryCall(t, _) => PcOf(s, t).Top? && PcOf(s, t).call.Sending? && CanPut(s.q, PcOf(s, t).call.position)
    case IsrSend(_, position) => CanPut(s.q, position)
    case _ => false
  }

  /** That item, and where it goes. */
  function PutItem<T>(s: State<T>, e: Event<T>): (p: (T, Position))
    requires Puts(s, e)
  {
    match e
    case TryCall(t, _) => (PcOf(s, t).call.x, PcOf(s, t).call.position)
    case IsrSend(x, position) => (x, position)
  }

  /** The event takes the item at the front. */
  predicate Takes<T>(s: State<T>, e: Event<T>) {
    s.q.items != [] && (e.IsrReceive? || (e.TryCall? && PcOf(s, e.task).Top? && PcOf(s, e.task).call.Receiving?))
  }

  lemma StepItems<T(!new)>(s: State<T>, e: Event<T>)
    ensures var items := Step(s, e).q.items;
      if Puts(s, e) then
        var (x, position) := PutItem(s, e);
        items == if position == Back then s.q.items + [x] else if position == Front then [x] + s.q.items else [x]
      else if Takes(s, e) then items == s.q.items[1..]
      else items == s.q.items
  {
    hide WakeReceivers, WakeSenders, PlaceAt, Without;
    if e.UnlockFirst? { WakeReceiversTakes(s.q, s.q.txLock); }
    if e.UnlockSecond? { WakeSendersTakes(s.q, s.q.rxLock); }
  }

  /** The items put in, and those taken out, by the first k events. */
  function PutBy<T>(states: seq<State<T>>, events: seq<Event<T>>, k: nat): seq<T>
    requires k <= |events| && |states| == |events| + 1
  {
    if k == 0 then [] else
      PutBy(states, events, k - 1)
      + (if Puts(states[k - 1], events[k - 1]) then [PutItem(states[k - 1], events[k - 1]).0] else [])
  }

  function TakenBy<T>(states: seq<State<T>>, events: seq<Event<T>>, k: nat): seq<T>
    requires k <= |events| && |states| == |events| + 1
  {
    if k == 0 then [] else
      TakenBy(states, events, k - 1)
      + (if Takes(states[k - 1], events[k - 1]) then [states[k - 1].q.items[0]] else [])
  }

  /** Over any number of tasks and interrupts that send to the back, what has been received
      followed by what is in the queue is what has been sent, in this order. */
  lemma {:induction false} QueueIsFifo<T(!new)>(states: seq<State<T>>, events: seq<Event<T>>, k: nat)
    requires Run(states, events) && Initial(states[0]) && k < |states|
    requires forall i :: 0 <= i < k && Puts(states[i], events[i]) ==> PutItem(states[i], events[i]).1 == Back
    ensures TakenBy(states, events, k) + states[k].q.items == PutBy(states, events, k)
  {
    hide Step, Enabled, Puts, Takes, PutItem;
    if k > 0 {
      var (s, e) := (states[k - 1], events[k - 1]);
      QueueIsFifo(states, events, k - 1);
      StepItems(s, e);
      NotBoth(s, e);
      if Takes(s, e) {
        assert TakenBy(states, events, k) + s.q.items[1..] == TakenBy(states, events, k - 1) + s.q.items;
      }
    }
  }

  lemma NotBoth<T(!new)>(s: State<T>, e: Event<T>)
    ensures !(Puts(s, e) && Takes(s, e))
    ensures Takes(s, e) ==> s.q.items != []
  {
  }

  // ---- calls ----

  /** What a call does next: where it stands after the event. */
  lemma CallGoesOn<T(!new)>(s: State<T>, e: Event<T>)
    requires Enabled(s, e) && !e.IsrSend? && !e.IsrReceive?
    ensures var (t, q) := (e.task, s.q);
      var (pc, next) := (s.pcs[t], PcOf(Step(s, e), t));
      && (forall u :: u in s.pcs && u != t ==> PcOf(Step(s, e), u) == s.pcs[u])
      && match e
         case Begin(_, call) => next == Top(call)
         case TryCall(_, wait) => next == if !Possible(q, pc.call) && wait then Unavailable(pc.call) else Outside
         case LockQueue(_) => next == Locked(pc.call)
         case CheckTimeOut(_, expired) =>
           next == if expired then UnlockingTx(pc.call, true, false) else NotExpired(pc.call)
         case CheckQueue(_) =>
           next == if Blocked(q, pc.call) then Placing(pc.call) else UnlockingTx(pc.call, false, false)
         case PlaceTask(_) => next == UnlockingTx(pc.call, false, true)
         case UnlockFirst(_) => next == UnlockingRx(pc.call, pc.expired, pc.placed)
         case UnlockSecond(_) =>
           next == if !pc.expired || pc.placed then Top(pc.call)
                   else if pc.call.Sending? then Outside else LastLook(pc.call)
         case LookAgain(_) => next == if q.items == [] then Outside else Top(pc.call)
         case TimeOut(_) => next == pc && !OnList(Step(s, e).q, t)
  {
    hide WakeReceivers, WakeSenders, PlaceAt, Perform;
    if e.TimeOut? {
      WithoutLeaves(s.q.waitingToSend, e.task);
      WithoutLeaves(s.q.waitingToReceive, e.task);
    }
  }

  lemma {:induction false} WithoutLeaves(list: seq<Task>, t: Task)
    ensures t !in Without(list, t)
  {
    if list != [] { WithoutLeaves(list[1..], t); }
  }
}
