/** The retry loops of xQueueGenericSend, xQueueReceive, xQueueSemaphoreTake and xQueuePeek
    as a protocol between tasks and interrupts, and its purpose: no wakeup is lost. */
module QueueProtocol {
  import opened Common
  import opened Rings
  import opened QueueModel

  datatype Call<T> = Sending(x: T, position: Position) | Receiving | Peeking

  /** Where a task is in its call. From Locked to UnlockingRx the scheduler is suspended
      and the queue locked by this task; expired says that the timeout has expired, placed
      that the task has put itself on the wait list. A task at Top is about to run the
      section at the top of its loop; it is blocked while it is on a wait list. */
  datatype Pc<T> =
    | Outside
    | Top(call: Call<T>)
    | Unavailable(call: Call<T>)
    | Locked(call: Call<T>)
    | NotExpired(call: Call<T>)
    | Placing(call: Call<T>)
    | UnlockingTx(call: Call<T>, expired: bool, placed: bool)
    | UnlockingRx(call: Call<T>, expired: bool, placed: bool)
    | LastLook(call: Call<T>)

  datatype State<T> = State(q: Queue<T>, pcs: map<Task, Pc<T>>)

  /** wait says whether the caller allows any block time; expired is the answer of
      xTaskCheckForTimeOut. */
  datatype Event<T> =
    | Begin(task: Task, call: Call<T>)
    | TryCall(task: Task, wait: bool)
    | LockQueue(task: Task)
    | CheckTimeOut(task: Task, expired: bool)
    | CheckQueue(task: Task)
    | PlaceTask(task: Task)
    | UnlockFirst(task: Task)
    | UnlockSecond(task: Task)
    | LookAgain(task: Task)
    | TimeOut(task: Task)
    | IsrSend(x: T, position: Position)
    | IsrReceive

  /** prvIsQueueFull and prvIsQueueEmpty. */
  predicate Blocked<T>(q: Queue<T>, call: Call<T>) {
    if call.Sending? then |q.items| == q.length else q.items == []
  }

  /** The success condition at the top of the loop. */
  predicate Possible<T>(q: Queue<T>, call: Call<T>) {
    if call.Sending? then CanPut(q, call.position) else q.items != []
  }

  function Perform<T>(q: Queue<T>, call: Call<T>): Queue<T> {
    match call
    case Sending(x, position) => Send(q, x, position)
    case Receiving => Receive(q)
    case Peeking => Peek(q)
  }

  /** A task that runs the top of its loop no longer counts as woken. */
  function Arrive<T>(q: Queue<T>, t: Task): Queue<T> {
    q.(wokenSenders := q.wokenSenders - {t}, wokenReceivers := q.wokenReceivers - {t})
  }

  function PcOf<T>(s: State<T>, t: Task): Pc<T> {
    if t in s.pcs then s.pcs[t] else Outside
  }

  /** The task holds the scheduler suspended and the queue locked. */
  predicate HoldsLock<T>(pc: Pc<T>) {
    pc.Locked? || pc.NotExpired? || pc.Placing? || pc.UnlockingTx? || pc.UnlockingRx?
  }

  predicate OnList<T>(q: Queue<T>, t: Task) {
    t in q.waitingToSend || t in q.waitingToReceive
  }

  /** Where UnlockSecond leaves the task: back at the top, or out with the timeout. */
  function AfterUnlock<T>(pc: Pc<T>): Pc<T>
    requires pc.UnlockingRx?
  {
    if pc.placed || !pc.expired then Top(pc.call)
    else if pc.call.Sending? then Outside
    else LastLook(pc.call)
  }

  function Step<T>(s: State<T>, e: Event<T>): State<T> {
    match e
    case Begin(t, call) => s.(pcs := s.pcs[t := Top(call)])
    case TryCall(t, wait) =>
      var pc := PcOf(s, t);
      if !pc.Top? then s
      else if Possible(s.q, pc.call) then State(Perform(Arrive(s.q, t), pc.call), s.pcs[t := Outside])
      else State(Arrive(s.q, t), s.pcs[t := if wait then Unavailable(pc.call) else Outside])
    case LockQueue(t) =>
      var pc := PcOf(s, t);
      if !pc.Unavailable? then s else State(Lock(s.q), s.pcs[t := Locked(pc.call)])
    case CheckTimeOut(t, expired) =>
      var pc := PcOf(s, t);
      if !pc.Locked? then s
      else s.(pcs := s.pcs[t := if expired then UnlockingTx(pc.call, true, false) else NotExpired(pc.call)])
    case CheckQueue(t) =>
      var pc := PcOf(s, t);
      if !pc.NotExpired? then s
      else s.(pcs := s.pcs[t := if Blocked(s.q, pc.call) then Placing(pc.call) else UnlockingTx(pc.call, false, false)])
    case PlaceTask(t) =>
      var pc := PcOf(s, t);
      if !pc.Placing? then s
      else State(if pc.call.Sending? then PlaceSender(s.q, t) else PlaceReceiver(s.q, t),
        s.pcs[t := UnlockingTx(pc.call, false, true)])
    case UnlockFirst(t) =>
      var pc := PcOf(s, t);
      if !pc.UnlockingTx? then s else State(UnlockTx(s.q), s.pcs[t := UnlockingRx(pc.call, pc.expired, pc.placed)])
    case UnlockSecond(t) =>
      var pc := PcOf(s, t);
      if !pc.UnlockingRx? then s else State(UnlockRx(s.q), s.pcs[t := AfterUnlock(pc)])
    case LookAgain(t) =>
      var pc := PcOf(s, t);
      if !pc.LastLook? then s else s.(pcs := s.pcs[t := if s.q.items == [] then Outside else Top(pc.call)])
    case TimeOut(t) =>
      s.(q := s.q.(waitingToSend := Without(s.q.waitingToSend, t),
        waitingToReceive := Without(s.q.waitingToReceive, t)))
    case IsrSend(x, position) => s.(q := SendFromISR(s.q, x, position))
    case IsrReceive => s.(q := ReceiveFromISR(s.q))
  }

  /** While one task holds the scheduler suspended no other task runs and no tick is
      processed. */
  ghost predicate Alone<T(!new)>(s: State<T>, t: Task) {
    t in s.pcs && forall u :: u in s.pcs && u != t ==> !HoldsLock(s.pcs[u])
  }

  /** Interrupts always run. A lock count stays within int8_t as long as a locked window
      sees fewer than 128 interrupt operations of a kind. */
  ghost predicate Enabled<T(!new)>(s: State<T>, e: Event<T>) {
    match e
    case IsrSend(_, position) => s.q.txLock < 127 && MayUse(s.q, position)
    case IsrReceive => s.q.rxLock < 127
    case Begin(t, call) => Alone(s, t) && s.pcs[t].Outside? && (call.Sending? ==> MayUse(s.q, call.position))
    case TryCall(t, _) => Alone(s, t) && s.pcs[t].Top? && !OnList(s.q, t)
    case LockQueue(t) => Alone(s, t) && s.pcs[t].Unavailable?
    case CheckTimeOut(t, _) => Alone(s, t) && s.pcs[t].Locked?
    case CheckQueue(t) => Alone(s, t) && s.pcs[t].NotExpired?
    case PlaceTask(t) => Alone(s, t) && s.pcs[t].Placing?
    case UnlockFirst(t) => Alone(s, t) && s.pcs[t].UnlockingTx?
    case UnlockSecond(t) => Alone(s, t) && s.pcs[t].UnlockingRx?
    case LookAgain(t) => Alone(s, t) && s.pcs[t].LastLook?
    case TimeOut(t) => Alone(s, t) && s.pcs[t].Top? && OnList(s.q, t)
  }

  ghost predicate Run<T(!new)>(states: seq<State<T>>, events: seq<Event<T>>) {
    && |states| == |events| + 1
    && forall i :: 0 <= i < |events| ==> Enabled(states[i], events[i]) && states[i + 1] == Step(states[i], events[i])
  }

  /** A queue as created, in use by a set of tasks that are not yet in any call. */
  ghost predicate Initial<T(!new)>(s: State<T>) {
    && s.q.items == [] && s.q.txLock == UNLOCKED && s.q.rxLock == UNLOCKED
    && s.q.waitingToSend == [] && s.q.waitingToReceive == []
    && s.q.wokenSenders == {} && s.q.wokenReceivers == {}
    && forall t :: t in s.pcs ==> s.pcs[t].Outside?
  }

  // ---- the invariant ----

  /** Every item in the queue is spoken for: by a woken task that has yet to retry, or by a
      count that unlocking will turn into a wakeup. */
  ghost predicate ItemsCovered<T>(q: Queue<T>) {
    |q.items| <= |q.wokenReceivers| + Noted(q.txLock)
  }

  ghost predicate SpacesCovered<T>(q: Queue<T>) {
    q.length - |q.items| <= |q.wokenSenders| + Noted(q.rxLock)
  }

  ghost predicate CoveredFor<T>(q: Queue<T>, call: Call<T>) {
    if call.Sending? then SpacesCovered(q) else ItemsCovered(q)
  }

  ghost predicate QueueCovered<T>(q: Queue<T>) {
    && (q.waitingToReceive != [] ==> ItemsCovered(q))
    && (q.waitingToSend != [] ==> SpacesCovered(q))
  }

  /** The same holds from the moment a task has seen that it must wait. */
  ghost predicate Covered<T(!new)>(s: State<T>) {
    && QueueCovered(s.q)
    && forall t :: t in s.pcs && s.pcs[t].Placing? ==> CoveredFor(s.q, s.pcs[t].call)
  }

  /** A task in this position may be on a wait list or have been woken from one. */
  predicate Sleeper<T>(pc: Pc<T>) {
    pc.Top? || ((pc.UnlockingTx? || pc.UnlockingRx?) && pc.placed)
  }

  predicate SleepsToSend<T>(pcs: map<Task, Pc<T>>, t: Task) {
    t in pcs && Sleeper(pcs[t]) && pcs[t].call.Sending?
  }

  predicate SleepsToReceive<T>(pcs: map<Task, Pc<T>>, t: Task) {
    t in pcs && Sleeper(pcs[t]) && !pcs[t].call.Sending?
  }

  /** Waiting tasks are on the list of their call, woken ones are on neither. */
  ghost predicate Listed<T(!new)>(q: Queue<T>, pcs: map<Task, Pc<T>>) {
    && Distinct(q.waitingToSend) && Distinct(q.waitingToReceive)
    && (forall t :: t in q.waitingToSend ==> SleepsToSend(pcs, t) && t !in q.wokenSenders)
    && (forall t :: t in q.waitingToReceive ==> SleepsToReceive(pcs, t) && t !in q.wokenReceivers)
    && (forall t :: t in q.wokenSenders ==> SleepsToSend(pcs, t))
    && (forall t :: t in q.wokenReceivers ==> SleepsToReceive(pcs, t))
  }

  /** The lock counts are set exactly while some task holds the lock. */
  ghost predicate LocksOk<T(!new)>(s: State<T>) {
    && UNLOCKED <= s.q.txLock <= 127 && UNLOCKED <= s.q.rxLock <= 127
    && (forall t, u :: t in s.pcs && u in s.pcs && HoldsLock(s.pcs[t]) && HoldsLock(s.pcs[u]) ==> t == u)
    && (forall t :: t in s.pcs && HoldsLock(s.pcs[t]) ==>
         s.q.rxLock != UNLOCKED && (s.q.txLock == UNLOCKED) == s.pcs[t].UnlockingRx?)
    && ((forall t :: t in s.pcs ==> !HoldsLock(s.pcs[t])) ==> s.q.txLock == UNLOCKED && s.q.rxLock == UNLOCKED)
  }

  predicate CallOk<T>(q: Queue<T>, pc: Pc<T>) {
    !pc.Outside? && pc.call.Sending? ==> MayUse(q, pc.call.position)
  }

  ghost predicate SizesOk<T(!new)>(s: State<T>) {
    && |s.q.items| <= s.q.length
    && forall t :: t in s.pcs ==> CallOk(s.q, s.pcs[t])
  }

  ghost predicate Inv<T(!new)>(s: State<T>) {
    Covered(s) && Listed(s.q, s.pcs) && LocksOk(s) && SizesOk(s)
  }

  lemma InitialInv<T(!new)>(s: State<T>)
    requires Initial(s)
    ensures Inv(s)
  {
  }

  // ---- what each section does to the counts ----

  /** Waking takes the head of the list, which was not yet woken. */
  lemma WakeReceiverCounts<T(!new)>(q: Queue<T>, pcs: map<Task, Pc<T>>)
    requires Listed(q, pcs)
    ensures Listed(WakeReceiver(q), pcs)
    ensures q.waitingToReceive != [] ==> |WakeReceiver(q).wokenReceivers| == |q.wokenReceivers| + 1
  {
    if q.waitingToReceive != [] {
      var w := WakeReceiver(q).waitingToReceive;
      assert forall i :: 0 <= i < |w| ==> w[i] == q.waitingToReceive[i + 1];
    }
  }

  lemma WakeSenderCounts<T(!new)>(q: Queue<T>, pcs: map<Task, Pc<T>>)
    requires Listed(q, pcs)
    ensures Listed(WakeSender(q), pcs)
    ensures q.waitingToSend != [] ==> |WakeSender(q).wokenSenders| == |q.wokenSenders| + 1
  {
    if q.waitingToSend != [] {
      var w := WakeSender(q).waitingToSend;
      assert forall i :: 0 <= i < |w| ==> w[i] == q.waitingToSend[i + 1];
    }
  }

  ghost predicate SameBut<T>(q: Queue<T>, r: Queue<T>) {
    q.items == r.items && q.length == r.length && q.txLock == r.txLock && q.rxLock == r.rxLock
  }

  /** The unlocking loop wakes one receiver for each count unless the list runs out. */
  lemma {:induction false} WakeReceiversCounts<T(!new)>(q: Queue<T>, count: int, pcs: map<Task, Pc<T>>)
    requires Listed(q, pcs)
    ensures var r := WakeReceivers(q, count);
      && Listed(r, pcs) && SameBut(q, r)
      && r.waitingToSend == q.waitingToSend && r.wokenSenders == q.wokenSenders
      && (r.waitingToReceive != [] ==>
           q.waitingToReceive != [] && |r.wokenReceivers| == |q.wokenReceivers| + Noted(count))
    decreases count
  {
    if count > LOCKED_UNMODIFIED && q.waitingToReceive != [] {
      WakeReceiverCounts(q, pcs);
      WakeReceiversCounts(WakeReceiver(q), count - 1, pcs);
    }
  }

  lemma {:induction false} WakeSendersCounts<T(!new)>(q: Queue<T>, count: int, pcs: map<Task, Pc<T>>)
    requires Listed(q, pcs)
    ensures var r := WakeSenders(q, count);
      && Listed(r, pcs) && SameBut(q, r)
      && r.waitingToReceive == q.waitingToReceive && r.wokenReceivers == q.wokenReceivers
      && (r.waitingToSend != [] ==> q.waitingToSend != [] && |r.wokenSenders| == |q.wokenSenders| + Noted(count))
    decreases count
  {
    if count > LOCKED_UNMODIFIED && q.waitingToSend != [] {
      WakeSenderCounts(q, pcs);
      WakeSendersCounts(WakeSender(q), count - 1, pcs);
    }
  }

  lemma PutGrows<T>(q: Queue<T>, x: T, position: Position)
    requires CanPut(q, position) && |q.items| <= q.length && MayUse(q, position)
    ensures |q.items| <= |Put(q.items, x, position)| <= |q.items| + 1
    ensures |Put(q.items, x, position)| <= q.length
    ensures |Put(q.items, x, position)| == |q.items| + 1 || |q.items| == q.length
  {
  }

  /** A send fills a space and answers for the new item by waking a receiver. */
  lemma SendCovers<T(!new)>(q: Queue<T>, x: T, position: Position, pcs: map<Task, Pc<T>>, spare: nat)
    requires Listed(q, pcs) && |q.items| <= q.length && MayUse(q, position) && CanPut(q, position)
    requires q.waitingToReceive != [] ==> |q.items| <= |q.wokenReceivers| + spare
    ensures var r := Send(q, x, position);
      && Listed(r, pcs) && |r.items| <= r.length && r.length == q.length && r.txLock == q.txLock && r.rxLock == q.rxLock
      && r.waitingToSend == q.waitingToSend && r.wokenSenders == q.wokenSenders
      && (r.waitingToReceive != [] ==> |r.items| <= |r.wokenReceivers| + spare)
      && |q.items| <= |r.items| && (|r.items| == |q.items| + 1 || |q.items| == q.length)
  {
    hide Listed, Distinct;
    PutGrows(q, x, position);
    var q1 := q.(items := Put(q.items, x, position));
    ListedItems(q, q1, pcs);
    WakeReceiverCounts(q1, pcs);
  }

  lemma ListedItems<T(!new)>(q: Queue<T>, r: Queue<T>, pcs: map<Task, Pc<T>>)
    requires Listed(q, pcs)
    requires r.waitingToSend == q.waitingToSend && r.waitingToReceive == q.waitingToReceive
    requires r.wokenSenders <= q.wokenSenders && r.wokenReceivers <= q.wokenReceivers
    ensures Listed(r, pcs)
  {
  }

  /** A receive frees a space and answers for it by waking a sender. */
  lemma ReceiveCovers<T(!new)>(q: Queue<T>, pcs: map<Task, Pc<T>>, spare: nat)
    requires Listed(q, pcs) && q.items != []
    requires q.waitingToSend != [] ==> q.length - |q.items| <= |q.wokenSenders| + spare
    ensures var r := Receive(q);
      && Listed(r, pcs) && r.length == q.length && r.txLock == q.txLock && r.rxLock == q.rxLock
      && r.waitingToReceive == q.waitingToReceive && r.wokenReceivers == q.wokenReceivers
      && (r.waitingToSend != [] ==> r.length - |r.items| <= |r.wokenSenders| + spare)
      && |r.items| == |q.items| - 1
  {
    hide Listed, Distinct;
    var q1 := q.(items := q.items[1..]);
    ListedItems(q, q1, pcs);
    WakeSenderCounts(q1, pcs);
  }

  // ---- every event keeps the invariant ----

  lemma SectionKeepsLocks<T(!new)>(s: State<T>, t: Task, q: Queue<T>, pc: Pc<T>)
    requires LocksOk(s) && t in s.pcs && !HoldsLock(s.pcs[t]) && !HoldsLock(pc)
    requires q.txLock == s.q.txLock && q.rxLock == s.q.rxLock
    ensures LocksOk(State(q, s.pcs[t := pc]))
  {
    var r := State(q, s.pcs[t := pc]);
    if forall u :: u in r.pcs ==> !HoldsLock(r.pcs[u]) {
      forall u | u in s.pcs ensures !HoldsLock(s.pcs[u]) {
        assert u in r.pcs;
      }
    }
  }

  lemma SectionKeepsSizes<T(!new)>(s: State<T>, t: Task, q: Queue<T>, pc: Pc<T>)
    requires SizesOk(s) && |q.items| <= q.length && q.length == s.q.length && CallOk(s.q, pc)
    ensures SizesOk(State(q, s.pcs[t := pc]))
  {
  }

  /** A task that is neither waiting nor counted as woken may go anywhere. */
  lemma LeaveKeepsListed<T(!new)>(q: Queue<T>, pcs: map<Task, Pc<T>>, t: Task, pc: Pc<T>)
    requires Listed(q, pcs) && !OnList(q, t) && t !in q.wokenSenders && t !in q.wokenReceivers
    ensures Listed(q, pcs[t := pc])
  {
  }

  /** So may one that stays a sleeper in the same call. */
  lemma StayKeepsListed<T(!new)>(q: Queue<T>, pcs: map<Task, Pc<T>>, t: Task, pc: Pc<T>)
    requires Listed(q, pcs)
    requires t in pcs && Sleeper(pcs[t]) ==> Sleeper(pc) && pc.call == pcs[t].call
    ensures Listed(q, pcs[t := pc])
  {
  }

  lemma NoPlacing<T(!new)>(s: State<T>, t: Task, q: Queue<T>, pc: Pc<T>)
    requires Alone(s, t) && !pc.Placing? && QueueCovered(q)
    ensures Covered(State(q, s.pcs[t := pc]))
  {
  }

  /** Leaving the set of woken tasks costs at most one. */
  lemma ArriveCounts<T(!new)>(q: Queue<T>, t: Task, pcs: map<Task, Pc<T>>)
    requires Listed(q, pcs)
    ensures Listed(Arrive(q, t), pcs)
    ensures |Arrive(q, t).wokenReceivers| == |q.wokenReceivers| - (if t in q.wokenReceivers then 1 else 0)
    ensures |Arrive(q, t).wokenSenders| == |q.wokenSenders| - (if t in q.wokenSenders then 1 else 0)
  {
    ListedItems(q, Arrive(q, t), pcs);
    if t in q.wokenReceivers { assert |q.wokenReceivers - {t}| == |q.wokenReceivers| - 1; }
    else { assert q.wokenReceivers - {t} == q.wokenReceivers; }
    if t in q.wokenSenders { assert |q.wokenSenders - {t}| == |q.wokenSenders| - 1; }
    else { assert q.wokenSenders - {t} == q.wokenSenders; }
  }

  lemma WokenSide<T(!new)>(q: Queue<T>, pcs: map<Task, Pc<T>>, t: Task)
    requires Listed(q, pcs) && t in pcs && pcs[t].Top?
    ensures t in q.wokenReceivers ==> !pcs[t].call.Sending?
    ensures t in q.wokenSenders ==> pcs[t].call.Sending?
  {
  }

  lemma PerformCovers<T(!new)>(s: State<T>, t: Task)
    requires QueueCovered(s.q) && Listed(s.q, s.pcs) && SizesOk(s)
    requires t in s.pcs && s.pcs[t].Top? && Possible(s.q, s.pcs[t].call)
    ensures var r := Perform(Arrive(s.q, t), s.pcs[t].call);
      && QueueCovered(r) && Listed(r, s.pcs) && |r.items| <= r.length && r.length == s.q.length
      && r.txLock == s.q.txLock && r.rxLock == s.q.rxLock
  {
    hide Listed, Distinct;
    var a := Arrive(s.q, t);
    ArriveCounts(s.q, t, s.pcs);
    WokenSide(s.q, s.pcs, t);
    assert CallOk(s.q, s.pcs[t]);
    match s.pcs[t].call {
      case Sending(x, position) => SendCovers(a, x, position, s.pcs, Noted(a.txLock));
      case Receiving => ReceiveCovers(a, s.pcs, Noted(a.rxLock));
      case Peeking => WakeReceiverCounts(a, s.pcs);
    }
  }

  lemma ArriveCovers<T(!new)>(s: State<T>, t: Task)
    requires QueueCovered(s.q) && Listed(s.q, s.pcs) && SizesOk(s)
    requires t in s.pcs && s.pcs[t].Top? && !Possible(s.q, s.pcs[t].call)
    ensures QueueCovered(Arrive(s.q, t))
  {
    hide Listed, Distinct;
    ArriveCounts(s.q, t, s.pcs);
    WokenSide(s.q, s.pcs, t);
  }

  predicate StaysOff<T>(q: Queue<T>, r: Queue<T>) {
    && (forall t :: t in r.waitingToSend ==> t in q.waitingToSend)
    && (forall t :: t in r.waitingToReceive ==> t in q.waitingToReceive)
    && (forall t :: t in r.wokenSenders ==> t in q.wokenSenders || t in q.waitingToSend)
    && (forall t :: t in r.wokenReceivers ==> t in q.wokenReceivers || t in q.waitingToReceive)
  }

  lemma PerformStaysOff<T>(q: Queue<T>, call: Call<T>)
    ensures StaysOff(q, Perform(q, call))
  {
  }

  lemma TryKeeps<T(!new)>(s: State<T>, t: Task, wait: bool)
    requires Inv(s) && Enabled(s, TryCall(t, wait))
    ensures Inv(Step(s, TryCall(t, wait)))
  {
    hide Listed, LocksOk, SizesOk, QueueCovered, Arrive, Perform;
    var a := Arrive(s.q, t);
    ArriveCounts(s.q, t, s.pcs);
    ArriveOff(s, t);
    if Possible(s.q, s.pcs[t].call) {
      var q := Perform(a, s.pcs[t].call);
      PerformCovers(s, t);
      PerformStaysOff(a, s.pcs[t].call);
      assert !OnList(q, t) && t !in q.wokenSenders && t !in q.wokenReceivers;
      LeaveKeepsListed(q, s.pcs, t, Outside);
      SectionKeepsLocks(s, t, q, Outside);
      SectionKeepsSizes(s, t, q, Outside);
      NoPlacing(s, t, q, Outside);
    } else {
      var pc := if wait then Unavailable(s.pcs[t].call) else Outside;
      ArriveCovers(s, t);
      LeaveKeepsListed(a, s.pcs, t, pc);
      TopCallOk(s, t);
      SectionKeepsLocks(s, t, a, pc);
      SectionKeepsSizes(s, t, a, pc);
      NoPlacing(s, t, a, pc);
    }
  }

  lemma ArriveOff<T(!new)>(s: State<T>, t: Task)
    requires !OnList(s.q, t)
    ensures var a := Arrive(s.q, t); !OnList(a, t) && t !in a.wokenSenders && t !in a.wokenReceivers
    ensures SameBut(s.q, Arrive(s.q, t))
  {
  }

  lemma TopCallOk<T(!new)>(s: State<T>, t: Task)
    requires SizesOk(s) && t in s.pcs && !s.pcs[t].Outside?
    ensures CallOk(s.q, s.pcs[t]) && |s.q.items| <= s.q.length
  {
  }

  /** Events of one task that leave the queue alone. */
  lemma QuietKeeps<T(!new)>(s: State<T>, t: Task, pc: Pc<T>)
    requires Inv(s) && Alone(s, t) && CallOk(s.q, pc) && HoldsLock(pc) == HoldsLock(s.pcs[t])
    requires Sleeper(s.pcs[t]) ==> Sleeper(pc) && pc.call == s.pcs[t].call
    requires pc.UnlockingRx? == s.pcs[t].UnlockingRx?
    requires pc.Placing? ==> CoveredFor(s.q, pc.call)
    ensures Inv(s.(pcs := s.pcs[t := pc]))
  {
    hide Listed, QueueCovered, CoveredFor, CallOk, Sleeper;
    StayKeepsListed(s.q, s.pcs, t, pc);
    QuietKeepsLocks(s, t, pc);
  }

  lemma QuietKeepsLocks<T(!new)>(s: State<T>, t: Task, pc: Pc<T>)
    requires LocksOk(s) && t in s.pcs && HoldsLock(pc) == HoldsLock(s.pcs[t])
    requires pc.UnlockingRx? == s.pcs[t].UnlockingRx?
    ensures LocksOk(s.(pcs := s.pcs[t := pc]))
  {
    hide HoldsLock;
    var r := s.(pcs := s.pcs[t := pc]);
    if forall u :: u in r.pcs ==> !HoldsLock(r.pcs[u]) {
      forall u | u in s.pcs ensures !HoldsLock(s.pcs[u]) {
        assert u in r.pcs && r.pcs[u] == if u == t then pc else s.pcs[u];
      }
    }
  }

  lemma BlockedCovers<T(!new)>(q: Queue<T>, call: Call<T>)
    requires Blocked(q, call)
    ensures CoveredFor(q, call)
  {
  }

  lemma LockKeeps<T(!new)>(s: State<T>, t: Task)
    requires Inv(s) && Enabled(s, LockQueue(t))
    ensures Inv(Step(s, LockQueue(t)))
  {
    hide Listed;
    var q := Lock(s.q);
    var pc := Locked(s.pcs[t].call);
    TopCallOk(s, t);
    LockKeepsListed(s.q, s.pcs);
    StayKeepsListed(q, s.pcs, t, pc);
    LockKeepsLocks(s, t);
    NoPlacing(s, t, q, pc);
    assert CallOk(s.q, pc);
    SectionKeepsSizes(s, t, q, pc);
  }

  lemma LockKeepsListed<T(!new)>(q: Queue<T>, pcs: map<Task, Pc<T>>)
    requires Listed(q, pcs)
    ensures Listed(Lock(q), pcs)
  {
  }

  lemma LockKeepsLocks<T(!new)>(s: State<T>, t: Task)
    requires LocksOk(s) && Alone(s, t) && s.pcs[t].Unavailable?
    ensures LocksOk(State(Lock(s.q), s.pcs[t := Locked(s.pcs[t].call)]))
    ensures s.q.txLock == UNLOCKED && s.q.rxLock == UNLOCKED
  {
    assert forall u :: u in s.pcs ==> !HoldsLock(s.pcs[u]);
    var pcs := s.pcs[t := Locked(s.pcs[t].call)];
    assert t in pcs && HoldsLock(pcs[t]);
  }

  // ---- taking a place on a wait list ----

  lemma PlaceAtKeeps<T>(q: Queue<T>, list: seq<Task>, t: Task)
    requires Distinct(list) && t !in list
    ensures Distinct(PlaceAt(q, list, t))
    ensures forall u :: u in PlaceAt(q, list, t) ==> u == t || u in list
  {
    hide InsertPos;
    var pos := InsertPos(ValuesOf(q, list), ValueOf(q, t));
    var r := PlaceAt(q, list, t);
    assert r == list[..pos] + [t] + list[pos..];
    assert forall i :: 0 <= i < |r| ==> r[i] == if i < pos then list[i] else if i == pos then t else list[i - 1];
  }

  lemma PlaceKeepsListed<T(!new)>(q: Queue<T>, pcs: map<Task, Pc<T>>, t: Task)
    requires Listed(q, pcs) && t in pcs && pcs[t].Placing?
    ensures var pc := UnlockingTx(pcs[t].call, false, true);
      Listed(if pcs[t].call.Sending? then PlaceSender(q, t) else PlaceReceiver(q, t), pcs[t := pc])
  {
    hide PlaceAt;
    assert t !in q.waitingToSend && t !in q.waitingToReceive;
    PlaceAtKeeps(q, q.waitingToSend, t);
    PlaceAtKeeps(q, q.waitingToReceive, t);
  }

  lemma PlaceKeepsSizes<T(!new)>(s: State<T>, t: Task)
    requires LocksOk(s) && SizesOk(s) && t in s.pcs && s.pcs[t].Placing?
    ensures var r := Step(s, PlaceTask(t)); LocksOk(r) && SizesOk(r)
  {
    hide PlaceAt, LocksOk;
    var pc := UnlockingTx(s.pcs[t].call, false, true);
    QuietKeepsLocks(s, t, pc);
    SameLocks(s.(pcs := s.pcs[t := pc]), Step(s, PlaceTask(t)).q);
    assert CallOk(s.q, s.pcs[t]);
  }

  lemma SameLocks<T(!new)>(s: State<T>, q: Queue<T>)
    requires LocksOk(s) && q.txLock == s.q.txLock && q.rxLock == s.q.rxLock
    ensures LocksOk(s.(q := q))
  {
  }

  lemma PlaceKeeps<T(!new)>(s: State<T>, t: Task)
    requires Inv(s) && Enabled(s, PlaceTask(t))
    ensures Inv(Step(s, PlaceTask(t)))
  {
    hide Listed, LocksOk, SizesOk, PlaceAt;
    var pc := UnlockingTx(s.pcs[t].call, false, true);
    PlaceKeepsListed(s.q, s.pcs, t);
    PlaceKeepsSizes(s, t);
    NoPlacing(s, t, Step(s, PlaceTask(t)).q, pc);
  }

  // ---- unlocking ----

  lemma UnlockKeepsLocks<T(!new)>(s: State<T>, t: Task, q: Queue<T>, pc: Pc<T>)
    requires LocksOk(s) && Alone(s, t) && HoldsLock(s.pcs[t]) && q.txLock == UNLOCKED
    requires if pc.UnlockingRx? then q.rxLock == s.q.rxLock else !HoldsLock(pc) && q.rxLock == UNLOCKED
    ensures LocksOk(State(q, s.pcs[t := pc]))
  {
    assert t in s.pcs[t := pc];
  }

  lemma LocksOf<T(!new)>(s: State<T>, t: Task)
    requires LocksOk(s) && t in s.pcs && HoldsLock(s.pcs[t])
    ensures s.pcs[t].UnlockingRx? ==> s.q.txLock == UNLOCKED
    ensures !s.pcs[t].UnlockingRx? ==> s.q.txLock != UNLOCKED
  {
  }

  lemma UnlockTxKeeps<T(!new)>(s: State<T>, t: Task)
    requires Inv(s) && Enabled(s, UnlockFirst(t))
    ensures Inv(Step(s, UnlockFirst(t)))
  {
    hide Listed, LocksOk, SizesOk, WakeReceivers;
    var pc := UnlockingRx(s.pcs[t].call, s.pcs[t].expired, s.pcs[t].placed);
    var q := WakeReceivers(s.q, s.q.txLock);
    WakeReceiversCounts(s.q, s.q.txLock, s.pcs);
    ListedItems(q, UnlockTx(s.q), s.pcs);
    StayKeepsListed(UnlockTx(s.q), s.pcs, t, pc);
    UnlockKeepsLocks(s, t, UnlockTx(s.q), pc);
    TopCallOk(s, t);
    SectionKeepsSizes(s, t, UnlockTx(s.q), pc);
    NoPlacing(s, t, UnlockTx(s.q), pc);
  }

  lemma UnlockRxKeeps<T(!new)>(s: State<T>, t: Task)
    requires Inv(s) && Enabled(s, UnlockSecond(t))
    ensures Inv(Step(s, UnlockSecond(t)))
  {
    hide Listed, LocksOk, SizesOk, WakeSenders;
    var pc := AfterUnlock(s.pcs[t]);
    var q := WakeSenders(s.q, s.q.rxLock);
    WakeSendersCounts(s.q, s.q.rxLock, s.pcs);
    ListedItems(q, UnlockRx(s.q), s.pcs);
    StayKeepsListed(UnlockRx(s.q), s.pcs, t, pc);
    LocksOf(s, t);
    UnlockKeepsLocks(s, t, UnlockRx(s.q), pc);
    TopCallOk(s, t);
    SectionKeepsSizes(s, t, UnlockRx(s.q), pc);
    NoPlacing(s, t, UnlockRx(s.q), pc);
  }

  // ---- interrupts and time-outs ----

  lemma WithoutKeepsListed<T(!new)>(q: Queue<T>, pcs: map<Task, Pc<T>>, t: Task)
    requires Listed(q, pcs)
    ensures Listed(q.(waitingToSend := Without(q.waitingToSend, t),
      waitingToReceive := Without(q.waitingToReceive, t)), pcs)
    ensures Without(q.waitingToSend, t) != [] ==> q.waitingToSend != []
    ensures Without(q.waitingToReceive, t) != [] ==> q.waitingToReceive != []
  {
    WithoutFacts(q.waitingToSend, t);
    WithoutFacts(q.waitingToReceive, t);
  }

  lemma {:induction false} WithoutFacts(list: seq<Task>, t: Task)
    requires Distinct(list)
    ensures Distinct(Without(list, t)) && t !in Without(list, t)
    ensures forall u :: u in Without(list, t) ==> u in list
  {
    if list != [] {
      var rest := list[1..];
      assert list[0] !in rest;
      WithoutFacts(rest, t);
    }
  }

  lemma TimeOutKeeps<T(!new)>(s: State<T>, t: Task)
    requires Inv(s) && Enabled(s, TimeOut(t))
    ensures Inv(Step(s, TimeOut(t)))
  {
    hide Listed, LocksOk;
    WithoutKeepsListed(s.q, s.pcs, t);
    SameLocks(s, Step(s, TimeOut(t)).q);
  }

  lemma PlacingLocks<T(!new)>(s: State<T>, t: Task)
    requires LocksOk(s) && t in s.pcs && s.pcs[t].Placing?
    ensures s.q.txLock != UNLOCKED && s.q.rxLock != UNLOCKED
  {
  }

  /** With the queue unlocked an interrupt wakes a waiting task itself; with the queue
      locked it leaves a count behind. */
  lemma IsrSendKeeps<T(!new)>(s: State<T>, x: T, position: Position)
    requires Inv(s) && Enabled(s, IsrSend(x, position))
    ensures Inv(Step(s, IsrSend(x, position)))
  {
    hide Listed, LocksOk, WakeReceiver;
    if CanPut(s.q, position) {
      PutGrows(s.q, x, position);
      forall t | t in s.pcs && s.pcs[t].Placing? ensures s.q.txLock != UNLOCKED {
        PlacingLocks(s, t);
      }
      LockRange(s);
      var r := Step(s, IsrSend(x, position));
      if s.q.txLock == UNLOCKED {
        SendCovers(s.q, x, position, s.pcs, Noted(s.q.txLock));
        SameLocks(s, r.q);
      } else {
        ListedItems(s.q, r.q, s.pcs);
        CountKeepsLocks(s, r.q);
      }
    }
  }

  lemma IsrReceiveKeeps<T(!new)>(s: State<T>)
    requires Inv(s) && Enabled(s, IsrReceive)
    ensures Inv(Step(s, IsrReceive))
  {
    hide Listed, LocksOk, WakeSender;
    if s.q.items != [] {
      forall t | t in s.pcs && s.pcs[t].Placing? ensures s.q.rxLock != UNLOCKED {
        PlacingLocks(s, t);
      }
      LockRange(s);
      var r := Step(s, IsrReceive);
      if s.q.rxLock == UNLOCKED {
        ReceiveCovers(s.q, s.pcs, Noted(s.q.rxLock));
        SameLocks(s, r.q);
      } else {
        ListedItems(s.q, r.q, s.pcs);
        CountKeepsLocks(s, r.q);
      }
    }
  }

  lemma LockRange<T(!new)>(s: State<T>)
    requires LocksOk(s)
    ensures UNLOCKED <= s.q.txLock <= 127 && UNLOCKED <= s.q.rxLock <= 127
  {
  }

  lemma CountKeepsLocks<T(!new)>(s: State<T>, q: Queue<T>)
    requires LocksOk(s) && UNLOCKED <= q.txLock <= 127 && UNLOCKED <= q.rxLock <= 127
    requires (q.txLock == UNLOCKED) == (s.q.txLock == UNLOCKED) && (q.rxLock == UNLOCKED) == (s.q.rxLock == UNLOCKED)
    ensures LocksOk(s.(q := q))
  {
  }

  lemma StepInv<T(!new)>(s: State<T>, e: Event<T>)
    requires Inv(s) && Enabled(s, e)
    ensures Inv(Step(s, e))
  {
    match e {
      case IsrSend(x, position) => IsrSendKeeps(s, x, position);
      case IsrReceive => IsrReceiveKeeps(s);
      case TryCall(t, wait) => TryKeeps(s, t, wait);
      case LockQueue(t) => LockKeeps(s, t);
      case PlaceTask(t) => PlaceKeeps(s, t);
      case UnlockFirst(t) => UnlockTxKeeps(s, t);
      case UnlockSecond(t) => UnlockRxKeeps(s, t);
      case TimeOut(t) => TimeOutKeeps(s, t);
      case _ => QuietStepKeeps(s, e);
    }
  }

  predicate Quiet<T>(e: Event<T>) {
    e.Begin? || e.CheckTimeOut? || e.CheckQueue? || e.LookAgain?
  }

  lemma QuietStepKeeps<T(!new)>(s: State<T>, e: Event<T>)
    requires Inv(s) && Enabled(s, e) && Quiet(e)
    ensures Inv(Step(s, e))
  {
    hide Listed, LocksOk, Covered, CoveredFor;
    var t := e.task;
    if e.CheckQueue? && Blocked(s.q, s.pcs[t].call) { BlockedCovers(s.q, s.pcs[t].call); }
    if !e.Begin? { TopCallOk(s, t); }
    QuietKeeps(s, t, Step(s, e).pcs[t]);
  }

  lemma {:induction false} RunInv<T(!new)>(states: seq<State<T>>, events: seq<Event<T>>, i: nat)
    requires Run(states, events) && Initial(states[0]) && i < |states|
    ensures Inv(states[i])
  {
    if i == 0 {
      InitialInv(states[0]);
    } else {
      RunInv(states, events, i - 1);
      StepInv(states[i - 1], events[i - 1]);
    }
  }

  // ---- no lost wakeup ----

  /** Ready to retry: about to run the top of the loop and not blocked. */
  predicate Ready<T>(s: State<T>, t: Task) {
    t in s.pcs && Sleeper(s.pcs[t]) && !OnList(s.q, t)
  }

  lemma WokenReady<T(!new)>(s: State<T>, t: Task)
    requires Listed(s.q, s.pcs) && (t in s.q.wokenReceivers || t in s.q.wokenSenders)
    ensures Ready(s, t)
  {
  }

  /** In every reachable state in which the queue is unlocked, if some task waits to
      receive then for every item there is a task that was woken for the queue, is ready
      to run and has not yet retried; and symmetrically for spaces. */
  lemma NoLostWakeup<T(!new)>(states: seq<State<T>>, events: seq<Event<T>>, i: nat)
    requires Run(states, events) && Initial(states[0]) && i < |states|
    requires states[i].q.txLock == UNLOCKED && states[i].q.rxLock == UNLOCKED
    ensures var s := states[i];
      && (s.q.waitingToReceive != [] ==> |s.q.items| <= |s.q.wokenReceivers|)
      && (s.q.waitingToSend != [] ==> s.q.length - |s.q.items| <= |s.q.wokenSenders|)
      && (forall t :: t in s.q.wokenReceivers ==> Ready(s, t) && !s.pcs[t].call.Sending?)
      && (forall t :: t in s.q.wokenSenders ==> Ready(s, t) && s.pcs[t].call.Sending?)
  {
    RunInv(states, events, i);
    var s := states[i];
    forall t | t in s.q.wokenReceivers || t in s.q.wokenSenders ensures Ready(s, t) {
      WokenReady(s, t);
    }
  }

  lemma NoLockMeansUnlocked<T(!new)>(s: State<T>)
    requires LocksOk(s) && forall t :: t in s.pcs ==> !HoldsLock(s.pcs[t])
    ensures s.q.txLock == UNLOCKED && s.q.rxLock == UNLOCKED
  {
  }

  /** No task is left asleep beside an item: once the queue is unlocked and every call is
      either finished or blocked, a waiting receiver means an empty queue and a waiting
      sender a full one. */
  lemma NoneSleepsBesideAnItem<T(!new)>(states: seq<State<T>>, events: seq<Event<T>>, i: nat)
    requires Run(states, events) && Initial(states[0]) && i < |states|
    requires forall t :: t in states[i].pcs ==> states[i].pcs[t].Outside? || OnList(states[i].q, t)
    requires forall t :: t in states[i].pcs ==> !HoldsLock(states[i].pcs[t])
    ensures states[i].q.waitingToReceive != [] ==> states[i].q.items == []
    ensures states[i].q.waitingToSend != [] ==> |states[i].q.items| == states[i].q.length
  {
    hide Listed, Run, Initial;
    RunInv(states, events, i);
    NoLockMeansUnlocked(states[i]);
    NoLostWakeup(states, events, i);
    NoneReady(states[i]);
  }

  lemma NoneReady<T(!new)>(s: State<T>)
    requires Listed(s.q, s.pcs)
    requires forall t :: t in s.pcs ==> s.pcs[t].Outside? || OnList(s.q, t)
    ensures s.q.wokenReceivers == {} && s.q.wokenSenders == {}
  {
    forall t ensures t !in s.q.wokenReceivers && t !in s.q.wokenSenders {
    }
  }
}
