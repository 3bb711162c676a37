/** The critical sections of queue.c on a queue that is in no set: a bounded deque, its
    two lock counts and its two wait lists. */
module QueueModel {
  import opened Common
  import opened Rings

  /** queueUNLOCKED and queueLOCKED_UNMODIFIED. */
  const UNLOCKED: int := -1
  const LOCKED_UNMODIFIED: int := 0

  datatype Position = Back | Front | Overwrite

  /** wokenSenders and wokenReceivers are bookkeeping of the proof: the tasks taken off a
      wait list by an event that have not yet run the section at the top of their loop. */
  datatype Queue<T> = Queue(
    items: seq<T>,
    length: nat,
    txLock: int,
    rxLock: int,
    waitingToSend: seq<Task>,
    waitingToReceive: seq<Task>,
    values: map<Task, nat>,
    wokenSenders: set<Task>,
    wokenReceivers: set<Task>)

  /** prvCopyDataToQueue on the abstract deque. Only queues of length 1 may be overwritten. */
  function Put<T>(items: seq<T>, x: T, position: Position): seq<T> {
    match position
    case Back => items + [x]
    case Front => [x] + items
    case Overwrite => [x]
  }

  /** The source asserts that only queues of length 1 are overwritten. */
  predicate MayUse<T>(q: Queue<T>, position: Position) {
    position == Overwrite ==> q.length == 1
  }

  predicate CanPut<T>(q: Queue<T>, position: Position) {
    |q.items| < q.length || position == Overwrite
  }

  /** xTaskRemoveFromEventList on xTasksWaitingToReceive, if any task is on it. */
  function WakeReceiver<T>(q: Queue<T>): Queue<T> {
    if q.waitingToReceive == [] then q
    else q.(waitingToReceive := q.waitingToReceive[1..], wokenReceivers := q.wokenReceivers + {q.waitingToReceive[0]})
  }

  function WakeSender<T>(q: Queue<T>): Queue<T> {
    if q.waitingToSend == [] then q
    else q.(waitingToSend := q.waitingToSend[1..], wokenSenders := q.wokenSenders + {q.waitingToSend[0]})
  }

  /** The successful section of xQueueGenericSend. */
  function Send<T>(q: Queue<T>, x: T, position: Position): Queue<T> {
    WakeReceiver(q.(items := Put(q.items, x, position)))
  }

  /** The successful section of xQueueReceive and xQueueSemaphoreTake. */
  function Receive<T>(q: Queue<T>): Queue<T> {
    if q.items == [] then q else WakeSender(q.(items := q.items[1..]))
  }

  /** The successful section of xQueuePeek: the item stays, so the next reader is woken. */
  function Peek<T>(q: Queue<T>): Queue<T> {
    WakeReceiver(q)
  }

  /** ( int8_t ) ( lock + 1 ). */
  function NextLock(lock: int): int {
    if lock == 127 then -128 else lock + 1
  }

  /** Interrupt operations a lock count has noted and not yet turned into wakeups. */
  function Noted(lock: int): nat {
    if lock > 0 then lock else 0
  }

  /** xQueueGenericSendFromISR and xQueueGiveFromISR. */
  function SendFromISR<T>(q: Queue<T>, x: T, position: Position): Queue<T> {
    if !CanPut(q, position) then q
    else
      var q1 := q.(items := Put(q.items, x, position));
      if q.txLock == UNLOCKED then WakeReceiver(q1) else q1.(txLock := NextLock(q.txLock))
  }

  /** xQueueReceiveFromISR. */
  function ReceiveFromISR<T>(q: Queue<T>): Queue<T> {
    if q.items == [] then q
    else
      var q1 := q.(items := q.items[1..]);
      if q.rxLock == UNLOCKED then WakeSender(q1) else q1.(rxLock := NextLock(q.rxLock))
  }

  /** prvLockQueue. */
  function Lock<T>(q: Queue<T>): Queue<T> {
    q.(txLock := if q.txLock == UNLOCKED then LOCKED_UNMODIFIED else q.txLock,
       rxLock := if q.rxLock == UNLOCKED then LOCKED_UNMODIFIED else q.rxLock)
  }

  /** The first loop of prvUnlockQueue wakes one receiver for every count, until either
      runs out. */
  function WakeReceivers<T>(q: Queue<T>, count: int): Queue<T>
    decreases count
  {
    if count <= LOCKED_UNMODIFIED || q.waitingToReceive == [] then q else WakeReceivers(WakeReceiver(q), count - 1)
  }

  function WakeSenders<T>(q: Queue<T>, count: int): Queue<T>
    decreases count
  {
    if count <= LOCKED_UNMODIFIED || q.waitingToSend == [] then q else WakeSenders(WakeSender(q), count - 1)
  }

  /** The two critical sections of prvUnlockQueue. */
  function UnlockTx<T>(q: Queue<T>): Queue<T> {
    WakeReceivers(q, q.txLock).(txLock := UNLOCKED)
  }

  function UnlockRx<T>(q: Queue<T>): Queue<T> {
    WakeSenders(q, q.rxLock).(rxLock := UNLOCKED)
  }

  /** The value of the task's xEventListItem: the smaller, the higher its priority. */
  function ValueOf<T>(q: Queue<T>, t: Task): nat {
    if t in q.values then q.values[t] else 0
  }

  function ValuesOf<T>(q: Queue<T>, list: seq<Task>): (v: seq<nat>)
    ensures |v| == |list| && forall i :: 0 <= i < |list| ==> v[i] == ValueOf(q, list[i])
  {
    seq(|list|, i requires 0 <= i < |list| => ValueOf(q, list[i]))
  }

  /** vTaskPlaceOnEventList: in item value order, which is priority order. */
  function PlaceAt<T>(q: Queue<T>, list: seq<Task>, t: Task): seq<Task> {
    var pos := InsertPos(ValuesOf(q, list), ValueOf(q, t));
    list[..pos] + [t] + list[pos..]
  }

  function PlaceSender<T>(q: Queue<T>, t: Task): Queue<T> {
    q.(waitingToSend := PlaceAt(q, q.waitingToSend, t))
  }

  function PlaceReceiver<T>(q: Queue<T>, t: Task): Queue<T> {
    q.(waitingToReceive := PlaceAt(q, q.waitingToReceive, t))
  }

  // ---- the deque ----

  /** Sending n items to the back of an empty queue and receiving n returns them in order. */
  function SendAll<T>(items: seq<T>, xs: seq<T>): seq<T>
    decreases |xs|
  {
    if xs == [] then items else SendAll(Put(items, xs[0], Back), xs[1..])
  }

  lemma {:induction false} FirstInFirstOut<T>(items: seq<T>, xs: seq<T>)
    ensures SendAll(items, xs) == items + xs
    decreases |xs|
  {
    if xs == [] {
      assert items + [] == items;
    } else {
      FirstInFirstOut(items + [xs[0]], xs[1..]);
      assert items + [xs[0]] + xs[1..] == items + xs;
    }
  }

  function SendAllFront<T>(items: seq<T>, xs: seq<T>): seq<T>
    decreases |xs|
  {
    if xs == [] then items else SendAllFront(Put(items, xs[0], Front), xs[1..])
  }

  function Reversed<T>(xs: seq<T>): (r: seq<T>)
    ensures |r| == |xs| && forall i :: 0 <= i < |xs| ==> r[i] == xs[|xs| - 1 - i]
  {
    seq(|xs|, i requires 0 <= i < |xs| => xs[|xs| - 1 - i])
  }

  /** Any number of items sent to the front come out last in, first out, before the rest. */
  lemma {:induction false} LastInFirstOut<T>(items: seq<T>, xs: seq<T>)
    ensures SendAllFront(items, xs) == Reversed(xs) + items
    decreases |xs|
  {
    if xs == [] {
      assert Reversed(xs) + items == items;
    } else {
      LastInFirstOut([xs[0]] + items, xs[1..]);
      assert Reversed(xs) == Reversed(xs[1..]) + [xs[0]];
      assert Reversed(xs[1..]) + ([xs[0]] + items) == Reversed(xs) + items;
    }
  }
}
