/** Queue_t as queue.c keeps it: a ring of slots with a write index and a read index that
    rests one slot behind the front, refined to the bounded deque of QueueModel. */
module Queues {
  import opened Common
  import opened Rings
  import M = QueueModel

  /** The slot k places after the one the read index rests on. */
  function Slot(length: nat, readFrom: nat, k: nat): (slot: int) {
    if readFrom + k < length then readFrom + k
    else if readFrom + k < length + length then readFrom + k - length
    else readFrom + k - length - length
  }

  /** The n items of a ring of slots, front first: the read index rests one slot behind. */
  function Items<T>(slots: seq<T>, readFrom: nat, n: nat): (items: seq<T>)
    requires readFrom < |slots| && n <= |slots|
    ensures |items| == n
  {
    seq(n, k requires 0 <= k < n => slots[Slot(|slots|, readFrom, k + 1)])
  }

  /** Writing at the slot after the last item and counting it appends. */
  lemma WriteBack<T>(slots: seq<T>, readFrom: nat, n: nat, x: T)
    requires readFrom < |slots| && n < |slots|
    ensures var w := Slot(|slots|, readFrom, n + 1);
      && 0 <= w < |slots| && Slot(|slots|, readFrom, n + 2) == (if w + 1 >= |slots| then 0 else w + 1)
      && Items(slots[w := x], readFrom, n + 1) == Items(slots, readFrom, n) + [x]
  {
    var w := Slot(|slots|, readFrom, n + 1);
    var before, after := Items(slots, readFrom, n), Items(slots[w := x], readFrom, n + 1);
    forall k | 0 <= k < n ensures after[k] == before[k] {
      assert Slot(|slots|, readFrom, k + 1) != w;
    }
  }

  /** Writing at the read index and stepping it back prepends. */
  lemma WriteFront<T>(slots: seq<T>, readFrom: nat, n: nat, x: T)
    requires readFrom < |slots| && n < |slots|
    ensures var r := if readFrom == 0 then |slots| - 1 else readFrom - 1;
      && Slot(|slots|, r, n + 2) == Slot(|slots|, readFrom, n + 1)
      && Items(slots[readFrom := x], r, n + 1) == [x] + Items(slots, readFrom, n)
  {
    var r := if readFrom == 0 then |slots| - 1 else readFrom - 1;
    var before, after := Items(slots, readFrom, n), Items(slots[readFrom := x], r, n + 1);
    forall k | 0 <= k < n ensures after[k + 1] == before[k] {
      assert Slot(|slots|, r, k + 2) == Slot(|slots|, readFrom, k + 1) != readFrom;
    }
    assert after[0] == x;
  }

  /** Stepping the read index on reads the front item and drops it. */
  lemma ReadFront<T>(slots: seq<T>, readFrom: nat, n: nat)
    requires readFrom < |slots| && 0 < n <= |slots|
    ensures var r := if readFrom + 1 >= |slots| then 0 else readFrom + 1;
      && slots[r] == Items(slots, readFrom, n)[0]
      && Slot(|slots|, r, n) == Slot(|slots|, readFrom, n + 1)
      && Items(slots, r, n - 1) == Items(slots, readFrom, n)[1..]
  {
    var r := if readFrom + 1 >= |slots| then 0 else readFrom + 1;
    var before, after := Items(slots, readFrom, n), Items(slots, r, n - 1);
    forall k | 0 <= k < n - 1 ensures after[k] == before[k + 1] {
      assert Slot(|slots|, r, k + 1) == Slot(|slots|, readFrom, k + 2);
    }
  }

  /** Items are whole slots: pointers advance by uxItemSize bytes, indices by one. */
  class RingQueue<T(0)> {
    const uxLength: nat
    const storage: array<T>
    var pcWriteTo: nat
    var pcReadFrom: nat
    var uxMessagesWaiting: nat
    var cTxLock: int
    var cRxLock: int
    var xTasksWaitingToSend: seq<Task>
    var xTasksWaitingToReceive: seq<Task>
    var itemValues: map<Task, nat>
    ghost var wokenSenders: set<Task>
    ghost var wokenReceivers: set<Task>

    ghost predicate Valid()
      reads this
    {
      && 0 < uxLength == storage.Length
      && pcReadFrom < uxLength
      && uxMessagesWaiting <= uxLength
      && pcWriteTo == Slot(uxLength, pcReadFrom, uxMessagesWaiting + 1)
    }

    ghost function Contents(): (s: seq<T>)
      requires Valid()
      reads this, storage
      ensures |s| == uxMessagesWaiting
    {
      Items(storage[..], pcReadFrom, uxMessagesWaiting)
    }

    ghost function Abs(): (q: M.Queue<T>)
      requires Valid()
      reads this, storage
    {
      M.Queue(Contents(), uxLength, cTxLock, cRxLock, xTasksWaitingToSend, xTasksWaitingToReceive, itemValues,
              wokenSenders, wokenReceivers)
    }

    /** xQueueGenericReset on a new queue. */
    constructor (length: nat)
      requires length > 0
      ensures Valid() && fresh(storage) && uxLength == length
      ensures Abs() == M.Queue([], length, M.UNLOCKED, M.UNLOCKED, [], [], map[], {}, {})
    {
      uxLength := length;
      storage := new T[length];
      pcWriteTo := 0;
      pcReadFrom := length - 1;
      uxMessagesWaiting := 0;
      cTxLock, cRxLock := M.UNLOCKED, M.UNLOCKED;
      xTasksWaitingToSend, xTasksWaitingToReceive, itemValues := [], [], map[];
      wokenSenders, wokenReceivers := {}, {};
    }

    /** prvCopyDataToQueue with a non-zero item size. */
    method CopyDataToQueue(x: T, position: M.Position)
      requires Valid() && M.CanPut(Abs(), position) && M.MayUse(Abs(), position)
      modifies this`pcWriteTo, this`pcReadFrom, this`uxMessagesWaiting, storage
      ensures Valid()
      ensures Contents() == M.Put(old(Contents()), x, position)
    {
      hide Items, Slot;
      var messages := uxMessagesWaiting;
      ghost var slots := storage[..];
      if position == M.Back {
        WriteBack(slots, pcReadFrom, messages, x);
        storage[pcWriteTo] := x;
        assert storage[..] == slots[pcWriteTo := x];
        pcWriteTo := pcWriteTo + 1;
        if pcWriteTo >= uxLength {
          pcWriteTo := 0;
        }
      } else {
        WriteFront(slots, pcReadFrom, if position == M.Front then messages else 0, x);
        storage[pcReadFrom] := x;
        assert storage[..] == slots[pcReadFrom := x];
        if pcReadFrom == 0 {
          pcReadFrom := uxLength - 1;
        } else {
          pcReadFrom := pcReadFrom - 1;
        }
        if position == M.Overwrite {
          if messages > 0 {
            messages := messages - 1;
          }
        }
      }
      uxMessagesWaiting := messages + 1;
    }

    /** prvCopyDataFromQueue advances the read index; the caller settles the count. */
    method CopyDataFromQueue() returns (x: T)
      requires Valid() && uxMessagesWaiting > 0
      modifies this`pcReadFrom
      ensures x == old(Contents())[0]
      ensures pcReadFrom < uxLength && pcWriteTo == Slot(uxLength, pcReadFrom, uxMessagesWaiting)
      ensures Items(storage[..], pcReadFrom, uxMessagesWaiting - 1) == old(Contents())[1..]
    {
      ReadFront(storage[..], pcReadFrom, uxMessagesWaiting);
      pcReadFrom := pcReadFrom + 1;
      if pcReadFrom >= uxLength {
        pcReadFrom := 0;
      }
      x := storage[pcReadFrom];
    }

    /** xTaskRemoveFromEventList on xTasksWaitingToReceive, if any task is on it. */
    method WakeReceiver()
      requires Valid()
      modifies this`xTasksWaitingToReceive, this`wokenReceivers
      ensures Valid() && Abs() == M.WakeReceiver(old(Abs()))
    {
      if xTasksWaitingToReceive != [] {
        wokenReceivers := wokenReceivers + {xTasksWaitingToReceive[0]};
        xTasksWaitingToReceive := xTasksWaitingToReceive[1..];
      }
    }

    method WakeSender()
      requires Valid()
      modifies this`xTasksWaitingToSend, this`wokenSenders
      ensures Valid() && Abs() == M.WakeSender(old(Abs()))
    {
      if xTasksWaitingToSend != [] {
        wokenSenders := wokenSenders + {xTasksWaitingToSend[0]};
        xTasksWaitingToSend := xTasksWaitingToSend[1..];
      }
    }

    function ItemValue(t: Task): nat
      reads this
    {
      if t in itemValues then itemValues[t] else 0
    }

    /** t stands behind every task with a smaller or equal value that list begins with, and in
        front of the first with a larger one. */
    ghost predicate PlacedAt(list: seq<Task>, t: Task, placed: seq<Task>, pos: nat)
      reads this
    {
      && pos <= |list| && placed == list[..pos] + [t] + list[pos..]
      && (forall i :: 0 <= i < pos ==> ItemValue(list[i]) <= ItemValue(t))
      && (pos < |list| ==> ItemValue(t) < ItemValue(list[pos]))
    }

    /** The scan of vListInsert over the item values of a wait list. */
    method Place(list: seq<Task>, t: Task) returns (placed: seq<Task>, ghost pos: nat)
      requires Valid()
      ensures placed == M.PlaceAt(Abs(), list, t) && PlacedAt(list, t, placed, pos)
    {
      ghost var values := M.ValuesOf(Abs(), list);
      var i := 0;
      while i < |list| && ItemValue(list[i]) <= ItemValue(t)
        invariant i <= |list| && forall j :: 0 <= j < i ==> values[j] <= ItemValue(t)
      {
        i := i + 1;
      }
      InsertPosUnique(values, ItemValue(t), i);
      placed, pos := list[..i] + [t] + list[i..], i;
    }

    /** vTaskPlaceOnEventList for a task that waits to send. */
    method PlaceSender(t: Task)
      requires Valid()
      modifies this`xTasksWaitingToSend
      ensures Valid() && Abs() == M.PlaceSender(old(Abs()), t)
      ensures exists pos :: PlacedAt(old(xTasksWaitingToSend), t, xTasksWaitingToSend, pos)
    {
      ghost var pos: nat;
      xTasksWaitingToSend, pos := Place(xTasksWaitingToSend, t);
      assert PlacedAt(old(xTasksWaitingToSend), t, xTasksWaitingToSend, pos);
    }

    /** And for one that waits to receive. */
    method PlaceReceiver(t: Task)
      requires Valid()
      modifies this`xTasksWaitingToReceive
      ensures Valid() && Abs() == M.PlaceReceiver(old(Abs()), t)
      ensures exists pos :: PlacedAt(old(xTasksWaitingToReceive), t, xTasksWaitingToReceive, pos)
    {
      ghost var pos: nat;
      xTasksWaitingToReceive, pos := Place(xTasksWaitingToReceive, t);
      assert PlacedAt(old(xTasksWaitingToReceive), t, xTasksWaitingToReceive, pos);
    }

    /** The section at the top of the loop of xQueueGenericSend. */
    method TrySend(x: T, position: M.Position) returns (sent: bool)
      requires Valid() && M.MayUse(Abs(), position)
      modifies this, storage
      ensures Valid()
      ensures sent == M.CanPut(old(Abs()), position)
      ensures Abs() == if sent then M.Send(old(Abs()), x, position) else old(Abs())
    {
      if uxMessagesWaiting < uxLength || position == M.Overwrite {
        CopyDataToQueue(x, position);
        WakeReceiver();
        return true;
      }
      return false;
    }

    /** The section at the top of the loop of xQueueReceive. */
    method TryReceive() returns (received: bool, x: T)
      requires Valid()
      modifies this
      ensures Valid()
      ensures received == (old(Contents()) != []) && (received ==> x == old(Contents())[0])
      ensures Abs() == M.Receive(old(Abs()))
    {
      var messages := uxMessagesWaiting;
      if messages > 0 {
        x := CopyDataFromQueue();
        uxMessagesWaiting := messages - 1;
        WakeSender();
        return true, x;
      }
      return false, *;
    }

    /** The section at the top of the loop of xQueuePeek: the read index is put back. */
    method TryPeek() returns (received: bool, x: T)
      requires Valid()
      modifies this
      ensures Valid()
      ensures received == (old(Contents()) != []) && (received ==> x == old(Contents())[0])
      ensures Abs() == if received then M.Peek(old(Abs())) else old(Abs())
    {
      var messages := uxMessagesWaiting;
      if messages > 0 {
        var originalReadPosition := pcReadFrom;
        x := CopyDataFromQueue();
        pcReadFrom := originalReadPosition;
        WakeReceiver();
        return true, x;
      }
      return false, *;
    }

    /** xQueueGenericSendFromISR. */
    method SendFromISR(x: T, position: M.Position) returns (sent: bool)
      requires Valid() && M.MayUse(Abs(), position)
      modifies this, storage
      ensures Valid()
      ensures sent == M.CanPut(old(Abs()), position)
      ensures Abs() == M.SendFromISR(old(Abs()), x, position)
    {
      if uxMessagesWaiting < uxLength || position == M.Overwrite {
        var txLock := cTxLock;
        CopyDataToQueue(x, position);
        if txLock == M.UNLOCKED {
          WakeReceiver();
        } else {
          cTxLock := M.NextLock(txLock);
        }
        return true;
      }
      return false;
    }

    /** xQueueReceiveFromISR. */
    method ReceiveFromISR() returns (received: bool, x: T)
      requires Valid()
      modifies this
      ensures Valid()
      ensures received == (old(Contents()) != []) && (received ==> x == old(Contents())[0])
      ensures Abs() == M.ReceiveFromISR(old(Abs()))
    {
      var messages := uxMessagesWaiting;
      if messages > 0 {
        var rxLock := cRxLock;
        x := CopyDataFromQueue();
        uxMessagesWaiting := messages - 1;
        if rxLock == M.UNLOCKED {
          WakeSender();
        } else {
          cRxLock := M.NextLock(rxLock);
        }
        return true, x;
      }
      return false, *;
    }

    /** prvLockQueue. */
    method LockQueue()
      requires Valid()
      modifies this`cTxLock, this`cRxLock
      ensures Valid() && Abs() == M.Lock(old(Abs()))
    {
      if cRxLock == M.UNLOCKED {
        cRxLock := M.LOCKED_UNMODIFIED;
      }
      if cTxLock == M.UNLOCKED {
        cTxLock := M.LOCKED_UNMODIFIED;
      }
    }

    /** The first critical section of prvUnlockQueue. */
    method UnlockTx()
      requires Valid()
      modifies this`cTxLock, this`xTasksWaitingToReceive, this`wokenReceivers
      ensures Valid() && Abs() == M.UnlockTx(old(Abs()))
    {
      var txLock := cTxLock;
      while txLock > M.LOCKED_UNMODIFIED
        invariant Valid()
        invariant M.WakeReceivers(Abs(), txLock) == M.WakeReceivers(old(Abs()), old(cTxLock))
      {
        if xTasksWaitingToReceive != [] {
          WakeReceiver();
        } else {
          break;
        }
        txLock := txLock - 1;
      }
      cTxLock := M.UNLOCKED;
    }

    /** The second. */
    method UnlockRx()
      requires Valid()
      modifies this`cRxLock, this`xTasksWaitingToSend, this`wokenSenders
      ensures Valid() && Abs() == M.UnlockRx(old(Abs()))
    {
      var rxLock := cRxLock;
      while rxLock > M.LOCKED_UNMODIFIED
        invariant Valid()
        invariant M.WakeSenders(Abs(), rxLock) == M.WakeSenders(old(Abs()), old(cRxLock))
      {
        if xTasksWaitingToSend != [] {
          WakeSender();
          rxLock := rxLock - 1;
        } else {
          break;
        }
      }
      cRxLock := M.UNLOCKED;
    }
  }
}
