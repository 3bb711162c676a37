/** A window in which a queue is locked: interrupts only count, unlocking catches up, and
    the width of the counts says how much of that works. */
module QueueWindow {
  import opened Common
  import opened Rings
  import opened QueueModel

  // ---- waking in closed form ----

  function Elems(ts: seq<Task>): set<Task> {
    set t | t in ts
  }

  /** n wakeups take the first n tasks off the list, or all. */
  lemma {:induction false} WakeReceiversTakes<T>(q: Queue<T>, count: int)
    ensures var k := Min(Noted(count), |q.waitingToReceive|);
      WakeReceivers(q, count) ==
        q.(waitingToReceive := q.waitingToReceive[k..],
          wokenReceivers := q.wokenReceivers + Elems(q.waitingToReceive[..k]))
    decreases count
  {
    hide Elems;
    var w := q.waitingToReceive;
    if count <= LOCKED_UNMODIFIED || w == [] {
      NoElems(w, q.wokenReceivers);
    } else {
      WakeReceiversTakes(WakeReceiver(q), count - 1);
      FirstElems(w, Min(count, |w|), q.wokenReceivers);
    }
  }

  lemma {:induction false} WakeSendersTakes<T>(q: Queue<T>, count: int)
    ensures var k := Min(Noted(count), |q.waitingToSend|);
      WakeSenders(q, count) == q.(waitingToSend := q.waitingToSend[k..],
        wokenSenders := q.wokenSenders + Elems(q.waitingToSend[..k]))
    decreases count
  {
    hide Elems;
    var w := q.waitingToSend;
    if count <= LOCKED_UNMODIFIED || w == [] {
      NoElems(w, q.wokenSenders);
    } else {
      WakeSendersTakes(WakeSender(q), count - 1);
      FirstElems(w, Min(count, |w|), q.wokenSenders);
    }
  }

  lemma NoElems(w: seq<Task>, woken: set<Task>)
    ensures w[0..] == w && woken + Elems(w[..0]) == woken
  {
  }

  lemma FirstElems(w: seq<Task>, k: nat, woken: set<Task>)
    requires 0 < k <= |w|
    ensures w[1..][k - 1..] == w[k..] && woken + {w[0]} + Elems(w[1..][..k - 1]) == woken + Elems(w[..k])
  {
    assert w[..k] == [w[0]] + w[1..][..k - 1];
  }

  /** One wakeup more at the end. */
  lemma OneMoreElem(w: seq<Task>, k: nat, woken: set<Task>)
    requires k < |w|
    ensures woken + Elems(w[..k]) + {w[k]} == woken + Elems(w[..k + 1]) && w[k..][0] == w[k]
      && w[k..][1..] == w[k + 1..]
  {
    assert w[..k + 1] == w[..k] + [w[k]];
  }

  // ---- a locked window ----

  datatype IsrOp<T> = IsrSend(x: T, position: Position) | IsrReceive

  function IsrStep<T>(q: Queue<T>, op: IsrOp<T>): Queue<T> {
    match op
    case IsrSend(x, position) => SendFromISR(q, x, position)
    case IsrReceive => ReceiveFromISR(q)
  }

  function IsrRun<T>(q: Queue<T>, ops: seq<IsrOp<T>>): Queue<T> {
    if ops == [] then q else IsrStep(IsrRun(q, ops[..|ops| - 1]), ops[|ops| - 1])
  }

  /** prvUnlockQueue as a whole. */
  function Unlock<T>(q: Queue<T>): Queue<T> {
    UnlockRx(UnlockTx(q))
  }

  /** What unlocking leaves, both counts being caught up with. */
  lemma UnlockTakes<T>(q: Queue<T>)
    ensures var (k, l) := (Min(Noted(q.txLock), |q.waitingToReceive|), Min(Noted(q.rxLock), |q.waitingToSend|));
      Unlock(q) == q.(txLock := UNLOCKED, rxLock := UNLOCKED,
        waitingToReceive := q.waitingToReceive[k..],
          wokenReceivers := q.wokenReceivers + Elems(q.waitingToReceive[..k]),
        waitingToSend := q.waitingToSend[l..], wokenSenders := q.wokenSenders + Elems(q.waitingToSend[..l]))
  {
    WakeReceiversTakes(q, q.txLock);
    WakeSendersTakes(UnlockTx(q), q.rxLock);
  }

  /** An interrupt that only counts, caught up with, is one that wakes. */
  lemma SendCatchesUp<T>(q: Queue<T>, x: T, position: Position)
    requires 0 <= q.txLock < 127 && 0 <= q.rxLock
    ensures Unlock(SendFromISR(q, x, position)) == SendFromISR(Unlock(q), x, position)
  {
    hide Elems, Unlock, Put;
    UnlockTakes(q);
    UnlockTakes(SendFromISR(q, x, position));
    var (w, k) := (q.waitingToReceive, Min(q.txLock, |q.waitingToReceive|));
    if k < |w| { OneMoreElem(w, k, q.wokenReceivers); }
  }

  lemma ReceiveCatchesUp<T>(q: Queue<T>)
    requires 0 <= q.txLock && 0 <= q.rxLock < 127
    ensures Unlock(ReceiveFromISR(q)) == ReceiveFromISR(Unlock(q))
  {
    hide Elems, Unlock;
    UnlockTakes(q);
    UnlockTakes(ReceiveFromISR(q));
    var (w, k) := (q.waitingToSend, Min(q.rxLock, |q.waitingToSend|));
    if k < |w| { OneMoreElem(w, k, q.wokenSenders); }
  }

  function SendsIn<T>(ops: seq<IsrOp<T>>): nat {
    if ops == [] then 0 else SendsIn(ops[..|ops| - 1]) + (if ops[|ops| - 1].IsrSend? then 1 else 0)
  }

  function ReceivesIn<T>(ops: seq<IsrOp<T>>): nat {
    if ops == [] then 0 else ReceivesIn(ops[..|ops| - 1]) + (if ops[|ops| - 1].IsrReceive? then 1 else 0)
  }

  /** Every operation counts at most one, on the lock of its kind. */
  lemma {:induction false} CountsBelow<T>(q: Queue<T>, ops: seq<IsrOp<T>>)
    requires q.txLock == LOCKED_UNMODIFIED && q.rxLock == LOCKED_UNMODIFIED
    requires SendsIn(ops) < 128 && ReceivesIn(ops) < 128
    ensures 0 <= IsrRun(q, ops).txLock <= SendsIn(ops) && 0 <= IsrRun(q, ops).rxLock <= ReceivesIn(ops)
  {
    hide Put, CanPut;
    if ops != [] {
      CountsBelow(q, ops[..|ops| - 1]);
    }
  }

  lemma LockUnlock<T>(q: Queue<T>)
    requires q.txLock == UNLOCKED && q.rxLock == UNLOCKED
    ensures Unlock(Lock(q)) == q
  {
    assert UnlockTx(Lock(q)) == Lock(q).(txLock := UNLOCKED);
  }

  /** A locked window is not to be seen afterwards: fewer than 128 interrupt sends and fewer
      than 128 receives, in any order while the queue is locked, caught up with by unlocking,
      leave the queue as the same interrupts leave the unlocked queue: items, wait lists and
      wakeups. */
  lemma {:induction false} LockedWindowCatchesUp<T>(q: Queue<T>, ops: seq<IsrOp<T>>)
    requires q.txLock == UNLOCKED && q.rxLock == UNLOCKED && SendsIn(ops) < 128 && ReceivesIn(ops) < 128
    ensures Unlock(IsrRun(Lock(q), ops)) == IsrRun(q, ops)
  {
    hide Unlock, SendFromISR, ReceiveFromISR;
    if ops == [] {
      LockUnlock(q);
    } else {
      var (front, last) := (ops[..|ops| - 1], ops[|ops| - 1]);
      LockedWindowCatchesUp(q, front);
      CountsBelow(Lock(q), front);
      match last {
        case IsrSend(x, position) => SendCatchesUp(IsrRun(Lock(q), front), x, position);
        case IsrReceive => ReceiveCatchesUp(IsrRun(Lock(q), front));
      }
    }
  }

  // ---- the width of the lock counts ----

  /** Interrupt sends to the back of a queue. */
  function IsrSends<T>(q: Queue<T>, xs: seq<T>): Queue<T> {
    if xs == [] then q else SendFromISR(IsrSends(q, xs[..|xs| - 1]), xs[|xs| - 1], Back)
  }

  lemma {:induction false} IsrSendsCount<T>(q: Queue<T>, xs: seq<T>)
    requires q.txLock == LOCKED_UNMODIFIED && |q.items| + |xs| <= q.length && |xs| < 256
    ensures IsrSends(q, xs) == q.(items := q.items + xs, txLock := if |xs| < 128 then |xs| else |xs| - 256)
  {
    if xs == [] {
      assert q.items + xs == q.items;
    } else {
      var front := xs[..|xs| - 1];
      IsrSendsCount(q, front);
      assert q.items + xs == q.items + front + [xs[|xs| - 1]];
    }
  }

  function IsrReceives<T>(q: Queue<T>, n: nat): Queue<T> {
    if n == 0 then q else ReceiveFromISR(IsrReceives(q, n - 1))
  }

  lemma {:induction false} IsrReceivesCount<T>(q: Queue<T>, n: nat)
    requires q.rxLock == LOCKED_UNMODIFIED && n <= |q.items| && n < 256
    ensures IsrReceives(q, n) == q.(items := q.items[n..], rxLock := if n < 128 then n else n - 256)
  {
    if n > 0 {
      IsrReceivesCount(q, n - 1);
      assert q.items[n - 1..][1..] == q.items[n..];
    }
  }

  lemma {:induction false} ElemsCount(ts: seq<Task>)
    requires Distinct(ts)
    ensures |Elems(ts)| == |ts|
  {
    if ts != [] {
      var rest := ts[1..];
      assert forall i :: 0 <= i < |rest| ==> rest[i] == ts[i + 1];
      ElemsCount(rest);
      assert Elems(ts) == {ts[0]} + Elems(rest) && ts[0] !in Elems(rest);
    }
  }

  lemma FirstCount(w: seq<Task>, k: nat)
    requires Distinct(w) && k <= |w|
    ensures |{} + Elems(w[..k])| == k && (k < |w| ==> w[k..] != []) && (k == |w| ==> w[k..] == [])
  {
    ElemsCount(w[..k]);
    assert {} + Elems(w[..k]) == Elems(w[..k]);
  }

  /** Why a locked window must see fewer than 128 interrupt sends: 128 to 255 of them wrap
      the int8_t count to a negative value, and unlocking then wakes no one. */
  lemma WakeupsKeptExactlyBelow128<T>(q: Queue<T>, xs: seq<T>)
    requires q.txLock == LOCKED_UNMODIFIED && q.items == [] && |xs| <= q.length && 0 < |xs| < 256
    requires Distinct(q.waitingToReceive) && q.wokenReceivers == {} && q.waitingToReceive != []
    ensures var r := UnlockTx(IsrSends(q, xs));
      (r.waitingToReceive == [] || |r.items| <= |r.wokenReceivers|) == (|xs| < 128)
  {
    hide Distinct, Elems;
    IsrSendsCount(q, xs);
    var locked := IsrSends(q, xs);
    WakeReceiversTakes(locked, locked.txLock);
    FirstCount(q.waitingToReceive, Min(Noted(locked.txLock), |q.waitingToReceive|));
  }

  /** And the same bound on interrupt receives: from a full queue, no waiting sender is left
      without a wakeup for a free space if and only if they are fewer than 128. */
  lemma SpacesKeptExactlyBelow128<T>(q: Queue<T>, n: nat)
    requires q.rxLock == LOCKED_UNMODIFIED && |q.items| == q.length && 0 < n <= q.length && n < 256
    requires Distinct(q.waitingToSend) && q.wokenSenders == {} && q.waitingToSend != []
    ensures var r := UnlockRx(IsrReceives(q, n));
      (r.waitingToSend == [] || r.length - |r.items| <= |r.wokenSenders|) == (n < 128)
  {
    hide Distinct, Elems;
    IsrReceivesCount(q, n);
    var locked := IsrReceives(q, n);
    WakeSendersTakes(locked, locked.rxLock);
    FirstCount(q.waitingToSend, Min(Noted(locked.rxLock), |q.waitingToSend|));
  }
}
