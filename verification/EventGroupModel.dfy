/** event_groups.c: bits that tasks wait for, the traversal that wakes them, and the
    clearing that is put off until the traversal is over. */
module EventGroupModel {
  import opened Common

  type Bits = bv32

  // The control bits share a task's event item value with the bits it waits for.
  const CLEAR_EVENTS_ON_EXIT_BIT: Bits := 0x0100_0000
  const UNBLOCKED_DUE_TO_BIT_SET: Bits := 0x0200_0000
  const WAIT_FOR_ALL_BITS: Bits := 0x0400_0000
  const EVENT_BITS_CONTROL_BYTES: Bits := 0xff00_0000
  const ITEM_VALUE_IN_USE: Bits := 0x8000_0000

  /** A task on the wait list with its event item value. */
  datatype Waiter = Waiter(task: Task, value: Bits)

  /** unblocked holds the item values left behind in tasks that were released. */
  datatype Group = Group(bits: Bits, waiting: seq<Waiter>, unblocked: map<Task, Bits>)

  /** prvTestWaitCondition. */
  predicate TestWaitCondition(current: Bits, waitFor: Bits, all: bool) {
    if all then current & waitFor == waitFor else current & waitFor != 0
  }

  function WaitedFor(value: Bits): Bits {
    value & !EVENT_BITS_CONTROL_BYTES
  }

  predicate WaitsForAll(value: Bits) {
    value & WAIT_FOR_ALL_BITS != 0
  }

  predicate ClearsOnExit(value: Bits) {
    value & CLEAR_EVENTS_ON_EXIT_BIT != 0
  }

  /** The match of the traversal, on the control bits and bits split from the value. */
  predicate Matches(bits: Bits, value: Bits) {
    TestWaitCondition(bits, WaitedFor(value), WaitsForAll(value))
  }

  predicate IsUser(bits: Bits) {
    bits & EVENT_BITS_CONTROL_BYTES == 0
  }

  function Or(a: Bits, b: Bits): Bits {
    a | b
  }

  function And(a: Bits, b: Bits): Bits {
    a & b
  }

  function AndNot(a: Bits, b: Bits): Bits {
    a & !b
  }

  function ItemValue(waitFor: Bits, clear: bool, all: bool): Bits {
    waitFor
    | (if clear then CLEAR_EVENTS_ON_EXIT_BIT else 0)
    | (if all then WAIT_FOR_ALL_BITS else 0)
    | ITEM_VALUE_IN_USE
  }

  /** The item value of a task released with the given bits, and what the task returns. */
  function ReleaseValue(bits: Bits): Bits {
    bits | UNBLOCKED_DUE_TO_BIT_SET | ITEM_VALUE_IN_USE
  }

  function Returned(value: Bits): Bits {
    value & !EVENT_BITS_CONTROL_BYTES
  }

  // ---- setting bits ----

  function Kept(waiting: seq<Waiter>, bits: Bits): seq<Waiter> {
    if waiting == [] then []
    else (if Matches(bits, waiting[0].value) then [] else [waiting[0]]) + Kept(waiting[1..], bits)
  }

  function MaskOf(w: Waiter, bits: Bits): Bits {
    if Matches(bits, w.value) && ClearsOnExit(w.value) then WaitedFor(w.value) else 0
  }

  function ClearMask(waiting: seq<Waiter>, bits: Bits): Bits {
    if waiting == [] then 0 else Or(MaskOf(waiting[0], bits), ClearMask(waiting[1..], bits))
  }

  function Release(unblocked: map<Task, Bits>, waiting: seq<Waiter>, bits: Bits): map<Task, Bits>
    decreases |waiting|
  {
    if waiting == [] then unblocked
    else
      Release(if Matches(bits, waiting[0].value) then unblocked[waiting[0].task := ReleaseValue(bits)] else unblocked,
        waiting[1..], bits)
  }

  /** xEventGroupSetBits. */
  function SetBits(g: Group, set_: Bits): Group {
    var bits := Or(g.bits, set_);
    Group(AndNot(bits, ClearMask(g.waiting, bits)), Kept(g.waiting, bits), Release(g.unblocked, g.waiting, bits))
  }

  // ---- the other calls ----

  /** xEventGroupClearBits. */
  function ClearBits(g: Group, clear: Bits): Group {
    g.(bits := AndNot(g.bits, clear))
  }

  /** The part of xEventGroupWaitBits under the suspended scheduler. */
  function WaitBits(g: Group, t: Task, waitFor: Bits, clear: bool, all: bool, block: bool): Group {
    if TestWaitCondition(g.bits, waitFor, all) then (if clear then ClearBits(g, waitFor) else g)
    else if !block then g
    else g.(waiting := g.waiting + [Waiter(t, ItemValue(waitFor, clear, all))])
  }

  /** The part of xEventGroupSync under the suspended scheduler. */
  function Sync(g: Group, t: Task, set_: Bits, waitFor: Bits, block: bool): Group {
    var r := SetBits(g, set_);
    if TestWaitCondition(Or(g.bits, set_), waitFor, true) then ClearBits(r, waitFor)
    else if !block then r
    else r.(waiting := r.waiting + [Waiter(t, ItemValue(waitFor, true, true))])
  }

  /** What a task does that finds on waking that its bits did not release it. */
  function LateCheck(g: Group, waitFor: Bits, clear: bool, all: bool): Group {
    if TestWaitCondition(g.bits, waitFor, all) && clear then ClearBits(g, waitFor) else g
  }

  function WithoutTask(waiting: seq<Waiter>, t: Task): seq<Waiter> {
    if waiting == [] then [] else (if waiting[0].task == t then [] else [waiting[0]]) + WithoutTask(waiting[1..], t)
  }

  /** The time-out takes the task off the wait list; its item value stays as it was. */
  function TimeOut(g: Group, t: Task): Group {
    g.(waiting := WithoutTask(g.waiting, t))
  }

  /** vEventGroupDelete releases every task with no bits set. */
  function ReleaseAll(unblocked: map<Task, Bits>, waiting: seq<Waiter>): map<Task, Bits>
    decreases |waiting|
  {
    if waiting == [] then unblocked else ReleaseAll(unblocked[waiting[0].task := ReleaseValue(0)], waiting[1..])
  }

  function Delete(g: Group): Group {
    g.(waiting := [], unblocked := ReleaseAll(g.unblocked, g.waiting))
  }

  // ---- facts about the bits ----

  lemma ItemValueParts(waitFor: Bits, clear: bool, all: bool)
    requires IsUser(waitFor)
    ensures var v := ItemValue(waitFor, clear, all);
      WaitedFor(v) == waitFor && ClearsOnExit(v) == clear && WaitsForAll(v) == all && v & UNBLOCKED_DUE_TO_BIT_SET == 0
  {
  }

  /** A released task can tell, and returns exactly the bits it was released with. */
  lemma ReleaseValueParts(bits: Bits)
    requires IsUser(bits)
    ensures ReleaseValue(bits) & UNBLOCKED_DUE_TO_BIT_SET != 0 && Returned(ReleaseValue(bits)) == bits
  {
  }

  /** Fewer bits satisfy no more waiters. */
  lemma FewerBits(bits: Bits, clear: Bits, value: Bits)
    requires Matches(AndNot(bits, clear), value)
    ensures Matches(bits, value)
  {
    hide WaitedFor, WaitsForAll, TestWaitCondition, AndNot;
    FewerBitsTest(bits, clear, WaitedFor(value), WaitsForAll(value));
  }

  lemma FewerBitsTest(bits: Bits, clear: Bits, v: Bits, all: bool)
    requires TestWaitCondition(AndNot(bits, clear), v, all)
    ensures TestWaitCondition(bits, v, all)
  {
    hide TestWaitCondition, AndNot;
    if all { AllOf(bits, clear, v); } else { SomeOf(bits, clear, v); }
  }

  lemma AllOf(bits: Bits, clear: Bits, v: Bits)
    requires TestWaitCondition(AndNot(bits, clear), v, true)
    ensures TestWaitCondition(bits, v, true)
  {
  }

  lemma SomeOf(bits: Bits, clear: Bits, v: Bits)
    requires TestWaitCondition(AndNot(bits, clear), v, false)
    ensures TestWaitCondition(bits, v, false)
  {
  }

  lemma UserBits(a: Bits, b: Bits)
    requires IsUser(a)
    ensures IsUser(b) ==> IsUser(Or(a, b))
    ensures IsUser(AndNot(a, b))
  {
  }

  // ---- a set call ----

  ghost predicate DistinctTasks(waiting: seq<Waiter>) {
    forall i, j :: 0 <= i < j < |waiting| ==> waiting[i].task != waiting[j].task
  }

  lemma {:induction false} KeptExact(waiting: seq<Waiter>, bits: Bits)
    ensures forall w :: w in Kept(waiting, bits) <==> w in waiting && !Matches(bits, w.value)
    ensures DistinctTasks(waiting) ==> DistinctTasks(Kept(waiting, bits))
  {
    hide Matches;
    if waiting != [] {
      KeptExact(waiting[1..], bits);
      var rest := Kept(waiting[1..], bits);
      if DistinctTasks(waiting) {
        forall w | w in rest ensures w.task != waiting[0].task {
          assert w in waiting[1..];
        }
      }
    }
  }

  lemma {:induction false} ReleaseExact(unblocked: map<Task, Bits>, waiting: seq<Waiter>, bits: Bits, t: Task)
    ensures var r := Release(unblocked, waiting, bits);
      if exists w :: w in waiting && w.task == t && Matches(bits, w.value) then t in r && r[t] == ReleaseValue(bits)
      else (t in r) == (t in unblocked) && (t in r ==> r[t] == unblocked[t])
    decreases |waiting|
  {
    hide Matches, ReleaseValue;
    if waiting != [] {
      var u := if Matches(bits, waiting[0].value) then unblocked[waiting[0].task := ReleaseValue(bits)] else unblocked;
      ReleaseExact(u, waiting[1..], bits, t);
      assert forall w :: w in waiting <==> w == waiting[0] || w in waiting[1..];
    }
  }

  /** A set call releases exactly the waiters satisfied by old | set, gives each of them
      old | set, keeps the others, and ends with old | set minus the bits of the released
      clear-on-exit waiters. */
  lemma SetReleasesExactly(g: Group, set_: Bits, w: Waiter)
    requires DistinctTasks(g.waiting) && w in g.waiting
    ensures var bits := Or(g.bits, set_); var r := SetBits(g, set_);
      && (w in r.waiting) == !Matches(bits, w.value)
      && (Matches(bits, w.value) ==> w.task in r.unblocked && r.unblocked[w.task] == ReleaseValue(bits))
      && (!Matches(bits, w.value) && w.task in g.unblocked ==>
        w.task in r.unblocked && r.unblocked[w.task] == g.unblocked[w.task])
  {
    hide Matches, ReleaseValue, Or, AndNot, ClearMask;
    var bits := Or(g.bits, set_);
    KeptExact(g.waiting, bits);
    ReleaseExact(g.unblocked, g.waiting, bits, w.task);
  }

  /** Whether some of the given bits are set. */
  predicate Has(mask: Bits, bit: Bits) {
    mask & bit != 0
  }

  /** A bit is cleared by the call if and only if some released waiter that clears on exit
      waited for it. */
  lemma {:induction false} ClearMaskExact(waiting: seq<Waiter>, bits: Bits, bit: Bits)
    ensures Has(ClearMask(waiting, bits), bit) <==>
      exists w :: w in waiting && Matches(bits, w.value) && ClearsOnExit(w.value) && Has(WaitedFor(w.value), bit)
  {
    hide Has, Or, Matches, ClearsOnExit, WaitedFor;
    NoBits(bit);
    if waiting != [] {
      ClearMaskExact(waiting[1..], bits, bit);
      OrBits(MaskOf(waiting[0], bits), ClearMask(waiting[1..], bits), bit);
      assert forall w :: w in waiting <==> w == waiting[0] || w in waiting[1..];
    }
  }

  lemma NoBits(bit: Bits)
    ensures !Has(0, bit)
  {
  }

  lemma OrBits(a: Bits, b: Bits, bit: Bits)
    ensures Has(Or(a, b), bit) == (Has(a, bit) || Has(b, bit))
  {
    hide Has;
    OrDistributes(a, b, bit);
    OrZero(a & bit, b & bit);
    HasIs(a, bit);
    HasIs(b, bit);
    HasIs(Or(a, b), bit);
  }

  lemma HasIs(a: Bits, bit: Bits)
    ensures Has(a, bit) == (a & bit != 0)
  {
  }

  lemma OrDistributes(a: Bits, b: Bits, bit: Bits)
    ensures Or(a, b) & bit == Or(a & bit, b & bit)
  {
  }

  lemma OrZero(a: Bits, b: Bits)
    ensures (Or(a, b) == 0) == (a == 0 && b == 0)
  {
  }

  // ---- the order of the list does not matter ----

  lemma {:induction false} ClearMaskAppend(a: seq<Waiter>, b: seq<Waiter>, bits: Bits)
    ensures ClearMask(a + b, bits) == Or(ClearMask(a, bits), ClearMask(b, bits))
  {
    hide MaskOf, Or;
    if a == [] {
      assert a + b == b;
      OrLaws(0, 0, ClearMask(b, bits));
    } else {
      ClearMaskAppend(a[1..], b, bits);
      assert (a + b)[1..] == a[1..] + b;
      OrLaws(MaskOf(a[0], bits), ClearMask(a[1..], bits), ClearMask(b, bits));
    }
  }

  lemma OrLaws(a: Bits, b: Bits, c: Bits)
    ensures Or(a, Or(b, c)) == Or(Or(a, b), c) && Or(a, b) == Or(b, a) && Or(0, c) == c
  {
  }

  /** A waiter may be taken from anywhere in the list. */
  lemma ClearMaskTake(b1: seq<Waiter>, w: Waiter, b2: seq<Waiter>, bits: Bits)
    ensures ClearMask(b1 + ([w] + b2), bits) == Or(MaskOf(w, bits), ClearMask(b1 + b2, bits))
  {
    hide MaskOf, Or;
    ClearMaskAppend(b1, [w] + b2, bits);
    ClearMaskAppend(b1, b2, bits);
    assert ([w] + b2)[1..] == b2;
    OrLaws(MaskOf(w, bits), ClearMask(b1, bits), ClearMask(b2, bits));
    OrLaws(ClearMask(b1, bits), MaskOf(w, bits), ClearMask(b2, bits));
  }

  lemma TakeFrom(a: seq<Waiter>, b: seq<Waiter>) returns (b1: seq<Waiter>, b2: seq<Waiter>)
    requires a != [] && multiset(a) == multiset(b)
    ensures b == b1 + ([a[0]] + b2) && multiset(b1 + b2) == multiset(a[1..])
  {
    assert a[0] in multiset(b);
    var k :| 0 <= k < |b| && b[k] == a[0];
    b1, b2 := b[..k], b[k + 1..];
    assert b == b1 + ([a[0]] + b2);
    assert a == [a[0]] + a[1..];
    Counts(b1, a[0], b2);
    Counts([], a[0], a[1..]);
    assert [] + ([a[0]] + a[1..]) == a && [] + a[1..] == a[1..];
    Cancel(multiset(b1 + b2), multiset(a[1..]), a[0]);
  }

  lemma Cancel(x: multiset<Waiter>, y: multiset<Waiter>, w: Waiter)
    requires x + multiset{w} == y + multiset{w}
    ensures x == y
  {
    assert x == x + multiset{w} - multiset{w};
    assert y == y + multiset{w} - multiset{w};
  }

  lemma Counts(b1: seq<Waiter>, w: Waiter, b2: seq<Waiter>)
    ensures multiset(b1 + ([w] + b2)) == multiset(b1 + b2) + multiset{w}
  {
  }

  /** Whatever the order of the waiters, the same bits are cleared. */
  lemma {:induction false} ClearMaskPermuted(a: seq<Waiter>, b: seq<Waiter>, bits: Bits)
    requires multiset(a) == multiset(b)
    ensures ClearMask(a, bits) == ClearMask(b, bits)
  {
    hide MaskOf, Or;
    if a == [] {
      assert |multiset(b)| == 0;
    } else {
      var b1, b2 := TakeFrom(a, b);
      ClearMaskPermuted(a[1..], b1 + b2, bits);
      ClearMaskTake(b1, a[0], b2, bits);
    }
  }

  /** So a set call ends with the same bits, and releases the same tasks with the same
      values, for every order of the wait list. */
  lemma SetIgnoresOrder(g: Group, h: Group, set_: Bits, t: Task)
    requires g.bits == h.bits && g.unblocked == h.unblocked && multiset(g.waiting) == multiset(h.waiting)
    ensures SetBits(g, set_).bits == SetBits(h, set_).bits
    ensures var a, b := SetBits(g, set_).unblocked, SetBits(h, set_).unblocked;
      (t in a) == (t in b) && (t in a ==> a[t] == b[t])
    ensures forall w :: w in SetBits(g, set_).waiting <==> w in SetBits(h, set_).waiting
  {
    hide Matches, ClearMask, MaskOf, ReleaseValue, Or, AndNot, Kept, Release;
    var bits := Or(g.bits, set_);
    ClearMaskPermuted(g.waiting, h.waiting, bits);
    forall w ensures w in g.waiting <==> w in h.waiting {
      assert w in g.waiting <==> w in multiset(g.waiting);
      assert w in h.waiting <==> w in multiset(h.waiting);
    }
    ReleaseExact(g.unblocked, g.waiting, bits, t);
    ReleaseExact(h.unblocked, h.waiting, bits, t);
    KeptExact(g.waiting, bits);
    KeptExact(h.waiting, bits);
  }
}
