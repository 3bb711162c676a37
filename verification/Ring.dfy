/** The abstract value of a FreeRTOS list (list.c, list.h): the items from the one
    after the end marker round to the one before it, and where pxIndex rests. The
    linked structure of module Lists and the lists of module Scheduler are both
    described by the functions of this module. */
module Rings {

  /** index is -1 when pxIndex rests on the end marker, otherwise the position of
      the item it rests on. */
  datatype Ring<T(==)> = Ring(items: seq<T>, index: int) {
    ghost predicate Valid() {
      -1 <= index < |items| && Distinct(items)
    }

    /** The items in the order in which listGET_OWNER_OF_NEXT_ENTRY is about to
        visit them; the item under the index comes last. */
    function Rotation(): seq<T>
      requires -1 <= index < |items|
    {
      items[index + 1..] + items[..index + 1]
    }

    function InsertAt(pos: nat, x: T): Ring<T>
      requires pos <= |items|
    {
      Ring(items[..pos] + [x] + items[pos..], if pos <= index then index + 1 else index)
    }

    /** vListInsertEnd: in front of whatever the index rests on. */
    function InsertEnd(x: T): Ring<T>
      requires -1 <= index < |items|
    {
      InsertAt(if index == -1 then |items| else index, x)
    }

    /** uxListRemove: an index resting on the removed item steps back. */
    function RemoveAt(k: nat): Ring<T>
      requires k < |items|
    {
      Ring(items[..k] + items[k + 1..], if k <= index then index - 1 else index)
    }

    function Remove(x: T): Ring<T> {
      if x in items then RemoveAt(IndexOf(items, x)) else this
    }

    /** listGET_OWNER_OF_NEXT_ENTRY: steps once, and once more over the end marker. */
    function Next(): Ring<T>
      requires items != [] && -1 <= index < |items|
    {
      Ring(items, if index + 1 == |items| then 0 else index + 1)
    }

    function Current(): T
      requires 0 <= index < |items|
    {
      items[index]
    }

    /** The ring after n steps, and the items those steps return. */
    function Steps(n: nat): (r: Ring<T>)
      requires items != [] && -1 <= index < |items|
      decreases n
      ensures r.items == items && -1 <= r.index < |r.items|
    {
      if n == 0 then this else Next().Steps(n - 1)
    }

    function Picks(n: nat): seq<T>
      requires items != [] && -1 <= index < |items|
      decreases n
    {
      if n == 0 then [] else [Next().Current()] + Next().Picks(n - 1)
    }
  }

  ghost predicate Distinct<T>(s: seq<T>) {
    forall i, j :: 0 <= i < j < |s| ==> s[i] != s[j]
  }

  function IndexOf<T(==)>(s: seq<T>, x: T): (k: nat)
    requires x in s
    ensures k < |s| && s[k] == x && x !in s[..k]
  {
    if s[0] == x then 0 else 1 + IndexOf(s[1..], x)
  }

  /** s with its one occurrence of x taken out, the rest in order. */
  function Without<T(==)>(s: seq<T>, x: T): seq<T>
  {
    if s == [] then [] else (if s[0] == x then [] else [s[0]]) + Without(s[1..], x)
  }

  lemma {:induction false} WithoutAbsent<T>(s: seq<T>, x: T)
    requires x !in s
    ensures Without(s, x) == s
  {
    if s != [] {
      WithoutAbsent(s[1..], x);
    }
  }

  lemma {:induction false} WithoutSplit<T>(a: seq<T>, x: T, b: seq<T>)
    requires x !in a && x !in b
    ensures Without(a + [x] + b, x) == a + b
  {
    if a == [] {
      WithoutAbsent(b, x);
      assert ([x] + b)[1..] == b;
      assert a + [x] + b == [x] + b;
    } else {
      WithoutSplit(a[1..], x, b);
      assert (a + [x] + b)[1..] == a[1..] + [x] + b;
    }
  }

  lemma InsertAtKeepsValid<T>(r: Ring<T>, pos: nat, x: T)
    requires r.Valid() && x !in r.items && pos <= |r.items|
    ensures r.InsertAt(pos, x).Valid()
    ensures forall y :: y in r.InsertAt(pos, x).items <==> y == x || y in r.items
  {
    var s := r.InsertAt(pos, x).items;
    assert forall i :: 0 <= i < pos ==> s[i] == r.items[i];
    assert s[pos] == x;
    assert forall i :: pos < i < |s| ==> s[i] == r.items[i - 1];
    assert forall i :: 0 <= i < |r.items| ==> r.items[i] == if i < pos then s[i] else s[i + 1];
  }

  lemma RemoveKeepsValid<T>(r: Ring<T>, x: T)
    requires r.Valid() && x in r.items
    ensures r.Remove(x).Valid()
    ensures forall y :: y in r.Remove(x).items <==> y != x && y in r.items
    ensures |r.Remove(x).items| == |r.items| - 1
    ensures r.Remove(x).items == Without(r.items, x)
  {
    hide IndexOf, Distinct;
    var k := IndexOf(r.items, x);
    RemoveNode(r.items, k, r.items[..k] + r.items[k + 1..]);
    WithoutOne(r.items, k);
  }

  lemma WithoutOne<T>(s: seq<T>, k: nat)
    requires k < |s| && Distinct(s)
    ensures Without(s, s[k]) == s[..k] + s[k + 1..]
  {
    assert s == s[..k] + [s[k]] + s[k + 1..];
    WithoutSplit(s[..k], s[k], s[k + 1..]);
  }

  /** vListInsertEnd's promise: the new item is visited after every other item,
      except the one the index rests on, which is visited last of all. */
  lemma InsertEndComesLast<T>(r: Ring<T>, x: T)
    requires r.Valid()
    ensures r.index == -1 ==> r.InsertEnd(x).Rotation() == r.Rotation() + [x]
    ensures r.index >= 0 ==>
      r.InsertEnd(x).Rotation() == r.Rotation()[..|r.items| - 1] + [x, r.Current()]
  {
    var s := r.InsertEnd(x);
    if r.index == -1 {
      assert s.items == r.items + [x];
    } else {
      assert s.items[s.index + 1..] == r.items[r.index + 1..];
      assert s.items[..s.index + 1] == r.items[..r.index] + [x, r.items[r.index]];
      assert r.items[..r.index + 1] == r.items[..r.index] + [r.items[r.index]];
    }
  }

  /** Removal takes exactly one item out of the index's future and reorders nothing,
      wherever the index rests. */
  lemma RemoveKeepsRotation<T>(r: Ring<T>, x: T)
    requires r.Valid() && x in r.items
    ensures r.Remove(x).index >= -1
    ensures r.Remove(x).Rotation() == Without(r.Rotation(), x)
  {
    hide IndexOf, Without, Distinct;
    var k := IndexOf(r.items, x);
    if k <= r.index {
      RemoveBehind(r.items, r.index, k);
    } else {
      RemoveAhead(r.items, r.index, k);
    }
  }

  lemma RemoveBehind<T>(s: seq<T>, index: int, k: nat)
    requires k <= index < |s| && Distinct(s)
    ensures Without(s[index + 1..] + s[..index + 1], s[k])
         == (s[..k] + s[k + 1..])[index..] + (s[..k] + s[k + 1..])[..index]
  {
    var a, b := s[index + 1..], s[..index + 1];
    WithoutSplit(a + b[..k], s[k], b[k + 1..]);
    assert a + b == a + b[..k] + [s[k]] + b[k + 1..];
    assert (s[..k] + s[k + 1..])[index..] == a;
    assert (s[..k] + s[k + 1..])[..index] == b[..k] + b[k + 1..];
  }

  lemma RemoveAhead<T>(s: seq<T>, index: int, k: nat)
    requires -1 <= index < k < |s| && Distinct(s)
    ensures Without(s[index + 1..] + s[..index + 1], s[k])
         == (s[..k] + s[k + 1..])[index + 1..] + (s[..k] + s[k + 1..])[..index + 1]
  {
    var a, b := s[index + 1..], s[..index + 1];
    var j := k - (index + 1);
    WithoutSplit(a[..j], s[k], a[j + 1..] + b);
    assert a + b == a[..j] + [s[k]] + (a[j + 1..] + b);
    assert (s[..k] + s[k + 1..])[index + 1..] == a[..j] + a[j + 1..];
    assert (s[..k] + s[k + 1..])[..index + 1] == b;
  }

  /** One step returns the head of the rotation and moves it to the back. */
  lemma NextTurnsRotation<T>(r: Ring<T>)
    requires r.Valid() && r.items != []
    ensures r.Next().Current() == r.Rotation()[0]
    ensures r.Next().Rotation() == r.Rotation()[1..] + [r.Rotation()[0]]
  {
    if r.index + 1 == |r.items| {
      assert r.Rotation() == r.items;
    }
  }

  lemma NextValid<T>(r: Ring<T>)
    requires r.Valid() && r.items != []
    ensures r.Next().Valid() && r.Next().items == r.items && |r.Rotation()| == |r.items|
  {
  }

  lemma TurnedSlices<T>(w: seq<T>, n: nat)
    requires 0 < n <= |w|
    ensures var v := w[1..] + [w[0]]; v[n - 1..] + v[..n - 1] == w[n..] + w[..n] && [w[0]] + v[..n - 1] == w[..n]
  {
    var v := w[1..] + [w[0]];
    assert v[..n - 1] == w[1..n];
    assert v[n - 1..] == w[n..] + [w[0]];
    assert w[..n] == [w[0]] + w[1..n];
  }

  lemma {:induction false} PicksFollowRotation<T>(r: Ring<T>, n: nat)
    requires r.Valid() && n <= |r.items| && r.items != []
    ensures r.Picks(n) == r.Rotation()[..n]
    ensures r.Steps(n).Rotation() == r.Rotation()[n..] + r.Rotation()[..n]
    decreases n
  {
    hide Ring.Rotation, Ring.Next, Ring.Current, Distinct;
    if n > 0 {
      NextValid(r);
      NextTurnsRotation(r);
      PicksFollowRotation(r.Next(), n - 1);
      TurnedSlices(r.Rotation(), n);
    } else {
      assert r.Rotation()[0..] + r.Rotation()[..0] == r.Rotation();
      assert r.Rotation()[..0] == [];
    }
  }

  lemma SwapHalves<T>(a: seq<T>, b: seq<T>, s: seq<T>)
    requires Distinct(s) && s == a + b
    ensures Distinct(b + a) && multiset(b + a) == multiset(s)
  {
    forall i, j | 0 <= i < j < |b + a|
      ensures (b + a)[i] != (b + a)[j]
    {
      var i' := if i < |b| then |a| + i else i - |b|;
      var j' := if j < |b| then |a| + j else j - |b|;
      assert (b + a)[i] == (a + b)[i'] && (b + a)[j] == (a + b)[j'];
    }
  }

  /** Round robin: k steps over an unchanged list of k items return each item exactly
      once, and the next k steps repeat the same order. */
  lemma RoundRobin<T>(r: Ring<T>)
    requires r.Valid() && r.items != []
    ensures multiset(r.Picks(|r.items|)) == multiset(r.items)
    ensures Distinct(r.Picks(|r.items|))
    ensures r.Steps(|r.items|).Rotation() == r.Rotation()
  {
    PicksFollowRotation(r, |r.items|);
    SwapHalves(r.items[..r.index + 1], r.items[r.index + 1..], r.items);
    var w := r.Rotation();
    assert w[..|w|] == w && w[|w|..] + w == w;
  }

  lemma FirstMember<T>(s: seq<T>)
    ensures s == [] || s[0] in s
  {
  }

  // ---- ordered insertion ----

  ghost predicate Sorted(vals: seq<nat>) {
    forall i, j :: 0 <= i < j < |vals| ==> vals[i] <= vals[j]
  }

  /** Where vListInsert's scan stops: in front of the first larger value. */
  function InsertPos(vals: seq<nat>, v: nat): (pos: nat)
    ensures pos <= |vals|
    ensures forall i :: 0 <= i < pos ==> vals[i] <= v
    ensures pos < |vals| ==> v < vals[pos]
  {
    if vals == [] || v < vals[0] then 0 else 1 + InsertPos(vals[1..], v)
  }

  /** The two clauses of InsertPos fix the position. */
  lemma InsertPosUnique(vals: seq<nat>, v: nat, pos: nat)
    requires pos <= |vals|
    requires forall i :: 0 <= i < pos ==> vals[i] <= v
    requires pos < |vals| ==> v < vals[pos]
    ensures pos == InsertPos(vals, v)
  {
  }

  /** Ordered insertion keeps the list sorted and puts the new value behind every
      equal one. */
  lemma InsertKeepsSorted(vals: seq<nat>, v: nat)
    requires Sorted(vals)
    ensures var p := InsertPos(vals, v); Sorted(vals[..p] + [v] + vals[p..])
    ensures forall i :: 0 <= i < |vals| && vals[i] <= v ==> i < InsertPos(vals, v)
  {
    hide InsertPos;
    var p := InsertPos(vals, v);
    assert forall i :: p <= i < |vals| ==> vals[p] <= vals[i];
    var s := vals[..p] + [v] + vals[p..];
    assert forall i :: 0 <= i < |s| ==> s[i] == if i < p then vals[i] else if i == p then v else vals[i - 1];
  }

  /** s is was with x put in at position p. */
  ghost predicate InsertedAt<T>(was: seq<T>, s: seq<T>, p: nat, x: T) {
    && p <= |was| && |s| == |was| + 1 && s[p] == x
    && (forall i :: 0 <= i < p ==> s[i] == was[i])
    && (forall i :: p < i < |s| ==> s[i] == was[i - 1])
  }

  function PutIn<T>(was: seq<T>, p: nat, x: T): seq<T>
    requires p <= |was|
  {
    was[..p] + [x] + was[p..]
  }

  function TakeOut<T>(was: seq<T>, k: nat): seq<T>
    requires k < |was|
  {
    was[..k] + was[k + 1..]
  }

  lemma InsertNode<T>(was: seq<T>, p: nat, x: T, s: seq<T>)
    requires p <= |was| && Distinct(was) && x !in was && s == PutIn(was, p, x)
    ensures InsertedAt(was, s, p, x) && Distinct(s)
    ensures forall n :: n in s <==> n == x || n in was
  {
    assert InsertedAt(was, s, p, x);
    assert forall i :: 0 <= i < |was| ==> was[i] == s[if i < p then i else i + 1];
  }

  /** s is was without its k-th element. */
  ghost predicate RemovedAt<T>(was: seq<T>, s: seq<T>, k: nat) {
    && k < |was| && |s| == |was| - 1
    && (forall i :: 0 <= i < k ==> s[i] == was[i])
    && (forall i :: k <= i < |s| ==> s[i] == was[i + 1])
  }

  lemma RemoveNode<T>(was: seq<T>, k: nat, s: seq<T>)
    requires k < |was| && Distinct(was) && s == TakeOut(was, k)
    ensures RemovedAt(was, s, k) && Distinct(s)
    ensures forall n :: n in s <==> n != was[k] && n in was
  {
    assert RemovedAt(was, s, k);
    assert forall i :: 0 <= i < |was| && i != k ==> was[i] == s[if i < k then i else i - 1];
  }
}
