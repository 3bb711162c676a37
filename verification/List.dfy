/** list.c: an intrusive circular doubly linked list with an end marker and a moving
    index, refined to the Ring of module Rings. */
module Lists {
  import opened Common
  import opened Rings

  class ListItem {
    var xItemValue: nat
    var pxNext: ListItem?
    var pxPrevious: ListItem?
    var pvOwner: object?
    var pvContainer: List?

    constructor ()
      ensures pvContainer == null
    {
      pvContainer := null;
    }
  }

  // The ring around ns, read along pxNext, along pxPrevious, and by its members.

  ghost predicate NextLinks(ns: seq<ListItem>)
    requires ns != []
    reads ns
  {
    && (forall i {:trigger ns[i].pxNext} :: 0 <= i < |ns| - 1 ==> ns[i].pxNext == ns[i + 1])
    && ns[|ns| - 1].pxNext == ns[0]
  }

  ghost predicate PrevLinks(ns: seq<ListItem>)
    requires ns != []
    reads ns
  {
    && (forall i {:trigger ns[i].pxPrevious} :: 1 <= i < |ns| ==> ns[i].pxPrevious == ns[i - 1])
    && ns[0].pxPrevious == ns[|ns| - 1]
  }

  ghost predicate Members(ns: seq<ListItem>, owner: List)
    reads ns
  {
    forall i :: 1 <= i < |ns| ==> ns[i].pvContainer == owner && ns[i].xItemValue <= MAX_DELAY
  }

  class List {
    var uxNumberOfItems: nat
    var pxIndex: ListItem
    const xListEnd: ListItem
    /** The nodes met from the end marker along pxNext. */
    ghost var nodes: seq<ListItem>

    ghost predicate Valid()
      reads this, nodes
    {
      && nodes != [] && nodes[0] == xListEnd && Distinct(nodes)
      && xListEnd.xItemValue == MAX_DELAY
      && NextLinks(nodes) && PrevLinks(nodes)
      && Members(nodes, this)
      && uxNumberOfItems == |nodes| - 1
      && pxIndex in nodes
    }

    ghost function Items(): seq<ListItem>
      requires nodes != []
      reads this
    {
      nodes[1..]
    }

    ghost function Abs(): (r: Ring<ListItem>)
      requires nodes != [] && pxIndex in nodes
      reads this
    {
      Ring(nodes[1..], IndexOf(nodes, pxIndex) - 1)
    }

    ghost function Values(): (v: seq<nat>)
      requires nodes != []
      reads this, nodes
      ensures |v| == |nodes| - 1
    {
      seq(|nodes| - 1, i requires 0 <= i < |nodes| - 1 reads nodes, this => nodes[i + 1].xItemValue)
    }

    /** vListInitialise. */
    constructor ()
      ensures Valid() && fresh(xListEnd)
      ensures Abs() == Ring([], -1)
    {
      var end := new ListItem();
      xListEnd := end;
      pxIndex := end;
      uxNumberOfItems := 0;
      nodes := [end];
      new;
      xListEnd.xItemValue := MAX_DELAY;
      xListEnd.pxNext := xListEnd;
      xListEnd.pxPrevious := xListEnd;
    }

    // x has been linked in behind the j-th of the nodes the method was called with;
    // the four lemmas below re-establish Valid one direction of the ring at a time.

    twostate lemma NextLinksKept(j: nat, new x: ListItem)
      requires old(nodes != [] && NextLinks(nodes)) && j < |old(nodes)| && Distinct(old(nodes))
      requires InsertedAt(old(nodes), nodes, j + 1, x)
      requires old(nodes)[j].pxNext == x && x.pxNext == old(nodes[j].pxNext)
      requires forall n :: n in old(nodes) && n != old(nodes)[j] ==> n.pxNext == old(n.pxNext)
      ensures NextLinks(nodes)
    {
    }

    twostate lemma PrevLinksKept(j: nat, new x: ListItem)
      requires old(nodes != [] && PrevLinks(nodes)) && j < |old(nodes)| && Distinct(old(nodes))
      requires InsertedAt(old(nodes), nodes, j + 1, x)
      requires x.pxPrevious == old(nodes)[j]
      requires var n := old(nodes)[if j + 1 == |old(nodes)| then 0 else j + 1];
        n.pxPrevious == x && forall m :: m in old(nodes) && m != n ==> m.pxPrevious == old(m.pxPrevious)
      ensures PrevLinks(nodes)
    {
    }

    twostate lemma MembersKept(j: nat, new x: ListItem)
      requires old(Members(nodes, this)) && InsertedAt(old(nodes), nodes, j + 1, x)
      requires x.pvContainer == this && x.xItemValue <= MAX_DELAY
      requires forall i :: 0 <= i < |old(nodes)| ==>
        old(nodes)[i].pvContainer == old(nodes[i].pvContainer) && old(nodes)[i].xItemValue == old(nodes[i].xItemValue)
      ensures Members(nodes, this)
    {
    }

    lemma AbsAfterInsert(r: Ring<ListItem>, was: seq<ListItem>, index: ListItem, j: nat, x: ListItem)
      requires was != [] && Distinct(was) && x !in was && index in was && j < |was|
      requires InsertedAt(was, nodes, j + 1, x) && Distinct(nodes) && pxIndex == index
      ensures pxIndex in nodes
      requires r == Ring(was[1..], IndexOf(was, index) - 1)
      ensures Abs() == r.InsertAt(j, x)
    {
      hide Distinct, IndexOf;
      var k := IndexOf(was, index);
      var p := if k <= j then k else k + 1;
      assert nodes[p] == index;
      IndexIs(nodes, p);
      assert nodes[1..] == r.items[..j] + [x] + r.items[j..];
    }

    lemma Successor(j: nat)
      requires Valid() && j < |nodes|
      ensures nodes[j].pxNext == nodes[if j + 1 == |nodes| then 0 else j + 1]
    {
    }

    /** The four pointer writes that end both insertions: x goes in behind nodes[j]. */
    method LinkBehind(prev: ListItem, x: ListItem, ghost j: nat)
      requires Valid() && x !in nodes && x.xItemValue <= MAX_DELAY
      requires j < |nodes| && nodes[j] == prev
      modifies this`nodes, this`uxNumberOfItems, nodes`pxNext, nodes`pxPrevious, x`pxNext, x`pxPrevious, x`pvContainer
      ensures Valid()
      ensures InsertedAt(old(nodes), nodes, j + 1, x)
    {
      hide NextLinks, PrevLinks, Members, PutIn;
      ghost var next := nodes[if j + 1 == |nodes| then 0 else j + 1];
      Successor(j);
      x.pxNext := prev.pxNext;
      x.pxNext.pxPrevious := x;
      x.pxPrevious := prev;
      prev.pxNext := x;
      x.pvContainer := this;
      uxNumberOfItems := uxNumberOfItems + 1;
      ghost var longer := PutIn(nodes, j + 1, x);
      InsertNode(nodes, j + 1, x, longer);
      nodes := longer;
      NextLinksKept(j, x);
      PrevLinksKept(j, x);
      MembersKept(j, x);
    }

    lemma Predecessor(k: nat)
      requires Valid() && k < |nodes|
      ensures nodes[k].pxPrevious == nodes[if k == 0 then |nodes| - 1 else k - 1]
    {
    }

    /** vListInsertEnd. */
    method InsertEnd(x: ListItem)
      requires Valid() && x !in nodes && x.xItemValue <= MAX_DELAY
      modifies this, nodes`pxNext, nodes`pxPrevious, x`pxNext, x`pxPrevious, x`pvContainer
      ensures Valid()
      ensures Abs() == old(Abs()).InsertEnd(x)
    {
      hide NextLinks, PrevLinks, Members, Distinct, InsertedAt;
      ghost var r, k := Abs(), IndexOf(nodes, pxIndex);
      ghost var j := if k == 0 then |nodes| - 1 else k - 1;
      Predecessor(k);
      LinkBehind(pxIndex.pxPrevious, x, j);
      AbsAfterInsert(r, old(nodes), pxIndex, j, x);
      assert r.InsertEnd(x) == r.InsertAt(j, x);
    }

    /** The scan of vListInsert. It ends because the end marker carries the largest
        value; a new item that carries that value too skips the scan. */
    method FindPosition(v: nat) returns (pxIterator: ListItem, ghost j: nat)
      requires Valid() && v <= MAX_DELAY
      ensures pxIterator == nodes[InsertPos(Values(), v)] && j == InsertPos(Values(), v)
    {
      pxIterator, j := xListEnd, 0;
      if v == MAX_DELAY {
        pxIterator := xListEnd.pxPrevious;
        j := |nodes| - 1;
      } else {
        while pxIterator.pxNext.xItemValue <= v
          invariant j < |nodes| && nodes[j] == pxIterator && pxIterator.pxNext != null
          invariant forall i :: 0 <= i < j ==> Values()[i] <= v
          decreases |nodes| - j
        {
          pxIterator := pxIterator.pxNext;
          j := j + 1;
        }
      }
      InsertPosUnique(Values(), v, j);
    }

    /** vListInsert. */
    method Insert(x: ListItem)
      requires Valid() && x !in nodes && x.xItemValue <= MAX_DELAY
      modifies this, nodes`pxNext, nodes`pxPrevious, x`pxNext, x`pxPrevious, x`pvContainer
      ensures Valid()
      ensures Abs() == old(Abs()).InsertAt(InsertPos(old(Values()), x.xItemValue), x)
    {
      hide NextLinks, PrevLinks, Members, InsertPos, Distinct, InsertedAt;
      ghost var r := Abs();
      var pxIterator, j := FindPosition(x.xItemValue);
      LinkBehind(pxIterator, x, j);
      AbsAfterInsert(r, old(nodes), pxIndex, j, x);
    }

    /** The nodes on both sides of the node at place k. */
    lemma Neighbours(k: nat)
      requires Valid() && 1 <= k < |nodes|
      ensures nodes[k].pxPrevious == nodes[k - 1]
      ensures var next := nodes[if k + 1 == |nodes| then 0 else k + 1]; nodes[k].pxNext == next && next != nodes[k]
    {
    }

    /** The writes of uxListRemove on the node at place k. */
    method Unlink(x: ListItem, ghost k: nat)
      requires Valid() && 1 <= k < |nodes| && nodes[k] == x
      modifies this, nodes`pxNext, nodes`pxPrevious, x`pvContainer
      ensures RemovedAt(old(nodes), nodes, k) && Distinct(nodes) && nodes != [] && nodes[0] == xListEnd
      ensures NextLinks(nodes) && PrevLinks(nodes) && Members(nodes, this) && x.pvContainer == null
      ensures pxIndex == if old(pxIndex) == x then old(nodes)[k - 1] else old(pxIndex)
      ensures uxNumberOfItems == old(uxNumberOfItems) - 1
    {
      hide NextLinks, PrevLinks, Members, RemovedAt, TakeOut;
      Neighbours(k);
      x.pxNext.pxPrevious := x.pxPrevious;
      x.pxPrevious.pxNext := x.pxNext;
      pxIndex := if pxIndex == x then x.pxPrevious else pxIndex;
      x.pvContainer := null;
      uxNumberOfItems := uxNumberOfItems - 1;
      ghost var shorter := TakeOut(nodes, k);
      RemoveNode(nodes, k, shorter);
      nodes := shorter;
      NextLinksKeptByRemove(k);
      PrevLinksKeptByRemove(k);
      MembersKeptByRemove(k);
    }

    /** uxListRemove. */
    method Remove(x: ListItem) returns (remaining: nat)
      requires Valid() && x in nodes && x != xListEnd
      modifies this, nodes`pxNext, nodes`pxPrevious, x`pvContainer
      ensures Valid()
      ensures Abs() == old(Abs()).Remove(x)
      ensures x.pvContainer == null && remaining == |Items()| == old(|Items()|) - 1
    {
      ghost var r, k := Abs(), IndexOf(nodes, x);
      Unlink(x, k);
      AbsAfterRemove(r, old(nodes), old(pxIndex), k);
      remaining := uxNumberOfItems;
    }

    /** listGET_OWNER_OF_NEXT_ENTRY. */
    method NextEntry() returns (owner: object?)
      requires Valid() && |nodes| > 1
      modifies this`pxIndex
      ensures Valid()
      ensures Abs() == old(Abs()).Next()
      ensures owner == Abs().Current().pvOwner
    {
      ghost var k := IndexOf(nodes, pxIndex);
      pxIndex := pxIndex.pxNext;
      if pxIndex == xListEnd {
        pxIndex := pxIndex.pxNext;
      }
      owner := pxIndex.pvOwner;
      assert pxIndex == nodes[if k + 1 == |nodes| then 1 else k + 1];
    }

    lemma AbsAfterRemove(r: Ring<ListItem>, was: seq<ListItem>, index: ListItem, k: nat)
      requires Distinct(was) && index in was && 1 <= k < |was|
      requires RemovedAt(was, nodes, k) && Distinct(nodes)
      requires pxIndex == if index == was[k] then was[k - 1] else index
      ensures pxIndex in nodes
      requires r == Ring(was[1..], IndexOf(was, index) - 1)
      ensures was[k] in r.items && Abs() == r.Remove(was[k])
    {
      hide Distinct, IndexOf, RemovedAt;
      var i := IndexOf(was, index);
      IndexIs(was, k);
      RemovedParts(was, nodes, k, i);
      IndexIs(nodes, if i < k then i else i - 1);
      RemoveNth(was, r, k);
    }

    lemma RemovedParts(was: seq<ListItem>, s: seq<ListItem>, k: nat, i: nat)
      requires RemovedAt(was, s, k) && 1 <= k && i < |was|
      ensures |s| == |was| - 1 && s[1..] == was[1..][..k - 1] + was[1..][k..]
      ensures s[if i < k then i else i - 1] == if i == k then was[k - 1] else was[i]
    {
    }

    lemma IndexIs(s: seq<ListItem>, p: nat)
      requires Distinct(s) && p < |s|
      ensures s[p] in s && IndexOf(s, s[p]) == p
    {
    }

    lemma RemoveNth(was: seq<ListItem>, r: Ring<ListItem>, k: nat)
      requires Distinct(was) && 1 <= k < |was| && r.items == was[1..]
      ensures was[k] in r.items && r.Remove(was[k]) == r.RemoveAt(k - 1)
    {
      assert r.items[k - 1] == was[k];
    }

    twostate lemma MembersKeptByRemove(k: nat)
      requires old(Members(nodes, this)) && RemovedAt(old(nodes), nodes, k)
      requires forall i :: 0 <= i < |old(nodes)| && i != k ==>
        old(nodes)[i].pvContainer == old(nodes[i].pvContainer) && old(nodes)[i].xItemValue == old(nodes[i].xItemValue)
      requires k > 0
      ensures Members(nodes, this)
    {
    }

    twostate lemma NextLinksKeptByRemove(k: nat)
      requires old(nodes != [] && NextLinks(nodes)) && 1 <= k < |old(nodes)| && Distinct(old(nodes))
      requires RemovedAt(old(nodes), nodes, k)
      requires old(nodes)[k - 1].pxNext == old(nodes)[if k + 1 == |old(nodes)| then 0 else k + 1]
      requires forall m :: m in old(nodes) && m != old(nodes)[k - 1] ==> m.pxNext == old(m.pxNext)
      ensures NextLinks(nodes)
    {
    }

    twostate lemma PrevLinksKeptByRemove(k: nat)
      requires old(nodes != [] && PrevLinks(nodes)) && 1 <= k < |old(nodes)| && Distinct(old(nodes))
      requires RemovedAt(old(nodes), nodes, k)
      requires var n := old(nodes)[if k + 1 == |old(nodes)| then 0 else k + 1];
        n.pxPrevious == old(nodes)[k - 1] && forall m :: m in old(nodes) && m != n ==> m.pxPrevious == old(m.pxPrevious)
      ensures PrevLinks(nodes)
    {
    }
  }
}
