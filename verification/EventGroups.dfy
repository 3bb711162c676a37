/** event_groups.c as it runs: the traversal that removes while it walks, refined to
    EventGroupModel. Every call leaves no task waiting whose condition is met. */
module EventGroups {
  import opened Common
  import opened EventGroupModel
  import opened EventGroupSafety
  import opened EventGroupWaiting

  class EventGroup {
    var uxEventBits: Bits
    var xTasksWaitingForBits: seq<Waiter>
    /** Event item values of the tasks that were released. */
    var itemValues: map<Task, Bits>

    ghost function Abs(): Group
      reads this
    {
      Group(uxEventBits, xTasksWaitingForBits, itemValues)
    }

    constructor ()
      ensures Abs() == Group(0, [], map[])
    {
      uxEventBits, xTasksWaitingForBits, itemValues := 0, [], map[];
    }

    /** vTaskRemoveFromUnorderedEventList for the i-th task on the list. */
    method RemoveFromUnorderedEventList(i: nat, value: Bits)
      requires i < |xTasksWaitingForBits|
      modifies this`xTasksWaitingForBits, this`itemValues
      ensures xTasksWaitingForBits == old(xTasksWaitingForBits[..i] + xTasksWaitingForBits[i + 1..])
      ensures itemValues == old(itemValues[xTasksWaitingForBits[i].task := Or(value, ITEM_VALUE_IN_USE)])
    {
      itemValues := itemValues[xTasksWaitingForBits[i].task := Or(value, ITEM_VALUE_IN_USE)];
      xTasksWaitingForBits := xTasksWaitingForBits[..i] + xTasksWaitingForBits[i + 1..];
    }

    /** xEventGroupSetBits. i is the place of pxListItem: after a removal the next item
        has moved into it. */
    method SetBits(uxBitsToSet: Bits) returns (bits: Bits)
      modifies this
      ensures Abs() == EventGroupModel.SetBits(old(Abs()), uxBitsToSet) && bits == uxEventBits
      ensures old(Inv(Abs())) && IsUser(uxBitsToSet) ==> Inv(Abs())
    {
      if Inv(Abs()) && IsUser(uxBitsToSet) { SetKeeps(Abs(), uxBitsToSet); }
      SetBitsBody(uxBitsToSet);
      return uxEventBits;
    }

    /** The body of xEventGroupSetBits. */
    method SetBitsBody(uxBitsToSet: Bits)
      modifies this
      ensures Abs() == EventGroupModel.SetBits(old(Abs()), uxBitsToSet)
    {
      hide Or, AndNot, Matches, TestWaitCondition, ReleaseValue, WaitedFor, WaitsForAll, ClearsOnExit, ClearMask, Kept;
      ghost var waiting := xTasksWaitingForBits;
      var uxBitsToClear: Bits := 0;
      var i := 0;
      uxEventBits := Or(uxEventBits, uxBitsToSet);
      ghost var newBits := uxEventBits;
      ghost var n := 0;
      OrZeroLeft(ClearMask(waiting, newBits));
      while i < |xTasksWaitingForBits|
        invariant n <= |waiting| && i <= |xTasksWaitingForBits|
        invariant xTasksWaitingForBits[i..] == waiting[n..]
        invariant xTasksWaitingForBits[..i] + Kept(waiting[n..], newBits) == Kept(waiting, newBits)
        invariant Or(uxBitsToClear, ClearMask(waiting[n..], newBits)) == ClearMask(waiting, newBits)
        invariant Release(itemValues, waiting[n..], newBits) == Release(old(itemValues), waiting, newBits)
        invariant uxEventBits == newBits
        decreases |waiting| - n
      {
        ghost var rest := waiting[n..];
        var w := xTasksWaitingForBits[i];
        assert rest[1..] == waiting[n + 1..];
        KeptStep(xTasksWaitingForBits, i, rest, newBits);
        var matched := MatchItem(w.value, uxEventBits);
        MaskStep(uxBitsToClear, w, rest, newBits);
        if matched {
          if ClearsOnExit(w.value) {
            uxBitsToClear := Or(uxBitsToClear, WaitedFor(w.value));
          }
          ReleaseIs(uxEventBits);
          RemoveFromUnorderedEventList(i, Or(uxEventBits, UNBLOCKED_DUE_TO_BIT_SET));
        } else {
          i := i + 1;
        }
        n := n + 1;
      }
      assert waiting[n..] == [];
      KeptEnd(newBits);
      OrZeroRight(uxBitsToClear);
      uxEventBits := AndNot(uxEventBits, uxBitsToClear);
    }

    /** The match of the traversal: control bits and bits waited for share the value. */
    method MatchItem(value: Bits, bits: Bits) returns (matched: bool)
      ensures matched == Matches(bits, value)
    {
      hide And, Matches, ControlOf, WaitedFor;
      var uxControlBits := ControlOf(value);
      var uxBitsWaitedFor := WaitedFor(value);
      MatchIs(value, bits);
      matched := false;
      if And(uxControlBits, WAIT_FOR_ALL_BITS) == 0 {
        if And(uxBitsWaitedFor, bits) != 0 {
          matched := true;
        }
      } else if And(uxBitsWaitedFor, bits) == uxBitsWaitedFor {
        matched := true;
      }
    }

    /** xEventGroupClearBits returns the bits as they were; clearing satisfies nobody. */
    method ClearBits(uxBitsToClear: Bits) returns (bits: Bits)
      modifies this`uxEventBits
      ensures Abs() == EventGroupModel.ClearBits(old(Abs()), uxBitsToClear) && bits == old(uxEventBits)
      ensures And(uxEventBits, uxBitsToClear) == 0 && Or(uxEventBits, And(bits, uxBitsToClear)) == bits
      ensures old(Inv(Abs())) ==> Inv(Abs())
    {
      hide And, Or, AndNot, Inv;
      if Inv(Abs()) { ClearKeeps(Abs(), uxBitsToClear); }
      ClearedBits(uxEventBits, uxBitsToClear);
      bits := uxEventBits;
      uxEventBits := AndNot(uxEventBits, uxBitsToClear);
    }

    lemma ClearedBits(bits: Bits, clear: Bits)
      ensures And(AndNot(bits, clear), clear) == 0 && Or(AndNot(bits, clear), And(bits, clear)) == bits
    {
    }

    /** The part of xEventGroupWaitBits under the suspended scheduler: only a task whose
        condition is not met joins the wait list. */
    method WaitBits(t: Task, waitFor: Bits, clear: bool, all: bool, block: bool) returns (blocked: bool, bits: Bits)
      modifies this
      ensures Abs() == EventGroupModel.WaitBits(old(Abs()), t, waitFor, clear, all, block)
      ensures blocked == (block && !TestWaitCondition(old(uxEventBits), waitFor, all))
      ensures !blocked ==> bits == old(uxEventBits)
      ensures old(Inv(Abs()) && Enabled(Abs(), Wait(t, waitFor, clear, all, block))) ==>
        && Inv(Abs())
        && (blocked ==>
             && uxEventBits == old(uxEventBits) && |xTasksWaitingForBits| == old(|xTasksWaitingForBits|) + 1
             && xTasksWaitingForBits[..|xTasksWaitingForBits| - 1] == old(xTasksWaitingForBits)
             && Asks(xTasksWaitingForBits[|xTasksWaitingForBits| - 1], t, waitFor, clear, all))
        && (!blocked ==> xTasksWaitingForBits == old(xTasksWaitingForBits))
        && (!blocked && clear && Satisfies(bits, waitFor, all) ==> And(uxEventBits, waitFor) == 0)
    {
      hide TestWaitCondition, Inv, Enabled, Asks, Satisfies, And;
      ghost var e := Wait(t, waitFor, clear, all, block);
      if Inv(Abs()) && Enabled(Abs(), e) {
        WaitKeeps(Abs(), e);
        WaitOutcome(Abs(), t, waitFor, clear, all, block);
        TestSatisfies(uxEventBits, waitFor, all);
      }
      var current := uxEventBits;
      blocked, bits := false, current;
      if TestWaitCondition(current, waitFor, all) {
        if clear {
          var _ := ClearBits(waitFor);
        }
      } else if block {
        xTasksWaitingForBits := xTasksWaitingForBits + [Waiter(t, ItemValue(waitFor, clear, all))];
        blocked, bits := true, 0;
      }
    }

    /** The part of xEventGroupSync under the suspended scheduler: the task returns with all
        the bits, or joins a list of tasks none of whose conditions is met. */
    method Sync(t: Task, uxBitsToSet: Bits, waitFor: Bits, block: bool) returns (blocked: bool, bits: Bits)
      modifies this
      ensures Abs() == EventGroupModel.Sync(old(Abs()), t, uxBitsToSet, waitFor, block)
      ensures var met := Or(old(uxEventBits), uxBitsToSet);
        if TestWaitCondition(met, waitFor, true) then !blocked && bits == met
        else blocked == block && (!block ==> bits == uxEventBits)
      ensures old(Inv(Abs()) && Enabled(Abs(), Meet(t, uxBitsToSet, waitFor, block))) ==> Inv(Abs())
    {
      hide TestWaitCondition, Or, AndNot, EventGroupModel.SetBits, Inv, Enabled;
      ghost var e := Meet(t, uxBitsToSet, waitFor, block);
      if Inv(Abs()) && Enabled(Abs(), e) { MeetKeeps(Abs(), e); }
      var original := uxEventBits;
      var _ := SetBits(uxBitsToSet);
      var met := Or(original, uxBitsToSet);
      blocked, bits := false, uxEventBits;
      if TestWaitCondition(met, waitFor, true) {
        bits := met;
        var _ := ClearBits(waitFor);
      } else if block {
        xTasksWaitingForBits := xTasksWaitingForBits + [Waiter(t, ItemValue(waitFor, true, true))];
        blocked, bits := true, 0;
      }
    }

    /** vEventGroupDelete empties the list from the front: every waiting task returns no bits. */
    method Delete()
      modifies this
      ensures Abs() == EventGroupModel.Delete(old(Abs()))
      ensures xTasksWaitingForBits == [] && uxEventBits == old(uxEventBits)
      ensures forall w :: w in old(xTasksWaitingForBits) ==> w.task in itemValues && Returned(itemValues[w.task]) == 0
    {
      hide ReleaseValue, Or, Returned;
      forall w | w in xTasksWaitingForBits
        ensures var r := Step(Abs(), Remove); w.task in r.unblocked && Returned(r.unblocked[w.task]) == 0
      {
        DeleteOutcome(Abs(), w);
      }
      ReleaseIs(0);
      while |xTasksWaitingForBits| > 0
        invariant ReleaseAll(itemValues, xTasksWaitingForBits) == ReleaseAll(old(itemValues), old(xTasksWaitingForBits))
        invariant uxEventBits == old(uxEventBits)
        decreases |xTasksWaitingForBits|
      {
        OrZeroLeft(UNBLOCKED_DUE_TO_BIT_SET);
        ghost var waiting := xTasksWaitingForBits;
        RemoveFromUnorderedEventList(0, UNBLOCKED_DUE_TO_BIT_SET);
        assert xTasksWaitingForBits == waiting[1..];
      }
    }
  }

  lemma KeptEnd(bits: Bits)
    ensures Kept([], bits) == [] && ClearMask([], bits) == 0
  {
  }

  /** The list behind a waiter that stays, and in front of one that goes. */
  lemma KeptStep(list: seq<Waiter>, i: nat, rest: seq<Waiter>, bits: Bits)
    requires i < |list| && list[i..] == rest
    ensures rest[0] == list[i]
    ensures var kept := list[..i] + Kept(rest, bits);
      if Matches(bits, list[i].value) then
        var r := list[..i] + list[i + 1..]; r[i..] == rest[1..] && r[..i] + Kept(rest[1..], bits) == kept
      else list[i + 1..] == rest[1..] && list[..i + 1] + Kept(rest[1..], bits) == kept
  {
    hide Matches;
    assert rest[1..] == list[i + 1..];
    if Matches(bits, list[i].value) {
      assert (list[..i] + list[i + 1..])[..i] == list[..i] && Kept(rest, bits) == Kept(rest[1..], bits);
    } else {
      assert list[..i + 1] == list[..i] + [list[i]] && Kept(rest, bits) == [list[i]] + Kept(rest[1..], bits);
    }
  }

  lemma OrZeroLeft(b: Bits)
    ensures Or(0, b) == b
  {
  }

  lemma OrZeroRight(b: Bits)
    ensures Or(b, 0) == b
  {
  }

  lemma ReleaseIs(bits: Bits)
    ensures Or(Or(bits, UNBLOCKED_DUE_TO_BIT_SET), ITEM_VALUE_IN_USE) == ReleaseValue(bits)
  {
  }

  function ControlOf(value: Bits): Bits {
    value & EVENT_BITS_CONTROL_BYTES
  }

  lemma MatchIs(value: Bits, bits: Bits)
    ensures Matches(bits, value) ==
      if And(ControlOf(value), WAIT_FOR_ALL_BITS) == 0 then And(WaitedFor(value), bits) != 0
      else And(WaitedFor(value), bits) == WaitedFor(value)
  {
    hide WaitedFor, And, ControlOf, WaitsForAll;
    ControlBits(value);
    CommonBits(bits, WaitedFor(value));
  }

  lemma ControlBits(value: Bits)
    ensures (And(ControlOf(value), WAIT_FOR_ALL_BITS) == 0) == !WaitsForAll(value)
  {
  }

  lemma CommonBits(a: Bits, b: Bits)
    ensures a & b == And(b, a)
  {
  }

  /** One more waiter's contribution to the bits to clear. */
  lemma MaskStep(mask: Bits, w: Waiter, rest: seq<Waiter>, bits: Bits)
    requires rest != [] && rest[0] == w
    ensures Or(mask, ClearMask(rest, bits)) ==
      Or(if Matches(bits, w.value) && ClearsOnExit(w.value) then Or(mask, WaitedFor(w.value)) else mask,
        ClearMask(rest[1..], bits))
  {
    hide Matches, ClearsOnExit, WaitedFor, Or;
    OrLaws(mask, MaskOf(w, bits), ClearMask(rest[1..], bits));
    OrLaws(0, 0, ClearMask(rest[1..], bits));
  }
}
