/** The queue-set branches of queue.c as they run, refined to QueueSetModel: every operation
    keeps messages answered for by handles, counts and selections. */
module QueueSets {
  import opened QueueModel
  import opened QueueSetModel

  /** A set and the queues that may join it; queues are named by their index. */
  class QueueSet {
    var members: seq<Member>
    var handles: seq<nat>
    const uxLength: nat
    ghost var refused: bool

    ghost function Abs(): Sets
      reads this
    {
      Sets(members, handles, uxLength, refused)
    }

    /** prvNotifyQueueSetContainer; the assertion at its start is recorded, as the code
        goes on to test the same condition. */
    method NotifyQueueSetContainer(i: nat, position: Position)
      modifies this`handles, this`refused
      ensures Abs() == Notify(old(Abs()), i, position)
      ensures refused == (old(refused) || old(|handles|) >= uxLength)
      ensures position != Overwrite ==>
        forall j :: CountOf(handles, j) ==
          old(CountOf(handles, j)) + (if j == i && old(|handles|) < uxLength then 1 else 0)
    {
      if position != Overwrite {
        forall j ensures CountOf(Put(handles, i, position), j) == CountOf(handles, j) + (if i == j then 1 else 0) {
          CountPut(handles, i, position, j);
        }
      }
      if |handles| >= uxLength {
        refused := true;
      }
      if |handles| < uxLength {
        handles := Put(handles, i, position);
      }
    }

    /** The part of xQueueGenericSend that concerns the count and the set. */
    method Send(i: nat, position: Position) returns (sent: bool)
      requires i < |members|
      modifies this
      ensures Abs() == Step(old(Abs()), SendTo(i, position))
        && sent == (old(members[i].messages) < old(members[i].length))
      ensures old(Conserved(Abs()) && Enabled(Abs(), SendTo(i, position))) ==> Conserved(Abs())
    {
      hide Conserved, Enabled, CountOf;
      if Conserved(Abs()) && Enabled(Abs(), SendTo(i, position)) { SendKeeps(Abs(), i, position); }
      var m := members[i];
      sent := m.messages < m.length;
      if sent {
        members := members[i := m.(messages := m.messages + 1)];
        if m.inSet {
          NotifyQueueSetContainer(i, position);
        }
      }
    }

    /** And of xQueueGenericSendFromISR. */
    method SendFromISR(i: nat, position: Position) returns (sent: bool)
      requires i < |members|
      modifies this
      ensures Abs() == Step(old(Abs()), IsrSendTo(i, position))
        && sent == (old(members[i].messages) < old(members[i].length))
      ensures old(Conserved(Abs()) && Enabled(Abs(), IsrSendTo(i, position))) ==> Conserved(Abs())
    {
      hide Conserved, Enabled, CountOf;
      if Conserved(Abs()) && Enabled(Abs(), IsrSendTo(i, position)) { IsrSendKeeps(Abs(), i, position); }
      var m := members[i];
      sent := m.messages < m.length;
      if sent {
        var txLock := m.txLock;
        members := members[i := m.(messages := m.messages + 1)];
        if txLock == UNLOCKED {
          if m.inSet {
            NotifyQueueSetContainer(i, position);
          }
        } else {
          members := members[i := members[i].(txLock := NextLock(txLock))];
        }
      }
    }

    /** The first loop of prvUnlockQueue for a member. */
    method Unlock(i: nat)
      requires i < |members|
      modifies this
      ensures Abs() == Step(old(Abs()), UnlockMember(i))
      ensures old(Conserved(Abs())) ==> Conserved(Abs())
    {
      hide Conserved, CountOf;
      if Conserved(Abs()) { LockKeeps(Abs(), i); }
      var txLock := members[i].txLock;
      while txLock > LOCKED_UNMODIFIED
        invariant members == old(members)
        invariant members[i].inSet ==> NotifyAll(Abs(), i, txLock) == NotifyAll(old(Abs()), i, old(members[i].txLock))
        invariant !members[i].inSet ==> Abs() == old(Abs())
      {
        if members[i].inSet {
          NotifyQueueSetContainer(i, Back);
        } else {
          break;
        }
        txLock := txLock - 1;
      }
      members := members[i := members[i].(txLock := UNLOCKED)];
    }

    /** xQueueSelectFromSet without waiting: a queue that is selected has an item to read. */
    method SelectFromSet() returns (found: bool, i: nat)
      requires forall h :: h in handles ==> h < |members|
      modifies this
      ensures Abs() == Step(old(Abs()), Event.Select)
      ensures found == (old(handles) != []) && (found ==> i == old(handles)[0] && i < |members|)
      ensures old(Conserved(Abs())) ==> Conserved(Abs()) && (found ==> members[i].messages > 0)
    {
      hide Conserved, CountOf;
      if Conserved(Abs()) && handles != [] { SelectedHasItem(Abs()); }
      if handles == [] {
        return false, 0;
      }
      i := handles[0];
      assert i in handles;
      handles := handles[1..];
      members := members[i := members[i].(selected := members[i].selected + 1)];
      return true, i;
    }

    lemma SelectedHasItem(s: Sets)
      requires Conserved(s) && s.handles != []
      ensures var (i, r) := (s.handles[0], Step(s, Event.Select));
        Conserved(r) && i < |r.members| && r.members[i].messages > 0
    {
      SelectKeeps(s);
      assert s.handles[0] in s.handles;
      SelectionCanBeRead(Step(s, Event.Select), s.handles[0]);
    }

    /** xQueueAddToSet. */
    method Add(i: nat) returns (passed: bool)
      requires i < |members|
      modifies this`members
      ensures Abs() == Step(old(Abs()), AddToSet(i))
        && passed == (!old(members[i].inSet) && old(members[i].messages) == 0)
      ensures old(Conserved(Abs()) && Enabled(Abs(), AddToSet(i))) ==> Conserved(Abs())
    {
      hide Conserved, Enabled, TotalLength;
      if Conserved(Abs()) && Enabled(Abs(), AddToSet(i)) { AddKeeps(Abs(), i); }
      if members[i].inSet {
        passed := false;
      } else if members[i].messages != 0 {
        passed := false;
      } else {
        members := members[i := members[i].(inSet := true)];
        passed := true;
      }
    }
  }
}
