/** Runs of an event group: no blocked task's condition is met, and a rendezvous releases
    everyone at once. */
module EventGroupSafety {
  import opened Common
  import opened EventGroupModel

  datatype Event =
    | Set(bits: Bits)
    | Clear(bits: Bits)
    | Wait(task: Task, waitFor: Bits, clear: bool, all: bool, block: bool)
    | Meet(task: Task, set_: Bits, waitFor: Bits, block: bool)
    | Expire(task: Task)
    | Late(waitFor: Bits, clear: bool, all: bool)
    | Remove

  function Step(g: Group, e: Event): Group {
    match e
    case Set(bits) => SetBits(g, bits)
    case Clear(bits) => ClearBits(g, bits)
    case Wait(t, waitFor, clear, all, block) => WaitBits(g, t, waitFor, clear, all, block)
    case Meet(t, set_, waitFor, block) => Sync(g, t, set_, waitFor, block)
    case Expire(t) => TimeOut(g, t)
    case Late(waitFor, clear, all) => LateCheck(g, waitFor, clear, all)
    case Remove => Delete(g)
  }

  predicate IsWaiting(g: Group, t: Task) {
    exists i :: 0 <= i < |g.waiting| && g.waiting[i].task == t
  }

  /** The source asserts that callers keep off the control bits and wait for something. */
  predicate Enabled(g: Group, e: Event) {
    match e
    case Set(bits) => IsUser(bits)
    case Clear(bits) => IsUser(bits)
    case Wait(t, waitFor, _, _, _) => IsUser(waitFor) && waitFor != 0 && !IsWaiting(g, t)
    case Meet(t, set_, waitFor, _) => IsUser(set_) && IsUser(waitFor) && waitFor != 0 && !IsWaiting(g, t)
    case Expire(_) => true
    case Late(waitFor, _, _) => IsUser(waitFor)
    case Remove => true
  }

  ghost predicate Run(gs: seq<Group>, events: seq<Event>) {
    && |gs| == |events| + 1
    && forall i :: 0 <= i < |events| ==> Enabled(gs[i], events[i]) && gs[i + 1] == Step(gs[i], events[i])
  }

  // ---- no blocked task's condition is met ----

  ghost predicate NoneSatisfied(waiting: seq<Waiter>, bits: Bits) {
    forall w :: w in waiting ==> !Matches(bits, w.value)
  }

  ghost predicate Inv(g: Group) {
    IsUser(g.bits) && DistinctTasks(g.waiting) && NoneSatisfied(g.waiting, g.bits)
  }

  lemma StillNone(waiting: seq<Waiter>, bits: Bits, clear: Bits)
    requires NoneSatisfied(waiting, bits)
    ensures NoneSatisfied(waiting, AndNot(bits, clear))
  {
    hide Matches, AndNot;
    forall w | w in waiting ensures !Matches(AndNot(bits, clear), w.value) {
      if Matches(AndNot(bits, clear), w.value) { FewerBits(bits, clear, w.value); }
    }
  }

  lemma SetKeeps(g: Group, set_: Bits)
    requires Inv(g) && IsUser(set_)
    ensures Inv(SetBits(g, set_))
    ensures NoneSatisfied(SetBits(g, set_).waiting, Or(g.bits, set_)) && IsUser(Or(g.bits, set_))
    ensures forall t :: IsWaiting(SetBits(g, set_), t) ==> IsWaiting(g, t)
  {
    hide Matches, Or, AndNot, ClearMask, IsUser, Release;
    var bits := Or(g.bits, set_);
    KeptExact(g.waiting, bits);
    UserBits(g.bits, set_);
    UserBits(bits, ClearMask(g.waiting, bits));
    StillNone(Kept(g.waiting, bits), bits, ClearMask(g.waiting, bits));
    var r := SetBits(g, set_);
    forall t | IsWaiting(r, t) ensures IsWaiting(g, t) {
      var i :| 0 <= i < |r.waiting| && r.waiting[i].task == t;
      assert r.waiting[i] in g.waiting;
    }
  }

  lemma ClearKeeps(g: Group, clear: Bits)
    requires Inv(g)
    ensures Inv(ClearBits(g, clear))
  {
    hide Matches, AndNot, IsUser;
    StillNone(g.waiting, g.bits, clear);
    UserBits(g.bits, clear);
  }

  /** A waiter whose condition is not met joins at the end of the list. */
  lemma JoinKeeps(g: Group, t: Task, waitFor: Bits, clear: bool, all: bool)
    requires Inv(g) && !IsWaiting(g, t) && IsUser(waitFor) && !TestWaitCondition(g.bits, waitFor, all)
    ensures Inv(g.(waiting := g.waiting + [Waiter(t, ItemValue(waitFor, clear, all))]))
  {
    hide TestWaitCondition, ItemValue, WaitedFor, WaitsForAll, ClearsOnExit, IsUser;
    ItemValueParts(waitFor, clear, all);
  }

  lemma WaitKeeps(g: Group, e: Event)
    requires Inv(g) && Enabled(g, e) && e.Wait?
    ensures Inv(Step(g, e))
  {
    hide Inv, TestWaitCondition, ItemValue, ClearBits;
    if TestWaitCondition(g.bits, e.waitFor, e.all) {
      ClearKeeps(g, e.waitFor);
    } else if e.block {
      JoinKeeps(g, e.task, e.waitFor, e.clear, e.all);
    }
  }

  lemma MeetKeeps(g: Group, e: Event)
    requires Inv(g) && Enabled(g, e) && e.Meet?
    ensures Inv(Step(g, e))
  {
    hide Inv, TestWaitCondition, ItemValue, ClearBits, SetBits, Or, AndNot, IsUser;
    SetKeeps(g, e.set_);
    var r := SetBits(g, e.set_);
    if TestWaitCondition(Or(g.bits, e.set_), e.waitFor, true) {
      ClearKeeps(r, e.waitFor);
    } else if e.block {
      SetBitsFewer(g, e.set_, e.waitFor);
      JoinKeeps(r, e.task, e.waitFor, true, true);
    }
  }

  lemma SetBitsFewer(g: Group, set_: Bits, waitFor: Bits)
    requires !TestWaitCondition(Or(g.bits, set_), waitFor, true)
    ensures !TestWaitCondition(SetBits(g, set_).bits, waitFor, true)
  {
    hide TestWaitCondition, Or, AndNot, ClearMask, Kept, Release;
    var bits := Or(g.bits, set_);
    var mask := ClearMask(g.waiting, bits);
    if TestWaitCondition(AndNot(bits, mask), waitFor, true) { FewerBitsTest(bits, mask, waitFor, true); }
  }

  lemma {:induction false} WithoutTaskMembers(waiting: seq<Waiter>, t: Task)
    ensures forall w :: w in WithoutTask(waiting, t) ==> w in waiting
    ensures DistinctTasks(waiting) ==> DistinctTasks(WithoutTask(waiting, t))
  {
    if waiting != [] {
      WithoutTaskMembers(waiting[1..], t);
      var rest := WithoutTask(waiting[1..], t);
      if DistinctTasks(waiting) {
        forall w | w in rest ensures w.task != waiting[0].task {
          assert w in waiting[1..];
        }
      }
    }
  }

  lemma StepInv(g: Group, e: Event)
    requires Inv(g) && Enabled(g, e)
    ensures Inv(Step(g, e))
  {
    hide Matches, IsUser, SetBits, ClearBits, TestWaitCondition, WaitBits, Sync;
    match e {
      case Set(bits) => SetKeeps(g, bits);
      case Clear(bits) => ClearKeeps(g, bits);
      case Wait(_, _, _, _, _) => WaitKeeps(g, e);
      case Meet(_, _, _, _) => MeetKeeps(g, e);
      case Expire(t) => WithoutTaskMembers(g.waiting, t);
      case Late(waitFor, _, _) => ClearKeeps(g, waitFor);
      case Remove =>
    }
  }

  lemma EmptyInv()
    ensures Inv(Group(0, [], map[]))
  {
  }

  /** In every reachable state no blocked task's wait condition is met by the current bits. */
  lemma {:induction false} NoWaiterSatisfied(gs: seq<Group>, events: seq<Event>, i: nat)
    requires Run(gs, events) && i < |gs| && gs[0] == Group(0, [], map[])
    ensures Inv(gs[i])
  {
    hide Enabled, Step, Inv;
    if i == 0 {
      EmptyInv();
    } else {
      NoWaiterSatisfied(gs, events, i - 1);
      StepInv(gs[i - 1], events[i - 1]);
    }
  }

  // ---- a rendezvous ----

  lemma {:induction false} KeptAll(waiting: seq<Waiter>, bits: Bits, unblocked: map<Task, Bits>)
    requires NoneSatisfied(waiting, bits)
    ensures Kept(waiting, bits) == waiting && ClearMask(waiting, bits) == 0
      && Release(unblocked, waiting, bits) == unblocked
  {
    hide Matches, ReleaseValue, Or;
    if waiting != [] {
      assert waiting[0] in waiting && forall w :: w in waiting[1..] ==> w in waiting;
      KeptAll(waiting[1..], bits, unblocked);
      OrLaws(0, 0, 0);
    }
  }

  lemma {:induction false} KeptNone(waiting: seq<Waiter>, bits: Bits)
    requires forall w :: w in waiting ==> Matches(bits, w.value)
    ensures Kept(waiting, bits) == []
  {
    hide Matches;
    if waiting != [] {
      assert waiting[0] in waiting && forall w :: w in waiting[1..] ==> w in waiting;
      KeptNone(waiting[1..], bits);
    }
  }

  /** One participant and the bit it brings. */
  datatype Participant = Participant(task: Task, bits: Bits)

  function Brought(ps: seq<Participant>): Bits {
    if ps == [] then 0 else Or(Brought(ps[..|ps| - 1]), ps[|ps| - 1].bits)
  }

  function Waiters(ps: seq<Participant>, waitFor: Bits): seq<Waiter> {
    seq(|ps|, i requires 0 <= i < |ps| => Waiter(ps[i].task, ItemValue(waitFor, true, true)))
  }

  function SyncAll(g: Group, ps: seq<Participant>, waitFor: Bits): Group {
    if ps == [] then g
    else Sync(SyncAll(g, ps[..|ps| - 1], waitFor), ps[|ps| - 1].task, ps[|ps| - 1].bits, waitFor, true)
  }

  ghost predicate Incomplete(ps: seq<Participant>, waitFor: Bits) {
    forall n :: 0 <= n <= |ps| ==> !TestWaitCondition(Brought(ps[..n]), waitFor, true)
  }

  lemma IncompletePrefix(ps: seq<Participant>, waitFor: Bits)
    requires ps != [] && Incomplete(ps, waitFor)
    ensures Incomplete(ps[..|ps| - 1], waitFor) && !TestWaitCondition(Brought(ps), waitFor, true)
  {
    hide TestWaitCondition, Brought;
    var front := ps[..|ps| - 1];
    forall n | 0 <= n <= |front| ensures !TestWaitCondition(Brought(front[..n]), waitFor, true) {
      assert front[..n] == ps[..n];
    }
    assert ps[..|ps|] == ps;
  }

  lemma WaitersNotSatisfied(ps: seq<Participant>, waitFor: Bits, bits: Bits)
    requires IsUser(waitFor)
    ensures !TestWaitCondition(bits, waitFor, true) ==> NoneSatisfied(Waiters(ps, waitFor), bits)
    ensures TestWaitCondition(bits, waitFor, true) ==> forall w :: w in Waiters(ps, waitFor) ==> Matches(bits, w.value)
  {
    hide TestWaitCondition, ItemValue, WaitedFor, WaitsForAll, ClearsOnExit, IsUser;
    ItemValueParts(waitFor, true, true);
  }

  /** As long as bits are missing, participants only gather: each adds its bit and waits. */
  lemma {:induction false} Gathering(ps: seq<Participant>, waitFor: Bits)
    requires IsUser(waitFor) && Incomplete(ps, waitFor)
    ensures SyncAll(Group(0, [], map[]), ps, waitFor) == Group(Brought(ps), Waiters(ps, waitFor), map[])
  {
    hide TestWaitCondition, ItemValue, Or, AndNot, IsUser, Matches;
    if ps != [] {
      var front, last := ps[..|ps| - 1], ps[|ps| - 1];
      IncompletePrefix(ps, waitFor);
      Gathering(front, waitFor);
      var bits := Or(Brought(front), last.bits);
      WaitersNotSatisfied(front, waitFor, bits);
      KeptAll(Waiters(front, waitFor), bits, map[]);
      ClearNothing(bits);
      assert Waiters(ps, waitFor) == Waiters(front, waitFor) + [Waiter(last.task, ItemValue(waitFor, true, true))];
    } else {
      assert Waiters(ps, waitFor) == [];
    }
  }

  lemma ClearNothing(bits: Bits)
    ensures AndNot(bits, 0) == bits
  {
  }

  lemma ClearedNone(bits: Bits, waitFor: Bits)
    ensures AndNot(bits, waitFor) & waitFor == 0
  {
  }

  /** A rendezvous. Participants arrive one by one at a fresh group, each with its bit and
      all waiting for the same bits. As soon as one brings the last missing bit, that one
      call releases all who wait, each with all the bits, and the bits are cleared. */
  lemma Rendezvous(ps: seq<Participant>, last: Participant, waitFor: Bits, k: nat)
    requires IsUser(waitFor) && Incomplete(ps, waitFor) && k < |ps|
    requires forall i, j :: 0 <= i < j < |ps| ==> ps[i].task != ps[j].task
    requires TestWaitCondition(Brought(ps + [last]), waitFor, true)
    ensures var r := SyncAll(Group(0, [], map[]), ps + [last], waitFor);
      && r.waiting == [] && r.bits & waitFor == 0
      && ps[k].task in r.unblocked && r.unblocked[ps[k].task] == ReleaseValue(Brought(ps + [last]))
  {
    hide TestWaitCondition, ItemValue, Or, AndNot, IsUser, Matches, ClearMask, ReleaseValue;
    var all := ps + [last];
    assert all[..|all| - 1] == ps;
    Gathering(ps, waitFor);
    var bits := Or(Brought(ps), last.bits);
    var ws := Waiters(ps, waitFor);
    WaitersNotSatisfied(ps, waitFor, bits);
    KeptNone(ws, bits);
    ClearedNone(SetBits(Group(Brought(ps), ws, map[]), last.bits).bits, waitFor);
    assert ws[k] in ws;
    ReleaseExact(map[], ws, bits, ps[k].task);
  }
}
