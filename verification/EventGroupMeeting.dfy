/** A rendezvous in any run of an event group: whoever else sets, waits or times out, the
    tasks that meet gather until their bits are complete and leave together. */
module EventGroupMeeting {
  import opened Common
  import opened EventGroupModel
  import opened EventGroupSafety

  // ---- what a step does to the bits ----

  function Brings(e: Event): Bits {
    match e
    case Set(bits) => bits
    case Meet(_, set_, _, _) => set_
    case _ => 0
  }

  /** The bits that a step clears, after those it brings are set. */
  function Clears(g: Group, e: Event): Bits {
    match e
    case Set(bits) => ClearMask(g.waiting, Or(g.bits, bits))
    case Clear(bits) => bits
    case Wait(_, waitFor, clear, all, _) => if TestWaitCondition(g.bits, waitFor, all) && clear then waitFor else 0
    case Meet(_, set_, waitFor, _) =>
      var bits := Or(g.bits, set_);
      Or(ClearMask(g.waiting, bits), if TestWaitCondition(bits, waitFor, true) then waitFor else 0)
    case Late(waitFor, clear, all) => if TestWaitCondition(g.bits, waitFor, all) && clear then waitFor else 0
    case _ => 0
  }

  lemma ClearTwice(bits: Bits, a: Bits, b: Bits)
    ensures AndNot(AndNot(bits, a), b) == AndNot(bits, Or(a, b)) && AndNot(bits, 0) == bits && Or(bits, 0) == bits
  {
  }

  lemma StepBits(g: Group, e: Event)
    ensures Step(g, e).bits == AndNot(Or(g.bits, Brings(e)), Clears(g, e))
  {
    hide Or, AndNot, TestWaitCondition, ClearMask, Kept, Release;
    var bits := Or(g.bits, Brings(e));
    ClearTwice(bits, Clears(g, e), 0);
    ClearTwice(g.bits, 0, 0);
    ClearTwice(ClearMask(g.waiting, bits), 0, 0);
    if e.Meet? { ClearTwice(bits, ClearMask(g.waiting, bits), e.waitFor); }
  }

  lemma ClearsNone(bits: Bits, clear: Bits, w: Bits)
    requires And(clear, w) == 0
    ensures And(AndNot(bits, clear), w) == And(bits, w)
  {
  }

  lemma ClearsAll(bits: Bits, clear: Bits, w: Bits)
    requires And(clear, w) == w
    ensures And(AndNot(bits, clear), w) == 0
  {
  }

  lemma AndOr(a: Bits, b: Bits, w: Bits)
    ensures And(Or(a, b), w) == Or(And(a, w), And(b, w))
  {
    hide Or;
    OrDistributes(a, b, w);
  }

  lemma AndMore(a: Bits, b: Bits, w: Bits)
    requires And(a, w) == w
    ensures And(Or(a, b), w) == w && And(Or(b, a), w) == w
  {
  }

  // ---- what a step does to one waiter ----

  /** The step completes what w waits for. */
  predicate Completes(g: Group, e: Event, w: Waiter) {
    (e.Set? || e.Meet?) && Matches(Or(g.bits, Brings(e)), w.value)
  }

  lemma SetRelease(g: Group, set_: Bits, w: Waiter)
    requires Inv(g) && IsUser(set_) && w in g.waiting
    ensures var (bits, r) := (Or(g.bits, set_), SetBits(g, set_));
      if Matches(bits, w.value) then !IsWaiting(r, w.task) && w.task in r.unblocked
        && r.unblocked[w.task] == ReleaseValue(bits)
      else w in r.waiting
  {
    hide Matches, IsUser, Or, AndNot, ClearMask, Release, ReleaseValue;
    SetReleasesExactly(g, set_, w);
    var (bits, r) := (Or(g.bits, set_), SetBits(g, set_));
    KeptExact(g.waiting, bits);
    if Matches(bits, w.value) && IsWaiting(r, w.task) {
      var i :| 0 <= i < |r.waiting| && r.waiting[i].task == w.task;
      assert r.waiting[i] in g.waiting && r.waiting[i] != w;
      SameWaiter(g.waiting, r.waiting[i], w);
    }
  }

  lemma SameWaiter(waiting: seq<Waiter>, v: Waiter, w: Waiter)
    requires DistinctTasks(waiting) && v in waiting && w in waiting && v.task == w.task
    ensures v == w
  {
  }

  /** A waiter is released by the step that completes its bits, with all the bits, and by no
      other, unless it times out or the group is deleted. */
  lemma StepRelease(g: Group, e: Event, w: Waiter)
    requires Inv(g) && Enabled(g, e) && w in g.waiting && e != Expire(w.task) && !e.Remove?
    ensures var r := Step(g, e);
      if Completes(g, e, w) then
        !IsWaiting(r, w.task) && w.task in r.unblocked && r.unblocked[w.task] == ReleaseValue(Or(g.bits, Brings(e)))
      else w in r.waiting
  {
    hide Inv, Matches, IsUser, Or, AndNot, SetBits, ReleaseValue, TestWaitCondition, ItemValue, IsWaiting;
    match e {
      case Set(bits) => SetRelease(g, bits, w);
      case Meet(t, set_, waitFor, block) => MeetRelease(g, e, w);
      case Expire(t) => OthersStay(g.waiting, t, w);
      case _ =>
    }
  }

  lemma MeetRelease(g: Group, e: Event, w: Waiter)
    requires Inv(g) && Enabled(g, e) && w in g.waiting && e.Meet?
    ensures var r := Step(g, e);
      if Completes(g, e, w) then
        !IsWaiting(r, w.task) && w.task in r.unblocked && r.unblocked[w.task] == ReleaseValue(Or(g.bits, Brings(e)))
      else w in r.waiting
  {
    hide Inv, Matches, IsUser, Or, AndNot, SetBits, ReleaseValue, TestWaitCondition, ItemValue;
    SetRelease(g, e.set_, w);
    var (i, r) := (Place(g.waiting, w), Step(g, e));
    assert g.waiting[i].task == w.task && e.task != w.task;
  }

  function Place(waiting: seq<Waiter>, w: Waiter): (i: nat)
    requires w in waiting
    ensures i < |waiting| && waiting[i] == w
  {
    if waiting[0] == w then 0 else 1 + Place(waiting[1..], w)
  }

  lemma {:induction false} OthersStay(waiting: seq<Waiter>, t: Task, w: Waiter)
    requires w in waiting && w.task != t
    ensures w in WithoutTask(waiting, t)
  {
    if waiting[0] != w { OthersStay(waiting[1..], t, w); }
  }

  /** Who waits to clear bits clears all of them on release. */
  lemma {:induction false} ReleaseClears(waiting: seq<Waiter>, bits: Bits, w: Waiter)
    requires w in waiting && Matches(bits, w.value) && ClearsOnExit(w.value)
    ensures And(ClearMask(waiting, bits), WaitedFor(w.value)) == WaitedFor(w.value)
  {
    hide Matches, ClearsOnExit, WaitedFor, Or, And;
    var (first, rest) := (MaskOf(waiting[0], bits), ClearMask(waiting[1..], bits));
    if waiting[0] == w {
      AndSelf(first);
      AndMore(first, rest, first);
    } else {
      ReleaseClears(waiting[1..], bits, w);
      AndMore(rest, first, WaitedFor(w.value));
    }
  }

  lemma AndSelf(w: Bits)
    ensures And(w, w) == w
  {
  }

  // ---- tasks that meet ----

  function Meeter(t: Task, waitFor: Bits): Waiter {
    Waiter(t, ItemValue(waitFor, true, true))
  }

  lemma MeeterParts(t: Task, waitFor: Bits, bits: Bits)
    requires IsUser(waitFor)
    ensures var v := Meeter(t, waitFor).value;
      WaitedFor(v) == waitFor && ClearsOnExit(v) && (Matches(bits, v) <==> And(bits, waitFor) == waitFor)
  {
    hide ItemValue, WaitedFor, WaitsForAll, ClearsOnExit, IsUser;
    ItemValueParts(waitFor, true, true);
  }

  /** The step that completes what a task meets for clears those bits. */
  lemma CompletionClears(g: Group, e: Event, t: Task, waitFor: Bits)
    requires IsUser(waitFor) && Meeter(t, waitFor) in g.waiting && Completes(g, e, Meeter(t, waitFor))
    ensures And(Clears(g, e), waitFor) == waitFor && And(Or(g.bits, Brings(e)), waitFor) == waitFor
  {
    hide Matches, IsUser, Or, ClearMask, And, TestWaitCondition, WaitedFor, ClearsOnExit, Meeter;
    var bits := Or(g.bits, Brings(e));
    MeeterParts(t, waitFor, bits);
    ReleaseClears(g.waiting, bits, Meeter(t, waitFor));
    if e.Meet? {
      var own := if TestWaitCondition(bits, e.waitFor, true) then e.waitFor else 0;
      AndMore(ClearMask(g.waiting, bits), own, waitFor);
    }
  }

  /** All the bits that the events from j up to k bring. */
  function BroughtBy(events: seq<Event>, j: nat, k: nat): Bits
    requires j <= k <= |events|
    decreases k
  {
    if k == j then 0 else Or(BroughtBy(events, j, k - 1), Brings(events[k - 1]))
  }

  /** Task t begins to meet at j and blocks, and up to k it neither times out nor does anything
      clear a bit that it waits for. */
  ghost predicate Meets(gs: seq<Group>, events: seq<Event>, t: Task, waitFor: Bits, j: nat, k: nat) {
    && Run(gs, events) && Inv(gs[0]) && j < k < |gs|
    && events[j].Meet? && events[j].task == t && events[j].waitFor == waitFor && events[j].block
    && And(Or(gs[j].bits, Brings(events[j])), waitFor) != waitFor
    && (forall i :: j < i < k ==> events[i] != Expire(t) && !events[i].Remove?)
    && (forall i :: j <= i < k ==> And(Clears(gs[i], events[i]), waitFor) == 0)
  }

  lemma {:induction false} InvUpTo(gs: seq<Group>, events: seq<Event>, k: nat)
    requires Run(gs, events) && Inv(gs[0]) && k < |gs|
    ensures forall i :: 0 <= i <= k ==> Inv(gs[i])
  {
    hide Inv, Step, Enabled;
    if k > 0 {
      InvUpTo(gs, events, k - 1);
      StepInv(gs[k - 1], events[k - 1]);
    }
  }

  lemma JoinsMeeting(g: Group, e: Event)
    requires Inv(g) && Enabled(g, e) && e.Meet? && e.block && And(Or(g.bits, Brings(e)), e.waitFor) != e.waitFor
    ensures Meeter(e.task, e.waitFor) in Step(g, e).waiting && IsUser(e.waitFor) && e.waitFor != 0
  {
    hide IsUser, Or, SetBits, ItemValue;
  }

  lemma GathersOn(g: Group, e: Event, start: Bits, before: Bits, w: Bits)
    requires And(g.bits, w) == And(Or(start, before), w) && And(Clears(g, e), w) == 0
    ensures And(Step(g, e).bits, w) == And(Or(start, Or(before, Brings(e))), w)
  {
    hide Step, Brings, Clears, Or, AndNot, And;
    StepBits(g, e);
    ClearsNone(Or(g.bits, Brings(e)), Clears(g, e), w);
    AndOr(g.bits, Brings(e), w);
    AndOr(Or(start, before), Brings(e), w);
    OrLaws(start, before, Brings(e));
  }

  /** Gathering. Whatever else happens, the task stays on the wait list, and of the bits it
      waits for exactly those are set that were or have been brought since. */
  lemma {:induction false} GathersInRun(gs: seq<Group>, events: seq<Event>, t: Task, waitFor: Bits, j: nat, k: nat)
    requires Meets(gs, events, t, waitFor, j, k)
    ensures Meeter(t, waitFor) in gs[k].waiting && IsUser(waitFor) && waitFor != 0
    ensures And(gs[k].bits, waitFor) == And(Or(gs[j].bits, BroughtBy(events, j, k)), waitFor)
    decreases k
  {
    hide Inv, Step, Enabled, IsUser, Or, And, Brings, Clears, Meeter, Completes;
    var (g, e) := (gs[k - 1], events[k - 1]);
    InvUpTo(gs, events, k - 1);
    if k == j + 1 {
      JoinsMeeting(g, e);
      NothingBrought(gs[j].bits);
    } else {
      GathersInRun(gs, events, t, waitFor, j, k - 1);
      if Completes(g, e, Meeter(t, waitFor)) { CompletionClears(g, e, t, waitFor); }
      TaskOf(t, waitFor);
      StepRelease(g, e, Meeter(t, waitFor));
    }
    GathersOn(g, e, gs[j].bits, BroughtBy(events, j, k - 1), waitFor);
  }

  lemma TaskOf(t: Task, waitFor: Bits)
    ensures Meeter(t, waitFor).task == t
  {
  }

  lemma NothingBrought(bits: Bits)
    ensures Or(bits, 0) == bits
  {
  }

  /** The rendezvous. The event that brings the last bit missing, and no event before or
      instead, releases the task; it returns with all its bits, and they are cleared. So all
      that meet for the same bits are released by the same event. */
  lemma MeetingReleases(gs: seq<Group>, events: seq<Event>, t: Task, waitFor: Bits, j: nat, k: nat)
    requires Meets(gs, events, t, waitFor, j, k) && k < |events| && events[k] != Expire(t) && !events[k].Remove?
    requires events[k].Set? || events[k].Meet?
    ensures And(Or(gs[j].bits, BroughtBy(events, j, k + 1)), waitFor) != waitFor ==>
      Meeter(t, waitFor) in gs[k + 1].waiting
    ensures And(Or(gs[j].bits, BroughtBy(events, j, k + 1)), waitFor) == waitFor ==>
      && !IsWaiting(gs[k + 1], t) && And(gs[k + 1].bits, waitFor) == 0
      && t in gs[k + 1].unblocked && And(Returned(gs[k + 1].unblocked[t]), waitFor) == waitFor
  {
    hide Inv, Step, Enabled, IsUser, Or, And, Brings, Clears, Meeter, Completes, IsWaiting, Returned, ReleaseValue;
    var (g, e) := (gs[k], events[k]);
    GathersInRun(gs, events, t, waitFor, j, k);
    InvUpTo(gs, events, k);
    TaskOf(t, waitFor);
    StepRelease(g, e, Meeter(t, waitFor));
    CompleteIs(g, e, t, waitFor, gs[j].bits, BroughtBy(events, j, k));
    if Completes(g, e, Meeter(t, waitFor)) {
      CompletionClears(g, e, t, waitFor);
      StepBits(g, e);
      ClearsAll(Or(g.bits, Brings(e)), Clears(g, e), waitFor);
      ReturnsAll(g, e, waitFor);
    }
  }

  lemma CompleteIs(g: Group, e: Event, t: Task, w: Bits, start: Bits, before: Bits)
    requires IsUser(w) && (e.Set? || e.Meet?) && And(g.bits, w) == And(Or(start, before), w)
    ensures Completes(g, e, Meeter(t, w)) <==> And(Or(start, Or(before, Brings(e))), w) == w
  {
    hide Matches, Brings, Or, And, IsUser, Meeter;
    MeeterParts(t, w, Or(g.bits, Brings(e)));
    AndOr(g.bits, Brings(e), w);
    AndOr(Or(start, before), Brings(e), w);
    OrLaws(start, before, Brings(e));
  }

  lemma ReturnsAll(g: Group, e: Event, w: Bits)
    requires Inv(g) && Enabled(g, e) && (e.Set? || e.Meet?) && And(Or(g.bits, Brings(e)), w) == w
    ensures And(Returned(ReleaseValue(Or(g.bits, Brings(e)))), w) == w
  {
    hide And, Or, IsUser, ReleaseValue, Returned, NoneSatisfied, DistinctTasks;
    UserBits(g.bits, Brings(e));
    ReleaseValueParts(Or(g.bits, Brings(e)));
  }
}
