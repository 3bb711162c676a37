/** What a task that waits for bits has asked for, and that it gets exactly that: over whole
    runs, whoever else sets, clears, waits or times out. */
module EventGroupWaiting {
  import opened Common
  import opened EventGroupModel
  import opened EventGroupSafety
  import opened EventGroupMeeting

  /** Bits that satisfy a task waiting for some or for all of waitFor. */
  predicate Satisfies(bits: Bits, waitFor: Bits, all: bool) {
    if all then And(bits, waitFor) == waitFor else And(bits, waitFor) != 0
  }

  /** The entry of a task that waits for bits, wants them cleared or not, and needs some or
      all of them. */
  predicate Asks(w: Waiter, t: Task, waitFor: Bits, clear: bool, all: bool) {
    w.task == t && WaitedFor(w.value) == waitFor && ClearsOnExit(w.value) == clear && WaitsForAll(w.value) == all
  }

  lemma AskedFor(t: Task, waitFor: Bits, clear: bool, all: bool)
    requires IsUser(waitFor)
    ensures Asks(Waiter(t, ItemValue(waitFor, clear, all)), t, waitFor, clear, all)
  {
    hide ItemValue, WaitedFor, WaitsForAll, ClearsOnExit, IsUser;
    ItemValueParts(waitFor, clear, all);
  }

  lemma MatchesAsked(w: Waiter, t: Task, waitFor: Bits, clear: bool, all: bool, bits: Bits)
    requires Asks(w, t, waitFor, clear, all)
    ensures Matches(bits, w.value) <==> Satisfies(bits, waitFor, all)
  {
    hide WaitedFor, WaitsForAll, ClearsOnExit;
  }

  // ---- one call ----

  /** A call met at once returns and clears what it waited for if it was asked to; one that is
      not met and may block joins the end of the list with what it asks for; any other changes
      nothing. */
  lemma WaitOutcome(g: Group, t: Task, waitFor: Bits, clear: bool, all: bool, block: bool)
    requires Inv(g) && Enabled(g, Wait(t, waitFor, clear, all, block))
    ensures var r := Step(g, Wait(t, waitFor, clear, all, block));
      && r.unblocked == g.unblocked
      && if Satisfies(g.bits, waitFor, all) then
           && r.waiting == g.waiting
           && (if clear then And(r.bits, waitFor) == 0 && Or(r.bits, And(g.bits, waitFor)) == g.bits
               else r.bits == g.bits)
         else if block then
           && r.bits == g.bits && |r.waiting| == |g.waiting| + 1 && r.waiting[..|g.waiting|] == g.waiting
           && Asks(r.waiting[|g.waiting|], t, waitFor, clear, all)
         else r == g
  {
    hide Inv, ItemValue, Asks, IsUser, AndNot, Or, And, TestWaitCondition, Satisfies, IsWaiting;
    TestSatisfies(g.bits, waitFor, all);
    AskedFor(t, waitFor, clear, all);
    Clearing(g.bits, waitFor);
    var w := Waiter(t, ItemValue(waitFor, clear, all));
    assert (g.waiting + [w])[..|g.waiting|] == g.waiting;
  }

  lemma TestSatisfies(bits: Bits, waitFor: Bits, all: bool)
    ensures TestWaitCondition(bits, waitFor, all) <==> Satisfies(bits, waitFor, all)
    ensures Satisfies(bits, waitFor, true) <==> And(bits, waitFor) == waitFor
  {
  }

  lemma Clearing(bits: Bits, clear: Bits)
    ensures And(AndNot(bits, clear), clear) == 0 && Or(AndNot(bits, clear), And(bits, clear)) == bits
  {
  }

  /** A sync call that is not met and may block joins the list for all its bits, to be
      cleared; one that completes them leaves none of them set. */
  lemma SyncOutcome(g: Group, t: Task, set_: Bits, waitFor: Bits, block: bool)
    requires Inv(g) && Enabled(g, Meet(t, set_, waitFor, block))
    ensures var (r, s) := (Step(g, Meet(t, set_, waitFor, block)), SetBits(g, set_));
      && r.unblocked == s.unblocked
      && if And(Or(g.bits, set_), waitFor) == waitFor then r.waiting == s.waiting && And(r.bits, waitFor) == 0
         else if block then
           && r.bits == s.bits && |r.waiting| == |s.waiting| + 1 && r.waiting[..|s.waiting|] == s.waiting
           && Asks(r.waiting[|s.waiting|], t, waitFor, true, true)
         else r == s
  {
    hide Inv, ItemValue, Asks, IsUser, AndNot, Or, And, SetBits, TestWaitCondition, Satisfies, IsWaiting;
    TestSatisfies(Or(g.bits, set_), waitFor, true);
    AskedFor(t, waitFor, true, true);
    var s := SetBits(g, set_);
    Clearing(s.bits, waitFor);
    var w := Waiter(t, ItemValue(waitFor, true, true));
    assert (s.waiting + [w])[..|s.waiting|] == s.waiting;
  }

  /** A time-out takes exactly that task off the list. */
  lemma ExpireOutcome(g: Group, t: Task)
    ensures var r := Step(g, Expire(t));
      && r.bits == g.bits && r.unblocked == g.unblocked && !IsWaiting(r, t)
      && forall w :: w in r.waiting <==> w in g.waiting && w.task != t
  {
    OthersKept(g.waiting, t);
  }

  lemma {:induction false} OthersKept(waiting: seq<Waiter>, t: Task)
    ensures forall w :: w in WithoutTask(waiting, t) <==> w in waiting && w.task != t
  {
    if waiting != [] { OthersKept(waiting[1..], t); }
  }

  /** A task that wakes up unreleased and finds its condition met clears its bits if it was
      asked to. */
  lemma LateOutcome(g: Group, waitFor: Bits, clear: bool, all: bool)
    ensures var r := Step(g, Late(waitFor, clear, all));
      && r.waiting == g.waiting && r.unblocked == g.unblocked
      && if clear && Satisfies(g.bits, waitFor, all) then
           And(r.bits, waitFor) == 0 && Or(r.bits, And(g.bits, waitFor)) == g.bits
         else r.bits == g.bits
  {
    hide AndNot, Or, And, TestWaitCondition, Satisfies;
    TestSatisfies(g.bits, waitFor, all);
    Clearing(g.bits, waitFor);
  }

  /** Deleting the group releases every waiting task, with no bits. */
  lemma DeleteOutcome(g: Group, w: Waiter)
    requires w in g.waiting
    ensures var r := Step(g, Remove);
      && r.waiting == [] && w.task in r.unblocked
      && Returned(r.unblocked[w.task]) == 0 && r.unblocked[w.task] & UNBLOCKED_DUE_TO_BIT_SET != 0
  {
    hide ReleaseValue, Returned;
    AllReleased(g.unblocked, g.waiting, w.task);
    NoUserBits();
    ReleaseValueParts(0);
  }

  lemma NoUserBits()
    ensures IsUser(0)
  {
  }

  lemma {:induction false} AllReleased(unblocked: map<Task, Bits>, waiting: seq<Waiter>, t: Task)
    ensures var r := ReleaseAll(unblocked, waiting);
      if exists w :: w in waiting && w.task == t then t in r && r[t] == ReleaseValue(0)
      else (t in r <==> t in unblocked) && (t in r ==> r[t] == unblocked[t])
    decreases |waiting|
  {
    hide ReleaseValue;
    if waiting != [] {
      AllReleased(unblocked[waiting[0].task := ReleaseValue(0)], waiting[1..], t);
      assert forall w :: w in waiting <==> w == waiting[0] || w in waiting[1..];
    }
  }

  // ---- whole runs ----

  /** At j task t begins to wait and blocks; up to k it neither times out nor is what it waits
      for completed. */
  ghost predicate Waits(gs: seq<Group>, events: seq<Event>, t: Task, waitFor: Bits, clear: bool, all: bool,
      j: nat, k: nat)
  {
    && Run(gs, events) && Inv(gs[0]) && j < k < |gs|
    && events[j] == Wait(t, waitFor, clear, all, true) && !Satisfies(gs[j].bits, waitFor, all)
    && forall i :: j < i < k ==>
         && events[i] != Expire(t) && !events[i].Remove?
         && (events[i].Set? || events[i].Meet? ==> !Satisfies(Or(gs[i].bits, Brings(events[i])), waitFor, all))
  }

  lemma JoinsList(g: Group, t: Task, waitFor: Bits, clear: bool, all: bool) returns (w: Waiter)
    requires Inv(g) && Enabled(g, Wait(t, waitFor, clear, all, true)) && !Satisfies(g.bits, waitFor, all)
    ensures w in Step(g, Wait(t, waitFor, clear, all, true)).waiting && Asks(w, t, waitFor, clear, all)
  {
    hide Inv, Asks, Satisfies, Enabled, Step;
    WaitOutcome(g, t, waitFor, clear, all, true);
    w := Step(g, Wait(t, waitFor, clear, all, true)).waiting[|g.waiting|];
  }

  lemma {:induction false} StaysOnList(gs: seq<Group>, events: seq<Event>, t: Task, waitFor: Bits, clear: bool,
      all: bool, j: nat, k: nat) returns (w: Waiter)
    requires Waits(gs, events, t, waitFor, clear, all, j, k)
    ensures w in gs[k].waiting && Asks(w, t, waitFor, clear, all)
    decreases k
  {
    hide Inv, Step, Enabled, Asks, Satisfies, Or, Brings, Completes;
    InvUpTo(gs, events, k - 1);
    if k == j + 1 {
      w := JoinsList(gs[j], t, waitFor, clear, all);
    } else {
      w := StaysOnList(gs, events, t, waitFor, clear, all, j, k - 1);
      var (g, e) := (gs[k - 1], events[k - 1]);
      TaskIs(w, t, waitFor, clear, all);
      CompletesAsked(g, e, w, t, waitFor, clear, all);
      StepRelease(g, e, w);
    }
  }

  lemma TaskIs(w: Waiter, t: Task, waitFor: Bits, clear: bool, all: bool)
    requires Asks(w, t, waitFor, clear, all)
    ensures w.task == t
  {
  }

  lemma CompletesAsked(g: Group, e: Event, w: Waiter, t: Task, waitFor: Bits, clear: bool, all: bool)
    requires Asks(w, t, waitFor, clear, all)
    ensures Completes(g, e, w) <==> (e.Set? || e.Meet?) && Satisfies(Or(g.bits, Brings(e)), waitFor, all)
  {
    hide Matches, Asks, Satisfies, Or, Brings;
    MatchesAsked(w, t, waitFor, clear, all, Or(g.bits, Brings(e)));
  }

  /** A wait ends exactly when it should. In any run, a task that blocks for some or all of some
      bits is on the wait list until a call sets what satisfies it, and that call releases it:
      it returns all the bits then set, and if it asked for that its own are cleared. */
  lemma WaitEndsExactly(gs: seq<Group>, events: seq<Event>, t: Task, waitFor: Bits, clear: bool, all: bool,
      j: nat, k: nat)
    requires Waits(gs, events, t, waitFor, clear, all, j, k) && k < |events|
    requires events[k] != Expire(t) && !events[k].Remove?
    ensures var (e, r) := (events[k], gs[k + 1]);
      var bits := Or(gs[k].bits, Brings(e));
      if (e.Set? || e.Meet?) && Satisfies(bits, waitFor, all) then
        && !IsWaiting(r, t) && t in r.unblocked && Returned(r.unblocked[t]) == bits
        && r.unblocked[t] & UNBLOCKED_DUE_TO_BIT_SET != 0
        && (clear ==> And(r.bits, waitFor) == 0)
      else IsWaiting(r, t)
  {
    hide Inv, Step, Enabled, Asks, Satisfies, Or, Brings, Completes, And, Returned, ReleaseValue, IsWaiting;
    var w := StaysOnList(gs, events, t, waitFor, clear, all, j, k);
    var (g, e) := (gs[k], events[k]);
    InvUpTo(gs, events, k);
    TaskIs(w, t, waitFor, clear, all);
    CompletesAsked(g, e, w, t, waitFor, clear, all);
    StepRelease(g, e, w);
    if Completes(g, e, w) {
      ReleasedBits(g, e);
      if clear { ReleasedClears(g, e, w, t, waitFor, all); }
    } else {
      OnTheList(gs[k + 1], w);
    }
  }

  lemma OnTheList(g: Group, w: Waiter)
    requires w in g.waiting
    ensures IsWaiting(g, w.task)
  {
    var i :| 0 <= i < |g.waiting| && g.waiting[i] == w;
    assert g.waiting[i].task == w.task;
  }

  lemma ReleasedBits(g: Group, e: Event)
    requires Inv(g) && Enabled(g, e) && (e.Set? || e.Meet?)
    ensures var v := ReleaseValue(Or(g.bits, Brings(e)));
      Returned(v) == Or(g.bits, Brings(e)) && v & UNBLOCKED_DUE_TO_BIT_SET != 0
  {
    hide Or, IsUser, ReleaseValue, Returned, NoneSatisfied, DistinctTasks;
    UserBits(g.bits, Brings(e));
    ReleaseValueParts(Or(g.bits, Brings(e)));
  }

  lemma ReleasedClears(g: Group, e: Event, w: Waiter, t: Task, waitFor: Bits, all: bool)
    requires w in g.waiting && Asks(w, t, waitFor, true, all) && Completes(g, e, w)
    ensures And(Step(g, e).bits, waitFor) == 0
  {
    hide Matches, Or, ClearMask, And, TestWaitCondition, WaitedFor, ClearsOnExit, WaitsForAll, Step, AndNot;
    var bits := Or(g.bits, Brings(e));
    ReleaseClears(g.waiting, bits, w);
    if e.Meet? {
      var own := if TestWaitCondition(bits, e.waitFor, true) then e.waitFor else 0;
      AndMore(ClearMask(g.waiting, bits), own, waitFor);
    }
    StepBits(g, e);
    ClearsAll(bits, Clears(g, e), waitFor);
  }
}
