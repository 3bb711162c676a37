/** Queue sets: every item in a member queue is answered for by a handle in the set, by a
    count on the member's lock, or by a selection whose item has not been read yet. */
module QueueSetModel {
  import opened QueueModel

  /** A member queue as its set sees it; its handle is its index. removing counts the calls
      of xQueueRemoveFromSet that have checked it and not yet let it go. */
  datatype Member = Member(messages: nat, length: nat, txLock: int, inSet: bool, removing: nat, selected: nat)

  /** refused becomes true if the source's assertion that the set is not full fails. */
  datatype Sets = Sets(members: seq<Member>, handles: seq<nat>, length: nat, refused: bool)

  datatype Event =
    | SendTo(i: nat, position: Position)
    | IsrSendTo(i: nat, position: Position)
    | LockMember(i: nat)
    | UnlockMember(i: nat)
    | Select
    | ReadSelected(i: nat)
    | AddToSet(i: nat)
    | RemoveCheck(i: nat)
    | RemoveFinish(i: nat)

  function With(s: Sets, i: nat, m: Member): Sets
    requires i < |s.members|
  {
    s.(members := s.members[i := m])
  }

  /** prvNotifyQueueSetContainer. */
  function Notify(s: Sets, i: nat, position: Position): Sets {
    if |s.handles| < s.length then s.(handles := Put(s.handles, i, position)) else s.(refused := true)
  }

  /** The loop of prvUnlockQueue for a queue in a set notifies once for every count. */
  function NotifyAll(s: Sets, i: nat, count: int): (r: Sets)
    ensures r.members == s.members && r.length == s.length
    decreases count
  {
    if count <= LOCKED_UNMODIFIED then s else NotifyAll(Notify(s, i, Back), i, count - 1)
  }

  function Step(s: Sets, e: Event): Sets {
    match e
    case SendTo(i, position) =>
      if i >= |s.members| || s.members[i].messages >= s.members[i].length then s
      else
        var m := s.members[i];
        var s1 := With(s, i, m.(messages := m.messages + 1));
        if m.inSet then Notify(s1, i, position) else s1
    case IsrSendTo(i, position) =>
      if i >= |s.members| || s.members[i].messages >= s.members[i].length then s
      else
        var m := s.members[i];
        if m.txLock != UNLOCKED then With(s, i, m.(messages := m.messages + 1, txLock := NextLock(m.txLock)))
        else
          var s1 := With(s, i, m.(messages := m.messages + 1));
          if m.inSet then Notify(s1, i, position) else s1
    case LockMember(i) =>
      if i >= |s.members| || s.members[i].txLock != UNLOCKED then s
      else With(s, i, s.members[i].(txLock := LOCKED_UNMODIFIED))
    case UnlockMember(i) =>
      if i >= |s.members| then s
      else
        var m := s.members[i];
        With(if m.inSet then NotifyAll(s, i, m.txLock) else s, i, m.(txLock := UNLOCKED))
    case Select =>
      if s.handles == [] || s.handles[0] >= |s.members| then s
      else
        var m := s.members[s.handles[0]];
        With(s, s.handles[0], m.(selected := m.selected + 1)).(handles := s.handles[1..])
    case ReadSelected(i) =>
      if i >= |s.members| || s.members[i].messages == 0 || s.members[i].selected == 0 then s
      else
        var m := s.members[i];
        With(s, i, m.(messages := m.messages - 1, selected := m.selected - 1))
    case AddToSet(i) =>
      if i >= |s.members| || s.members[i].inSet || s.members[i].messages != 0 then s
      else With(s, i, s.members[i].(inSet := true))
    case RemoveCheck(i) =>
      if i >= |s.members| || !s.members[i].inSet || s.members[i].messages != 0 then s
      else With(s, i, s.members[i].(removing := s.members[i].removing + 1))
    case RemoveFinish(i) =>
      if i >= |s.members| || s.members[i].removing == 0 then s
      else With(s, i, s.members[i].(inSet := false, removing := s.members[i].removing - 1))
  }

  function TotalLength(members: seq<Member>): nat {
    if members == [] then 0
    else
      var last := members[|members| - 1];
      TotalLength(members[..|members| - 1]) + (if last.inSet then last.length else 0)
  }

  /** Handles of one member in the set. */
  function CountOf(handles: seq<nat>, i: nat): nat {
    if handles == [] then 0 else (if handles[0] == i then 1 else 0) + CountOf(handles[1..], i)
  }

  /** Members are never overwritten, are read only after being selected and hold fewer than
      128 unnoticed interrupt sends; the set is at least as long as its members together.
      While a member is locked by a task no other task uses it. */
  predicate Enabled(s: Sets, e: Event) {
    match e
    case Select => true
    case SendTo(i, position) => i < |s.members| && s.members[i].txLock == UNLOCKED && position != Overwrite
    case IsrSendTo(i, position) => i < |s.members| && s.members[i].txLock < 127 && position != Overwrite
    case LockMember(i) => i < |s.members|
    case UnlockMember(i) => i < |s.members|
    case ReadSelected(i) => i < |s.members| && s.members[i].selected > 0
    case AddToSet(i) =>
      && i < |s.members| && s.members[i].txLock == UNLOCKED
      && TotalLength(s.members[i := s.members[i].(inSet := true)]) <= s.length
    case RemoveCheck(i) => i < |s.members| && s.members[i].txLock == UNLOCKED
    case RemoveFinish(i) => i < |s.members| && s.members[i].txLock == UNLOCKED
  }

  ghost predicate Run(ss: seq<Sets>, events: seq<Event>) {
    && |ss| == |events| + 1
    && forall k :: 0 <= k < |events| ==> Enabled(ss[k], events[k]) && ss[k + 1] == Step(ss[k], events[k])
  }

  // ---- conservation ----

  predicate Balanced(m: Member, inHandles: nat) {
    if m.inSet then m.messages == inHandles + Noted(m.txLock) + m.selected else inHandles == 0 && m.selected == 0
  }

  predicate MemberOk(m: Member) {
    m.messages <= m.length && UNLOCKED <= m.txLock <= 127
  }

  ghost predicate Conserved(s: Sets) {
    && (forall i :: 0 <= i < |s.members| ==> MemberOk(s.members[i]) && Balanced(s.members[i], CountOf(s.handles, i)))
    && (forall h :: h in s.handles ==> h < |s.members|)
    && TotalLength(s.members) <= s.length
    && !s.refused
  }

  lemma {:induction false} CountAppend(a: seq<nat>, b: seq<nat>, i: nat)
    ensures CountOf(a + b, i) == CountOf(a, i) + CountOf(b, i)
  {
    if a == [] {
      assert a + b == b;
    } else {
      CountAppend(a[1..], b, i);
      assert (a + b)[1..] == a[1..] + b;
    }
  }

  lemma CountPut(handles: seq<nat>, i: nat, position: Position, j: nat)
    requires position != Overwrite
    ensures CountOf(Put(handles, i, position), j) == CountOf(handles, j) + (if i == j then 1 else 0)
  {
    CountAppend(handles, [i], j);
    CountAppend([i], handles, j);
    assert CountOf([i], j) == if i == j then 1 else 0;
  }

  /** Handles of the first n members, together. */
  function CountBelow(handles: seq<nat>, n: nat): nat {
    if n == 0 then 0 else CountBelow(handles, n - 1) + CountOf(handles, n - 1)
  }

  lemma {:induction false} CountAll(handles: seq<nat>, n: nat)
    requires forall h :: h in handles ==> h < n
    ensures CountBelow(handles, n) == |handles|
  {
    if handles == [] {
      CountNone(n);
    } else {
      assert handles[0] in handles && forall h :: h in handles[1..] ==> h in handles;
      CountAll(handles[1..], n);
      CountFirst(handles, n);
    }
  }

  lemma {:induction false} CountNone(n: nat)
    ensures CountBelow([], n) == 0
  {
    if n > 0 { CountNone(n - 1); }
  }

  lemma {:induction false} CountFirst(handles: seq<nat>, n: nat)
    requires handles != []
    ensures CountBelow(handles, n) == CountBelow(handles[1..], n) + (if handles[0] < n then 1 else 0)
  {
    if n > 0 { CountFirst(handles, n - 1); }
  }

  /** What is left of the members' lengths once their handles are counted. */
  lemma {:induction false} CountsFit(members: seq<Member>, handles: seq<nat>, n: nat, i: nat)
    requires n <= |members|
    requires forall j :: 0 <= j < n ==> CountOf(handles, j) <= (if members[j].inSet then members[j].length else 0)
    requires i < n ==> CountOf(handles, i) < (if members[i].inSet then members[i].length else 0)
    ensures CountBelow(handles, n) + (if i < n then 1 else 0) <= TotalLength(members[..n])
  {
    if n > 0 {
      CountsFit(members, handles, n - 1, i);
      assert members[..n][..n - 1] == members[..n - 1];
    }
  }

  /** A member that has just taken an item finds room for its handle. */
  lemma RoomForHandle(s: Sets, i: nat)
    requires i < |s.members| && s.members[i].inSet && TotalLength(s.members) <= s.length
    requires forall h :: h in s.handles ==> h < |s.members|
    requires forall j :: 0 <= j < |s.members| ==> MemberOk(s.members[j])
    requires forall j :: 0 <= j < |s.members| && j != i ==> Balanced(s.members[j], CountOf(s.handles, j))
    requires CountOf(s.handles, i) < s.members[i].messages
    ensures |s.handles| < s.length
  {
    CountAll(s.handles, |s.members|);
    CountsFit(s.members, s.handles, |s.members|, i);
    assert s.members[..|s.members|] == s.members;
  }

  lemma {:induction false} TotalSame(a: seq<Member>, b: seq<Member>)
    requires |a| == |b| && forall i :: 0 <= i < |a| ==> a[i].inSet == b[i].inSet && a[i].length == b[i].length
    ensures TotalLength(a) == TotalLength(b)
  {
    if a != [] {
      TotalSame(a[..|a| - 1], b[..|b| - 1]);
    }
  }

  lemma {:induction false} TotalShrinks(a: seq<Member>, b: seq<Member>)
    requires |a| == |b| && forall i :: 0 <= i < |a| ==> (a[i].inSet ==> b[i].inSet) && a[i].length == b[i].length
    ensures TotalLength(a) <= TotalLength(b)
  {
    if a != [] {
      TotalShrinks(a[..|a| - 1], b[..|b| - 1]);
    }
  }

  /** Changing one member, in balance again with the handles it then has. */
  lemma WithKeeps(s: Sets, i: nat, m: Member)
    requires Conserved(s) && i < |s.members| && MemberOk(m) && Balanced(m, CountOf(s.handles, i))
    requires m.length == s.members[i].length && (m.inSet ==> s.members[i].inSet)
    ensures Conserved(With(s, i, m))
  {
    hide TotalLength, CountOf, Balanced, MemberOk;
    TotalShrinks(With(s, i, m).members, s.members);
  }

  /** The item is in the member; its handle goes into the set, in front or at the back. */
  lemma NotifyKeeps(s: Sets, i: nat, m: Member, position: Position)
    requires Conserved(s) && i < |s.members| && MemberOk(m) && m.inSet && s.members[i].inSet
      && m.length == s.members[i].length
    requires Balanced(m, CountOf(s.handles, i) + 1) && position != Overwrite
    ensures Conserved(Notify(With(s, i, m), i, position))
    ensures Notify(With(s, i, m), i, position).handles == Put(s.handles, i, position)
  {
    hide TotalLength, CountOf, MemberOk;
    var s1 := With(s, i, m);
    TotalSame(s1.members, s.members);
    RoomForHandle(s1, i);
    forall j ensures CountOf(Put(s.handles, i, position), j) == CountOf(s.handles, j) + (if i == j then 1 else 0) {
      CountPut(s.handles, i, position, j);
    }
  }

  /** With count notifications still to come, m is short of that many handles. */
  lemma {:induction false} NotifyAllKeeps(s: Sets, i: nat, count: int)
    requires i < |s.members| && s.members[i].inSet && Conserved(s) && s.members[i].txLock == count
    ensures Conserved(With(NotifyAll(s, i, count), i, s.members[i].(txLock := UNLOCKED)))
    decreases count
  {
    var m := s.members[i];
    if count <= LOCKED_UNMODIFIED {
      WithKeeps(s, i, m.(txLock := UNLOCKED));
    } else {
      var less := m.(txLock := count - 1);
      NotifyKeeps(s, i, less, Back);
      var s1 := Notify(With(s, i, less), i, Back);
      NotifyAllKeeps(s1, i, count - 1);
      NotifyAllFrame(Notify(s, i, Back), i, count - 1, less);
      assert s1 == With(Notify(s, i, Back), i, less);
      var last := m.(txLock := UNLOCKED);
      assert With(NotifyAll(s1, i, count - 1), i, last) == With(NotifyAll(s, i, count), i, last);
    }
  }

  /** Notifying does not look at the members. */
  lemma {:induction false} NotifyAllFrame(s: Sets, i: nat, count: int, m: Member)
    requires i < |s.members|
    ensures NotifyAll(With(s, i, m), i, count) == With(NotifyAll(s, i, count), i, m)
    decreases count
  {
    if count > LOCKED_UNMODIFIED {
      NotifyAllFrame(Notify(s, i, Back), i, count - 1, m);
    }
  }

  lemma SelectKeeps(s: Sets)
    requires Conserved(s) && s.handles != []
    ensures Conserved(Step(s, Select))
  {
    hide TotalLength;
    assert s.handles[0] in s.handles && forall h :: h in s.handles[1..] ==> h in s.handles;
    TotalSame(Step(s, Select).members, s.members);
    forall j ensures CountOf(s.handles, j) == (if s.handles[0] == j then 1 else 0) + CountOf(s.handles[1..], j) {
    }
  }

  lemma SendKeeps(s: Sets, i: nat, position: Position)
    requires Conserved(s) && Enabled(s, SendTo(i, position))
    ensures Conserved(Step(s, SendTo(i, position)))
  {
    hide TotalLength, CountOf;
    var m := s.members[i];
    if m.messages < m.length {
      var more := m.(messages := m.messages + 1);
      if m.inSet { NotifyKeeps(s, i, more, position); } else { WithKeeps(s, i, more); }
    }
  }

  lemma IsrSendKeeps(s: Sets, i: nat, position: Position)
    requires Conserved(s) && Enabled(s, IsrSendTo(i, position))
    ensures Conserved(Step(s, IsrSendTo(i, position)))
  {
    hide TotalLength, CountOf;
    var m := s.members[i];
    if m.messages < m.length {
      var more := m.(messages := m.messages + 1);
      if m.txLock != UNLOCKED { WithKeeps(s, i, more.(txLock := NextLock(m.txLock))); }
      else if m.inSet { NotifyKeeps(s, i, more, position); }
      else { WithKeeps(s, i, more); }
    }
  }

  lemma LockKeeps(s: Sets, i: nat)
    requires Conserved(s) && i < |s.members|
    ensures Conserved(Step(s, LockMember(i))) && Conserved(Step(s, UnlockMember(i)))
  {
    hide TotalLength, CountOf;
    var m := s.members[i];
    if m.txLock == UNLOCKED { WithKeeps(s, i, m.(txLock := LOCKED_UNMODIFIED)); }
    if m.inSet { NotifyAllKeeps(s, i, m.txLock); } else { WithKeeps(s, i, m.(txLock := UNLOCKED)); }
  }

  /** Reading a selected member, and checking one that is to be removed. */
  lemma MemberKeeps(s: Sets, i: nat)
    requires Conserved(s) && i < |s.members|
    ensures Conserved(Step(s, ReadSelected(i))) && Conserved(Step(s, RemoveCheck(i)))
  {
    hide TotalLength, CountOf;
    var m := s.members[i];
    if m.messages > 0 && m.selected > 0 {
      WithKeeps(s, i, m.(messages := m.messages - 1, selected := m.selected - 1));
    }
    if m.inSet && m.messages == 0 { WithKeeps(s, i, m.(removing := m.removing + 1)); }
  }

  /** xQueueRemoveFromSet lets a member go that has got an item since it was checked. */
  predicate LetsGoFilled(s: Sets, e: Event) {
    && e.RemoveFinish? && e.i < |s.members|
    && s.members[e.i].removing > 0 && s.members[e.i].inSet && s.members[e.i].messages > 0
  }

  /** Letting go keeps conservation exactly if the member is empty: its messages are handles
      and selections that then belong to no member. */
  lemma LetGoExactly(s: Sets, i: nat)
    requires Conserved(s) && Enabled(s, RemoveFinish(i))
    ensures Conserved(Step(s, RemoveFinish(i))) <==> !LetsGoFilled(s, RemoveFinish(i))
  {
    hide TotalLength, CountOf;
    var m := s.members[i];
    if m.removing > 0 {
      var gone := m.(inSet := false, removing := m.removing - 1);
      if LetsGoFilled(s, RemoveFinish(i)) {
        assert With(s, i, gone).members[i] == gone && !Balanced(gone, CountOf(s.handles, i));
      } else {
        WithKeeps(s, i, gone);
      }
    }
  }

  /** Every other event keeps conservation, whether or not a member is being removed. */
  lemma StepKeepsExactly(s: Sets, e: Event)
    requires Conserved(s) && Enabled(s, e)
    ensures Conserved(Step(s, e)) <==> !LetsGoFilled(s, e)
  {
    hide Conserved, Enabled;
    match e {
      case SendTo(i, position) => SendKeeps(s, i, position);
      case IsrSendTo(i, position) => IsrSendKeeps(s, i, position);
      case LockMember(i) => InRange(s, e); LockKeeps(s, i);
      case UnlockMember(i) => InRange(s, e); LockKeeps(s, i);
      case Select => if s.handles != [] { SelectKeeps(s); }
      case ReadSelected(i) => InRange(s, e); MemberKeeps(s, i);
      case AddToSet(i) => AddKeeps(s, i);
      case RemoveCheck(i) => InRange(s, e); MemberKeeps(s, i);
      case RemoveFinish(i) => LetGoExactly(s, i);
    }
  }

  lemma InRange(s: Sets, e: Event)
    requires Enabled(s, e) && !e.Select?
    ensures e.i < |s.members|
  {
  }

  /** A queue joins empty, so it starts in balance. */
  lemma AddKeeps(s: Sets, i: nat)
    requires Conserved(s) && Enabled(s, AddToSet(i))
    ensures Conserved(Step(s, AddToSet(i)))
  {
    hide TotalLength, CountOf;
  }

  /** No member is let go that has got an item since it was checked. */
  ghost predicate LetsGoEmpty(ss: seq<Sets>, events: seq<Event>) {
    |ss| == |events| + 1 && forall k :: 0 <= k < |events| ==> !LetsGoFilled(ss[k], events[k])
  }

  predicate Fresh(m: Member) {
    m.messages == 0 && m.txLock == UNLOCKED && !m.inSet && m.removing == 0 && m.selected == 0
  }

  /** Queues that are in no set yet, and an empty set. */
  ghost predicate Start(s: Sets) {
    s.handles == [] && !s.refused && forall m :: m in s.members ==> Fresh(m)
  }

  lemma {:induction false} RunKeeps(ss: seq<Sets>, events: seq<Event>, k: nat)
    requires Run(ss, events) && k < |ss| && Conserved(ss[0])
    requires forall j :: 0 <= j < k ==> !LetsGoFilled(ss[j], events[j])
    ensures Conserved(ss[k])
  {
    hide Conserved, Enabled, LetsGoFilled;
    if k > 0 {
      RunKeeps(ss, events, k - 1);
      StepKeepsExactly(ss[k - 1], events[k - 1]);
    }
  }

  /** Conservation. In every reachable state every member's messages are its handles in the
      set, plus the sends counted on its lock, plus its selections not yet read; and the
      assertion that the set has room for a handle never fails. */
  lemma SetConserved(ss: seq<Sets>, events: seq<Event>, k: nat, i: nat)
    requires Run(ss, events) && Start(ss[0]) && LetsGoEmpty(ss, events) && k < |ss| && i < |ss[k].members|
    ensures !ss[k].refused && |ss[k].handles| <= ss[k].length
    ensures var m := ss[k].members[i];
      if m.inSet then m.messages == CountOf(ss[k].handles, i) + Noted(m.txLock) + m.selected
      else CountOf(ss[k].handles, i) == 0
  {
    hide Run, LetsGoFilled;
    InitialConserved(ss[0]);
    RunKeeps(ss, events, k);
    HandlesFit(ss[k]);
  }

  /** A run keeps conservation throughout exactly if it lets no member go that has got an
      item since it was checked. */
  lemma RunConservedExactly(ss: seq<Sets>, events: seq<Event>)
    requires Run(ss, events) && Start(ss[0])
    ensures (forall k :: 0 <= k < |ss| ==> Conserved(ss[k])) <==> LetsGoEmpty(ss, events)
  {
    hide Conserved, Enabled, Step, LetsGoFilled, Start;
    if forall k :: 0 <= k < |ss| ==> Conserved(ss[k]) {
      forall k | 0 <= k < |events| ensures !LetsGoFilled(ss[k], events[k]) {
        StepKeepsExactly(ss[k], events[k]);
        assert Conserved(ss[k + 1]);
      }
    }
    if LetsGoEmpty(ss, events) {
      InitialConserved(ss[0]);
      forall k | 0 <= k < |ss| ensures Conserved(ss[k]) { RunKeeps(ss, events, k); }
    }
  }

  lemma HandlesFit(s: Sets)
    requires Conserved(s)
    ensures |s.handles| <= s.length
  {
    CountAll(s.handles, |s.members|);
    CountsFit(s.members, s.handles, |s.members|, |s.members|);
    assert s.members[..|s.members|] == s.members;
  }

  lemma InitialConserved(s: Sets)
    requires Start(s)
    ensures Conserved(s)
  {
    assert forall i :: 0 <= i < |s.members| ==> s.members[i] in s.members && Fresh(s.members[i]);
    NoneIn(s.members);
  }

  lemma {:induction false} NoneIn(members: seq<Member>)
    requires forall i :: 0 <= i < |members| ==> !members[i].inSet
    ensures TotalLength(members) == 0
  {
    if members != [] { NoneIn(members[..|members| - 1]); }
  }

  /** A selected member always has an item to read. */
  lemma SelectionCanBeRead(s: Sets, i: nat)
    requires Conserved(s) && i < |s.members| && s.members[i].selected > 0
    ensures s.members[i].messages > 0
  {
  }

  // ---- the order of the handles ----

  /** Handle i, n times. */
  function Copies(i: nat, n: nat): seq<nat> {
    if n == 0 then [] else [i] + Copies(i, n - 1)
  }

  lemma {:induction false} NotifyAllAppends(s: Sets, i: nat, count: int)
    ensures var r := NotifyAll(s, i, count).handles;
      s.handles <= r && (|s.handles| + Noted(count) <= s.length ==> r == s.handles + Copies(i, Noted(count)))
    decreases count
  {
    if count > LOCKED_UNMODIFIED {
      NotifyAllAppends(Notify(s, i, Back), i, count - 1);
    }
  }

  /** What the event does to the handles of a conserved set: a send to a member adds its handle
      at the same end, unlocking adds one at the back for every send counted, a selection takes
      the handle at the front, and nothing else touches them. */
  lemma HandlesInOrder(s: Sets, e: Event)
    requires Conserved(s) && Enabled(s, e)
    ensures var (r, taken) := (Step(s, e).handles, e.SendTo? || e.IsrSendTo?);
      if taken && Sends(s, e, e.i) && s.members[e.i].inSet && s.members[e.i].txLock == UNLOCKED then
        r == if e.position == Front then [e.i] + s.handles else s.handles + [e.i]
      else if e.UnlockMember? && s.members[e.i].inSet then
        r == s.handles + Copies(e.i, Noted(s.members[e.i].txLock))
      else if e.Select? && s.handles != [] then r == s.handles[1..]
      else r == s.handles
  {
    hide TotalLength, CountOf;
    match e {
      case SendTo(i, position) => SentFits(s, e);
      case IsrSendTo(i, position) => SentFits(s, e);
      case UnlockMember(i) =>
        if s.members[i].inSet {
          NotifyAllAppends(s, i, s.members[i].txLock);
          CountsHaveRoom(s, i);
        }
      case Select => if s.handles != [] { HeadIsMember(s); }
      case _ =>
    }
  }

  lemma HeadIsMember(s: Sets)
    requires Conserved(s) && s.handles != []
    ensures s.handles[0] < |s.members|
  {
    assert s.handles[0] in s.handles;
  }

  lemma SentFits(s: Sets, e: Event)
    requires Conserved(s) && Enabled(s, e) && (e.SendTo? || e.IsrSendTo?)
    ensures Sends(s, e, e.i) && s.members[e.i].inSet && s.members[e.i].txLock == UNLOCKED ==> |s.handles| < s.length
  {
    hide TotalLength, CountOf;
    var (i, m) := (e.i, s.members[e.i]);
    if Sends(s, e, i) && m.inSet && m.txLock == UNLOCKED {
      var more := With(s, i, m.(messages := m.messages + 1));
      TotalSame(more.members, s.members);
      RoomForHandle(more, i);
    }
  }

  /** The set has room for the handles of all sends that a member has counted. */
  lemma CountsHaveRoom(s: Sets, i: nat)
    requires Conserved(s) && i < |s.members| && s.members[i].inSet
    ensures |s.handles| + Noted(s.members[i].txLock) <= s.length
  {
    hide TotalLength, CountOf;
    NotifyAllKeeps(s, i, s.members[i].txLock);
    var r := With(NotifyAll(s, i, s.members[i].txLock), i, s.members[i].(txLock := UNLOCKED));
    HandlesFit(r);
    NotifyAllGrows(s, i, s.members[i].txLock);
  }

  /** As long as no handle is refused each notification adds one. */
  lemma {:induction false} NotifyAllGrows(s: Sets, i: nat, count: int)
    ensures var r := NotifyAll(s, i, count);
      && (s.refused ==> r.refused) && (!r.refused ==> |r.handles| == |s.handles| + Noted(count))
    decreases count
  {
    if count > LOCKED_UNMODIFIED {
      NotifyAllGrows(Notify(s, i, Back), i, count - 1);
    }
  }

  // ---- sends during a removal ----

  /** The event puts an item into member i. */
  predicate Sends(s: Sets, e: Event, i: nat) {
    && (e.SendTo? || e.IsrSendTo?) && e.i == i
    && i < |s.members| && s.members[i].messages < s.members[i].length
  }

  /** The event takes an item out of member i. */
  predicate Reads(s: Sets, e: Event, i: nat) {
    && e.ReadSelected? && e.i == i
    && i < |s.members| && s.members[i].messages > 0 && s.members[i].selected > 0
  }

  /** Items sent to member i less items read from it, by the events from j up to k. */
  function NetSent(ss: seq<Sets>, events: seq<Event>, i: nat, j: nat, k: nat): int
    requires j <= k <= |events| && |ss| == |events| + 1
    decreases k
  {
    if k == j then 0
    else
      NetSent(ss, events, i, j, k - 1)
      + (if Sends(ss[k - 1], events[k - 1], i) then 1 else if Reads(ss[k - 1], events[k - 1], i) then -1 else 0)
  }

  lemma StepCounts(s: Sets, e: Event, i: nat)
    requires i < |s.members|
    ensures var r := Step(s, e);
      && |r.members| == |s.members|
      && r.members[i].messages ==
           s.members[i].messages + (if Sends(s, e, i) then 1 else if Reads(s, e, i) then -1 else 0)
      && (e != RemoveFinish(i) && s.members[i].inSet ==> r.members[i].inSet)
      && (e != RemoveFinish(i) ==> r.members[i].removing >= s.members[i].removing)
  {
    hide NotifyAll, Put, NextLock;
    if e.UnlockMember? && e.i < |s.members| { NotifyAllMembers(s, e.i, s.members[e.i].txLock); }
  }

  lemma NotifyAllMembers(s: Sets, i: nat, count: int)
    ensures NotifyAll(s, i, count).members == s.members
  {
  }

  /** From its check on a member being removed holds what has been sent and not read. */
  lemma {:induction false} SentSinceCheck(ss: seq<Sets>, events: seq<Event>, i: nat, j: nat, k: nat)
    requires Run(ss, events) && j < k <= |events| && events[j] == RemoveCheck(i)
    requires i < |ss[j].members| && ss[j].members[i].inSet && ss[j].members[i].messages == 0
    requires forall l :: j < l < k ==> events[l] != RemoveFinish(i)
    ensures i < |ss[k].members| && ss[k].members[i].inSet && ss[k].members[i].removing > 0
    ensures ss[k].members[i].messages == NetSent(ss, events, i, j, k)
    decreases k
  {
    hide Step, Sends, Reads, Enabled;
    if k == j + 1 {
      ChecksOnly(ss[j], i);
      assert NetSent(ss, events, i, j, j) == 0;
    } else {
      SentSinceCheck(ss, events, i, j, k - 1);
    }
    StepCounts(ss[k - 1], events[k - 1], i);
  }

  lemma ChecksOnly(s: Sets, i: nat)
    requires i < |s.members| && s.members[i].inSet && s.members[i].messages == 0
    ensures Step(s, RemoveCheck(i)).members[i].removing > 0
    ensures !Sends(s, RemoveCheck(i), i) && !Reads(s, RemoveCheck(i), i)
  {
  }

  /** xQueueRemoveFromSet looks at the queue before it enters its critical section. Whatever
      happens in between, locking and unlocking the queue included, the removal keeps
      conservation if and only if every item sent to the queue since the check has been read
      again. */
  lemma SendDuringRemoval(ss: seq<Sets>, events: seq<Event>, i: nat, j: nat, k: nat)
    requires Run(ss, events) && j < k < |events| && events[j] == RemoveCheck(i) && events[k] == RemoveFinish(i)
    requires i < |ss[j].members| && ss[j].members[i].inSet && ss[j].members[i].messages == 0
    requires forall l :: j < l < k ==> events[l] != RemoveFinish(i)
    requires Conserved(ss[k])
    ensures Conserved(ss[k + 1]) <==> NetSent(ss, events, i, j, k) == 0
  {
    hide Step, Sends, Reads, Enabled, Conserved, NetSent;
    SentSinceCheck(ss, events, i, j, k);
    LetGoExactly(ss[k], i);
  }

  /** One queue of length 1 and a set of length 1. */
  const EMPTY: Member := Member(0, 1, UNLOCKED, false, 0, 0)

  /** The queue joins the set and is to be removed. It has been checked when another task
      locks it, about to wait, an interrupt sends, and unlocking puts a handle into the set;
      the removal leaves it there. */
  lemma HandleLeftBehind() returns (ss: seq<Sets>, events: seq<Event>)
    ensures Run(ss, events) && ss[0] == Sets([EMPTY], [], 1, false) && Start(ss[0])
    ensures events == [AddToSet(0), RemoveCheck(0), LockMember(0), IsrSendTo(0, Back), UnlockMember(0), RemoveFinish(0)]
    ensures |ss[6].members| == 1 && !ss[6].members[0].inSet && ss[6].handles == [0] && !Conserved(ss[6])
  {
    hide Conserved, NotifyAll, TotalLength;
    events := [AddToSet(0), RemoveCheck(0), LockMember(0), IsrSendTo(0, Back), UnlockMember(0), RemoveFinish(0)];
    var joined := EMPTY.(inSet := true);
    var checked := joined.(removing := 1);
    var locked := checked.(txLock := LOCKED_UNMODIFIED);
    var noted := locked.(messages := 1, txLock := 1);
    var unlocked := noted.(txLock := UNLOCKED);
    var gone := unlocked.(inSet := false, removing := 0);
    ss := [Sets([EMPTY], [], 1, false), Sets([joined], [], 1, false), Sets([checked], [], 1, false),
      Sets([locked], [], 1, false), Sets([noted], [], 1, false), Sets([unlocked], [0], 1, false),
      Sets([gone], [0], 1, false)];
    JoinsAlone(joined);
    NotifiesOnce(noted);
    HandleOfNone(ss[6]);
  }

  lemma HandleOfNone(s: Sets)
    requires |s.members| == 1 && !s.members[0].inSet && s.handles == [0]
    ensures !Conserved(s)
  {
    assert CountOf(s.handles, 0) == 1;
    assert !Balanced(s.members[0], CountOf(s.handles, 0));
  }

  lemma JoinsAlone(m: Member)
    requires m.inSet && m.length == 1
    ensures TotalLength([EMPTY][0 := m]) == 1
  {
    assert [EMPTY][0 := m] == [m] && [m][..0] == [];
  }

  lemma NotifiesOnce(m: Member)
    requires m.txLock == 1
    ensures NotifyAll(Sets([m], [], 1, false), 0, 1) == Sets([m], [0], 1, false)
  {
    var s := Sets([m], [], 1, false);
    assert Notify(s, 0, Back) == Sets([m], [0], 1, false);
    assert NotifyAll(s, 0, 1) == NotifyAll(Notify(s, 0, Back), 0, 0);
  }
}
