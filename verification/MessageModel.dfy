/** Message buffers of stream_buffer.c over an abstract byte pipe: one writer that publishes
    the head twice per message, one reader, and what comes out against what went in. */
module MessageModel {
  import opened Common

  /** sbBYTES_TO_STORE_MESSAGE_LENGTH: the size of a 32-bit size_t. */
  const HEADER: nat := 4

  // ---- the length prefix ----

  /** The bytes of a size_t in memory, least significant first. */
  function LengthBytes(n: nat): (b: seq<Byte>)
    ensures |b| == HEADER
  {
    [n % 0x100, n / 0x100 % 0x100, n / 0x1_0000 % 0x100, n / 0x100_0000 % 0x100]
  }

  function LengthOf(b: seq<Byte>): nat
    requires |b| == HEADER
  {
    (b[0] as int) + (b[1] as int) * 0x100 + (b[2] as int) * 0x1_0000 + (b[3] as int) * 0x100_0000
  }

  lemma LengthRoundTrip(n: nat)
    requires n < 0x1_0000_0000
    ensures LengthOf(LengthBytes(n)) == n
  {
    SplitTwice(n);
    SplitTwice(n / 0x100);
    SplitTwice(n / 0x1_0000);
  }

  lemma SplitTwice(n: nat)
    ensures n == n / 0x100 * 0x100 + n % 0x100 && n / 0x1_0000 == n / 0x100 / 0x100
      && n / 0x100_0000 == n / 0x1_0000 / 0x100
  {
  }

  // ---- the protocol ----

  /** What the writer is doing: it measures the space, then writes the length, then the
      data; the reader may run in between. */
  datatype Writer = Idle | Measured(data: seq<Byte>, space: nat) | LengthWritten(data: seq<Byte>)

  /** bytes is what lies between tail and head; sent and received are the messages whose
      data has been published and those handed to the reader. */
  datatype Pipe = Pipe(bytes: seq<Byte>, capacity: nat, writer: Writer, sent: seq<seq<Byte>>, received: seq<seq<Byte>>)

  datatype Event = Measure(data: seq<Byte>) | WriteLength | WriteData | Receive(room: nat)

  function SpaceOf(p: Pipe): int {
    p.capacity - |p.bytes|
  }

  /** The second half of prvWriteMessageToBuffer runs only if the space measured before
      sufficed. */
  function WriteLengthStep(p: Pipe): Pipe
    requires p.writer.Measured?
  {
    var data := p.writer.data;
    if p.writer.space == 0 || p.writer.space < |data| + HEADER then p.(writer := Idle)
    else p.(bytes := p.bytes + LengthBytes(|data|), writer := LengthWritten(data))
  }

  function WriteDataStep(p: Pipe): Pipe
    requires p.writer.LengthWritten?
  {
    p.(bytes := p.bytes + p.writer.data, writer := Idle, sent := p.sent + [p.writer.data])
  }

  /** How many bytes prvReadMessageFromBuffer hands over to a reader with the given room;
      -1 says that it put the tail back. */
  function Deliverable(bytes: seq<Byte>, room: nat): int
    requires |bytes| > HEADER
  {
    var next := LengthOf(bytes[..HEADER]);
    if next > room then -1 else Min(|bytes| - HEADER, next)
  }

  function ReceiveStep(p: Pipe, room: nat): Pipe {
    if |p.bytes| <= HEADER || Deliverable(p.bytes, room) < 0 then p
    else
      var n := Deliverable(p.bytes, room);
      p.(bytes := p.bytes[HEADER + n..], received := p.received + [p.bytes[HEADER..HEADER + n]])
  }

  function Step(p: Pipe, e: Event): Pipe {
    match e
    case Measure(data) => if SpaceOf(p) < 0 then p else p.(writer := Measured(data, SpaceOf(p)))
    case WriteLength => if p.writer.Measured? then WriteLengthStep(p) else p
    case WriteData => if p.writer.LengthWritten? then WriteDataStep(p) else p
    case Receive(room) => ReceiveStep(p, room)
  }

  /** The source asserts that what is written is not empty, and a length is a size_t. */
  predicate Sendable(data: seq<Byte>) {
    0 < |data| && |data| + HEADER < 0x1_0000_0000
  }

  predicate Enabled(p: Pipe, e: Event) {
    match e
    case Measure(data) => p.writer.Idle? && Sendable(data)
    case WriteLength => p.writer.Measured?
    case WriteData => p.writer.LengthWritten?
    case Receive(_) => true
  }

  ghost predicate Run(pipes: seq<Pipe>, events: seq<Event>) {
    && |pipes| == |events| + 1
    && forall i :: 0 <= i < |events| ==> Enabled(pipes[i], events[i]) && pipes[i + 1] == Step(pipes[i], events[i])
  }

  // ---- whole messages only ----

  function Framed(data: seq<Byte>): seq<Byte> {
    LengthBytes(|data|) + data
  }

  function Stream(messages: seq<seq<Byte>>): seq<Byte> {
    if messages == [] then [] else Framed(messages[0]) + Stream(messages[1..])
  }

  lemma {:induction false} StreamAppend(messages: seq<seq<Byte>>, data: seq<Byte>)
    ensures Stream(messages + [data]) == Stream(messages) + Framed(data)
  {
    if messages == [] {
      assert messages + [data] == [data];
    } else {
      StreamAppend(messages[1..], data);
      assert (messages + [data])[1..] == messages[1..] + [data];
    }
  }

  /** The length of a message whose data has not been published yet. */
  function LoneLength(w: Writer): seq<Byte> {
    if w.LengthWritten? then LengthBytes(|w.data|) else []
  }

  /** Between tail and head lie the messages sent and not yet received, whole, followed by
      at most one lone length; and there is room for what the writer is about to write. */
  ghost predicate Framing(p: Pipe) {
    && p.received <= p.sent
    && p.bytes == Stream(p.sent[|p.received|..]) + LoneLength(p.writer)
    && (forall m :: m in p.sent ==> Sendable(m))
    && |p.bytes| <= p.capacity
    && (p.writer.Measured? ==> Sendable(p.writer.data) && p.writer.space <= SpaceOf(p))
    && (p.writer.LengthWritten? ==> Sendable(p.writer.data) && |p.writer.data| <= SpaceOf(p))
  }

  /** What a reader sees at the tail: a whole message, or no more than a lone length. */
  lemma FrontOf(p: Pipe)
    requires Framing(p)
    ensures (|p.bytes| > HEADER) == (p.received != p.sent)
    ensures p.received != p.sent ==>
      var next := p.sent[|p.received|];
      && p.bytes[..HEADER] == LengthBytes(|next|) && LengthOf(p.bytes[..HEADER]) == |next|
      && HEADER + |next| <= |p.bytes|
      && p.bytes[HEADER..HEADER + |next|] == next
      && p.bytes[HEADER + |next|..] == Stream(p.sent[|p.received| + 1..]) + LoneLength(p.writer)
  {
    var pending := p.sent[|p.received|..];
    if p.received == p.sent {
      assert pending == [];
    } else {
      var next := p.sent[|p.received|];
      assert pending != [];
      assert pending[0] == next && pending[1..] == p.sent[|p.received| + 1..];
      var rest := Stream(pending[1..]) + LoneLength(p.writer);
      assert p.bytes == LengthBytes(|next|) + (next + rest);
      assert Sendable(next);
      LengthRoundTrip(|next|);
      assert p.bytes[HEADER..] == next + rest;
      assert p.bytes[HEADER..HEADER + |next|] == (next + rest)[..|next|] == next;
      assert p.bytes[HEADER + |next|..] == (next + rest)[|next|..] == rest;
    }
  }

  /** A receive hands over exactly the oldest pending message if it fits; otherwise, or if
      there is none, nothing at all changes. */
  lemma ReceiveIsWhole(p: Pipe, room: nat)
    requires Framing(p)
    ensures var r := ReceiveStep(p, room);
      if p.received != p.sent && |p.sent[|p.received|]| <= room
      then r.received == p.received + [p.sent[|p.received|]] && r.sent == p.sent && Framing(r)
      else r == p
  {
    FrontOf(p);
    if p.received != p.sent && |p.sent[|p.received|]| <= room {
      var r := ReceiveStep(p, room);
      assert r.received == p.sent[..|p.received| + 1];
    }
  }

  lemma WriteLengthKeeps(p: Pipe)
    requires Framing(p) && p.writer.Measured?
    ensures Framing(WriteLengthStep(p))
  {
    assert p.bytes + [] == p.bytes;
  }

  lemma WriteDataKeeps(p: Pipe)
    requires Framing(p) && p.writer.LengthWritten?
    ensures Framing(WriteDataStep(p))
  {
    var data := p.writer.data;
    var pending := p.sent[|p.received|..];
    StreamAppend(pending, data);
    assert (p.sent + [data])[|p.received|..] == pending + [data];
    assert p.bytes + data == Stream(pending) + Framed(data) + [];
  }

  lemma StepKeeps(p: Pipe, e: Event)
    requires Framing(p) && Enabled(p, e)
    ensures Framing(Step(p, e))
  {
    match e {
      case Measure(data) =>
      case WriteLength => WriteLengthKeeps(p);
      case WriteData => WriteDataKeeps(p);
      case Receive(room) => ReceiveIsWhole(p, room);
    }
  }

  lemma {:induction false} RunKeeps(pipes: seq<Pipe>, events: seq<Event>, i: nat)
    requires Run(pipes, events) && i < |pipes| && Framing(pipes[0])
    ensures Framing(pipes[i])
  {
    if i > 0 {
      RunKeeps(pipes, events, i - 1);
      StepKeeps(pipes[i - 1], events[i - 1]);
    }
  }

  /** Whole messages only. From an empty buffer, at every point of every interleaving of
      the writer's steps with receives, the received messages are a prefix of the sent
      ones, and the bytes in the buffer are exactly the remaining messages with their
      lengths, followed by at most one lone length. */
  lemma WholeMessagesOnly(pipes: seq<Pipe>, events: seq<Event>, i: nat)
    requires Run(pipes, events) && i < |pipes|
    requires pipes[0].bytes == [] && pipes[0].writer == Idle && pipes[0].sent == pipes[0].received == []
    ensures pipes[i].received <= pipes[i].sent
    ensures pipes[i].bytes == Stream(pipes[i].sent[|pipes[i].received|..]) + LoneLength(pipes[i].writer)
    ensures |pipes[i].bytes| <= pipes[i].capacity
  {
    RunKeeps(pipes, events, i);
  }

  /** A lone length is never taken for a message: with no whole message in the buffer a
      receive does nothing, however much room the reader has. */
  lemma LoneLengthIsNotReceived(pipes: seq<Pipe>, events: seq<Event>, i: nat, room: nat)
    requires Run(pipes, events) && i < |pipes| && Framing(pipes[0])
    requires pipes[i].received == pipes[i].sent
    ensures ReceiveStep(pipes[i], room) == pipes[i]
  {
    RunKeeps(pipes, events, i);
    ReceiveIsWhole(pipes[i], room);
  }

  // ---- a message that fits goes in ----

  /** Receives leave the writer alone. */
  lemma {:induction false} ReceivesPass(pipes: seq<Pipe>, events: seq<Event>, i: nat, k: nat)
    requires Run(pipes, events) && i <= k < |pipes| && forall l :: i <= l < k ==> events[l].Receive?
    ensures pipes[k].writer == pipes[i].writer && pipes[k].sent == pipes[i].sent
    decreases k
  {
    if k > i {
      ReceivesPass(pipes, events, i, k - 1);
    }
  }

  /** A message of n bytes is sent, with any receives in between, if and only if n + 4 bytes were
      free when the space was measured; otherwise nothing is written. */
  lemma MessageGoesInExactly(pipes: seq<Pipe>, events: seq<Event>, data: seq<Byte>, j: nat, k: nat)
    requires Run(pipes, events) && Framing(pipes[0]) && 0 < j < k < |events| && events[0] == Measure(data)
    requires forall i :: 0 < i < j || j < i < k ==> events[i].Receive?
    requires events[j] == WriteLength && (events[k] == WriteData || events[k].Receive?)
    ensures var (p, free) := (pipes[0], pipes[0].capacity - |pipes[0].bytes|);
      if free >= |data| + HEADER then
        && pipes[j + 1].bytes == pipes[j].bytes + LengthBytes(|data|)
        && (events[k] == WriteData ==>
             pipes[k + 1].sent == p.sent + [data] && pipes[k + 1].bytes == pipes[k].bytes + data
             && pipes[k + 1].writer == Idle)
      else pipes[j + 1].writer == Idle && pipes[j + 1].bytes == pipes[j].bytes && pipes[j + 1].sent == p.sent
  {
    hide Framing, LengthBytes, ReceiveStep;
    RunKeeps(pipes, events, 0);
    SpaceMeasured(pipes[0], data);
    assert pipes[1] == Step(pipes[0], events[0]);
    ReceivesPass(pipes, events, 1, j);
    assert pipes[j + 1] == Step(pipes[j], events[j]);
    ReceivesPass(pipes, events, j + 1, k);
    assert pipes[k + 1] == Step(pipes[k], events[k]);
  }

  /** The writer measures the space that is free. */
  lemma SpaceMeasured(p: Pipe, data: seq<Byte>)
    requires Framing(p)
    ensures SpaceOf(p) == p.capacity - |p.bytes| >= 0
    ensures Step(p, Measure(data)) == p.(writer := Measured(data, p.capacity - |p.bytes|))
  {
  }

  // ---- stream buffers ----

  /** A stream buffer takes what fits and gives what there is. */
  datatype ByteStream = ByteStream(bytes: seq<Byte>, capacity: nat, taken: seq<Byte>, given: seq<Byte>)

  datatype StreamEvent = Send(data: seq<Byte>) | Take(room: nat)

  function StreamStep(s: ByteStream, e: StreamEvent): ByteStream {
    match e
    case Send(data) =>
      if s.capacity <= |s.bytes| then s
      else
        var n := Min(|data|, s.capacity - |s.bytes|);
        s.(bytes := s.bytes + data[..n], taken := s.taken + data[..n])
    case Take(room) =>
      var n := Min(|s.bytes|, room);
      s.(bytes := s.bytes[n..], given := s.given + s.bytes[..n])
  }

  ghost predicate StreamRun(ss: seq<ByteStream>, events: seq<StreamEvent>) {
    && |ss| == |events| + 1
    && forall i :: 0 <= i < |events| ==> ss[i + 1] == StreamStep(ss[i], events[i])
  }

  /** Bytes are neither lost, invented nor reordered. */
  lemma {:induction false} StreamIsFifo(ss: seq<ByteStream>, events: seq<StreamEvent>, i: nat)
    requires StreamRun(ss, events) && i < |ss|
    requires ss[0].bytes == [] && ss[0].taken == ss[0].given == []
    ensures ss[i].taken == ss[i].given + ss[i].bytes && |ss[i].bytes| <= ss[i].capacity
  {
    if i > 0 {
      StreamIsFifo(ss, events, i - 1);
      var s, r := ss[i - 1], ss[i];
      match events[i - 1] {
        case Send(_) =>
        case Take(room) =>
          var n := Min(|s.bytes|, room);
          assert s.bytes == s.bytes[..n] + s.bytes[n..];
      }
      assert r == StreamStep(s, events[i - 1]);
    }
  }

  /** A stream takes the first bytes of what it is sent, as many as fit, and gives the oldest
      bytes it has, as many as there is room for. */
  lemma StreamMovesAll(s: ByteStream, data: seq<Byte>, room: nat)
    requires |s.bytes| <= s.capacity
    ensures var (r, free) := (StreamStep(s, Send(data)), s.capacity - |s.bytes|);
      && r.taken == s.taken + (if |data| <= free then data else data[..free]) && r.given == s.given
      && r.bytes == s.bytes + r.taken[|s.taken|..]
    ensures var r := StreamStep(s, Take(room));
      && r.given == s.given + (if |s.bytes| <= room then s.bytes else s.bytes[..room]) && r.taken == s.taken
      && s.bytes == r.given[|s.given|..] + r.bytes
  {
    assert data[..|data|] == data && s.bytes[..|s.bytes|] == s.bytes;
  }
}
