/** StreamBuffer_t as stream_buffer.c keeps it: a ring of bytes with a head and a tail
    index, copied in and out in at most two pieces, refined to the pipe of MessageModel. */
module StreamBuffers {
  import opened Common
  import opened MessageModel

  // ---- the ring of bytes ----

  function At(length: nat, tail: nat, k: nat): int {
    if tail + k < length then tail + k else tail + k - length
  }

  /** n bytes from the tail on. */
  function Bytes(ring: seq<Byte>, tail: nat, n: nat): (b: seq<Byte>)
    requires tail < |ring| && n <= |ring|
    ensures |b| == n
  {
    seq(n, k requires 0 <= k < n => ring[At(|ring|, tail, k)])
  }

  /** Where the two memcpy calls put data: up to the end of the storage, and the rest at
      its beginning. */
  function Written(ring: seq<Byte>, head: nat, data: seq<Byte>): (r: seq<Byte>)
    requires head < |ring| && |data| <= |ring|
    ensures |r| == |ring|
  {
    var first := Min(|ring| - head, |data|);
    var ring1 := ring[..head] + data[..first] + ring[head + first..];
    data[first..] + ring1[|data| - first..]
  }

  /** Writing in two pieces at the head appends to the bytes between tail and head. */
  lemma WriteAppends(ring: seq<Byte>, tail: nat, n: nat, data: seq<Byte>)
    requires tail < |ring| && n + |data| < |ring|
    ensures 0 <= At(|ring|, tail, n) < |ring|
    ensures var head := At(|ring|, tail, n);
      Bytes(Written(ring, head, data), tail, n + |data|) == Bytes(ring, tail, n) + data
    ensures var head := At(|ring|, tail, n);
      At(|ring|, tail, n + |data|) == if head + |data| >= |ring| then head + |data| - |ring| else head + |data|
  {
    var head := At(|ring|, tail, n);
    var r := Written(ring, head, data);
    var all := Bytes(r, tail, n + |data|);
    forall k | 0 <= k < n ensures all[k] == Bytes(ring, tail, n)[k] {
      WrittenAt(ring, head, data, At(|ring|, tail, k));
    }
    forall k | 0 <= k < |data| ensures all[n + k] == data[k] {
      WrittenAt(ring, head, data, At(|ring|, tail, n + k));
    }
  }

  lemma WrittenAt(ring: seq<Byte>, head: nat, data: seq<Byte>, i: nat)
    requires head < |ring| && |data| <= |ring| && i < |ring|
    ensures Written(ring, head, data)[i] ==
      if head <= i < head + |data| then data[i - head]
      else if i + |ring| < head + |data| then data[i + |ring| - head]
      else ring[i]
  {
    var first := Min(|ring| - head, |data|);
    var ring1 := ring[..head] + data[..first] + ring[head + first..];
    assert ring1[i] == if head <= i < head + first then data[i - head] else ring[i];
  }

  /** Reading in two pieces at the tail. */
  function Read(ring: seq<Byte>, tail: nat, n: nat): seq<Byte>
    requires tail < |ring| && n <= |ring|
  {
    var first := Min(|ring| - tail, n);
    ring[tail..tail + first] + ring[..n - first]
  }

  lemma ReadTakes(ring: seq<Byte>, tail: nat, n: nat, count: nat)
    requires tail < |ring| && count <= n < |ring|
    ensures Read(ring, tail, count) == Bytes(ring, tail, n)[..count]
    ensures var next := if tail + count >= |ring| then tail + count - |ring| else tail + count;
      && 0 <= next < |ring| && Bytes(ring, next, n - count) == Bytes(ring, tail, n)[count..]
      && At(|ring|, next, n - count) == At(|ring|, tail, n)
  {
    var next := if tail + count >= |ring| then tail + count - |ring| else tail + count;
    var rest, all := Bytes(ring, next, n - count), Bytes(ring, tail, n);
    forall k | 0 <= k < n - count ensures rest[k] == all[count..][k] {
      assert At(|ring|, next, k) == At(|ring|, tail, count + k);
    }
  }

  /** size_t arithmetic. */
  function Size(n: int): (s: nat)
    ensures s < 0x1_0000_0000
  {
    n % 0x1_0000_0000
  }

  /** xStreamBufferSpacesAvailable and prvBytesInBuffer, in wrapping 32-bit arithmetic. */
  function Spaces(length: nat, head: nat, tail: nat): nat {
    var space := Size(Size(Size(length + tail) - head) - 1);
    if space >= length then Size(space - length) else space
  }

  function Count(length: nat, head: nat, tail: nat): nat {
    var count := Size(Size(length + head) - tail);
    if count >= length then Size(count - length) else count
  }

  lemma CountExact(length: nat, head: nat, tail: nat)
    requires 0 < length <= 0x8000_0000 && head < length && tail < length
    ensures Count(length, head, tail) == if head >= tail then head - tail else length + head - tail
  {
    assert Size(length + head) == length + head;
    assert Size(length + head - tail) == length + head - tail;
  }

  lemma SpacesExact(length: nat, head: nat, tail: nat)
    requires 0 < length <= 0x8000_0000 && head < length && tail < length
    ensures Spaces(length, head, tail) == if head >= tail then length - 1 - (head - tail) else tail - head - 1
  {
    assert Size(length + tail) == length + tail;
    assert Size(length + tail - head) == length + tail - head;
    assert Size(length + tail - head - 1) == length + tail - head - 1;
  }

  /** Bytes and spaces always add up to one less than the length, and the count is the
      distance from tail to head. */
  lemma CountsAddUp(length: nat, head: nat, tail: nat)
    requires 0 < length <= 0x8000_0000 && head < length && tail < length
    ensures Count(length, head, tail) + Spaces(length, head, tail) == length - 1
    ensures At(length, tail, Count(length, head, tail)) == head
  {
    hide Count, Spaces;
    CountExact(length, head, tail);
    SpacesExact(length, head, tail);
  }

  // ---- the buffer ----

  class StreamBuffer {
    const xLength: nat
    const pucBuffer: array<Byte>
    const isMessageBuffer: bool
    var xHead: nat
    var xTail: nat

    ghost predicate Valid()
      reads this
    {
      1 < xLength == pucBuffer.Length <= 0x8000_0000 && xHead < xLength && xTail < xLength
    }

    ghost function Contents(): (b: seq<Byte>)
      requires Valid()
      reads this, pucBuffer
      ensures |b| < xLength
    {
      CountsAddUp(xLength, xHead, xTail);
      Bytes(pucBuffer[..], xTail, Count(xLength, xHead, xTail))
    }

    /** xStreamBufferGenericCreate adds one byte to the size asked for. */
    constructor (size: nat, message: bool)
      requires HEADER < size < 0x8000_0000
      ensures Valid() && fresh(pucBuffer) && Contents() == [] && xLength == size + 1 && isMessageBuffer == message
    {
      xLength := size + 1;
      pucBuffer := new Byte[size + 1];
      isMessageBuffer := message;
      xHead, xTail := 0, 0;
      new;
      CountsAddUp(xLength, 0, 0);
    }

    /** xStreamBufferSpacesAvailable. */
    method SpacesAvailable() returns (space: nat)
      requires Valid()
      ensures space + |Contents()| == xLength - 1
    {
      CountsAddUp(xLength, xHead, xTail);
      space := Size(xLength + xTail);
      space := Size(space - xHead);
      space := Size(space - 1);
      if space >= xLength {
        space := Size(space - xLength);
      }
    }

    /** prvBytesInBuffer. */
    method BytesInBuffer() returns (count: nat)
      requires Valid()
      ensures count == |Contents()|
    {
      count := Size(xLength + xHead);
      count := Size(count - xTail);
      if count >= xLength {
        count := Size(count - xLength);
      }
    }

    /** prvWriteBytesToBuffer: the head moves once, after both copies. */
    method WriteBytes(data: seq<Byte>) returns (count: nat)
      requires Valid() && 0 < |data| && |Contents()| + |data| < xLength
      modifies this`xHead, pucBuffer
      ensures Valid() && count == |data| && Contents() == old(Contents()) + data
    {
      ghost var ring, n := pucBuffer[..], |Contents()|;
      CountsAddUp(xLength, xHead, xTail);
      WriteAppends(ring, xTail, n, data);
      var nextHead := xHead;
      var first := Min(xLength - nextHead, |data|);
      forall i | 0 <= i < first {
        pucBuffer[nextHead + i] := data[i];
      }
      if |data| > first {
        forall i | 0 <= i < |data| - first {
          pucBuffer[i] := data[first + i];
        }
      }
      nextHead := nextHead + |data|;
      if nextHead >= xLength {
        nextHead := nextHead - xLength;
      }
      xHead := nextHead;
      forall i | 0 <= i < xLength ensures pucBuffer[i] == Written(ring, old(xHead), data)[i] {
        WrittenAt(ring, old(xHead), data, i);
      }
      assert pucBuffer[..] == Written(ring, old(xHead), data);
      CountAt(xLength, xHead, xTail, n + |data|);
      return |data|;
    }

    /** prvReadBytesFromBuffer. */
    method ReadBytes(maxCount: nat, available: nat) returns (data: seq<Byte>)
      requires Valid() && available <= |Contents()|
      modifies this`xTail
      ensures Valid() && |data| == Min(available, maxCount)
      ensures data == old(Contents())[..|data|] && Contents() == old(Contents())[|data|..]
      ensures data == [] ==> xTail == old(xTail)
    {
      ghost var n := |Contents()|;
      var count := Min(available, maxCount);
      data := [];
      if count > 0 {
        CountsAddUp(xLength, xHead, xTail);
        ReadTakes(pucBuffer[..], xTail, n, count);
        var nextTail := xTail;
        var first := Min(xLength - nextTail, count);
        data := pucBuffer[nextTail..nextTail + first];
        if count > first {
          data := data + pucBuffer[..count - first];
        }
        assert data == Read(pucBuffer[..], xTail, count);
        nextTail := nextTail + count;
        if nextTail >= xLength {
          nextTail := nextTail - xLength;
        }
        xTail := nextTail;
        CountAt(xLength, xHead, xTail, n - count);
      }
    }

    /** prvWriteMessageToBuffer with the space measured by its caller. */
    method WriteMessage(data: seq<Byte>, space: nat) returns (written: nat)
      requires Valid() && Sendable(data) && space + |Contents()| <= xLength - 1
      modifies this`xHead, pucBuffer
      ensures Valid()
      ensures written == if isMessageBuffer then (if space >= |data| + HEADER then |data| else 0)
        else Min(|data|, space)
      ensures Contents() == old(Contents()) +
        (if isMessageBuffer then (if space >= |data| + HEADER then Framed(data) else [])
          else data[..Min(|data|, space)])
    {
      var toWrite := data;
      if space == 0 {
        return 0;
      } else if !isMessageBuffer {
        toWrite := data[..Min(|data|, space)];
      } else if space >= |data| + HEADER {
        var _ := WriteBytes(LengthBytes(|data|));
      } else {
        return 0;
      }
      written := WriteBytes(toWrite);
    }

    /** prvReadMessageFromBuffer, as xStreamBufferReceive calls it: the tail is put back if
        the message does not fit. */
    method Receive(room: nat) returns (data: seq<Byte>)
      requires Valid()
      modifies this`xTail
      ensures Valid()
      ensures var was := old(Contents());
        if isMessageBuffer then
          if |was| <= HEADER || Deliverable(was, room) < 0 then data == [] && xTail == old(xTail)
          else var n := Deliverable(was, room); data == was[HEADER..HEADER + n] && Contents() == was[HEADER + n..]
        else var n := Min(|was|, room); data == was[..n] && Contents() == was[n..]
    {
      hide Bytes, Count, LengthOf;
      ghost var was := Contents();
      var store := if isMessageBuffer then HEADER else 0;
      var available := BytesInBuffer();
      data := [];
      if available > store {
        var next := room;
        if store != 0 {
          var originalTail := xTail;
          var length := ReadBytes(store, available);
          next := LengthOf(length);
          available := available - store;
          if next > room {
            xTail := originalTail;
            assert Contents() == was;
            next := 0;
          }
        }
        data := ReadBytes(next, available);
      }
    }
  }

  lemma CountAt(length: nat, head: nat, tail: nat, n: nat)
    requires 0 < length <= 0x8000_0000 && head < length && tail < length && n < length
    requires At(length, tail, n) == head
    ensures Count(length, head, tail) == n
  {
    hide Count;
    CountExact(length, head, tail);
  }
}
