/** Decoding undoes encoding, line breaks do not matter, and what is written never exceeds
    what the first pass announced. */
module Base64Proofs {
  import opened Base64Model
  import opened Common

  // ---- the groups of an encoded string ----

  lemma {:induction false} PadsSplit(a: seq<Byte>, b: seq<Byte>)
    ensures Pads(a + b) == Pads(a) + Pads(b)
  {
    if a == [] {
      assert a + b == b;
    } else {
      PadsSplit(a[1..], b);
      assert (a + b)[1..] == a[1..] + b;
    }
  }

  lemma GroupsQuad(a: Byte, b: Byte, c: Byte, rest: seq<Byte>)
    ensures Groups(Quad(a, b, c) + rest, 3) == [a, b, c] + Groups(rest, 3)
  {
    hide DecMap, Value, Triple, Pads, Quad;
    var q := Quad(a, b, c);
    QuadValue(a, b, c);
    assert (q + rest)[..4] == q && (q + rest)[4..] == rest;
  }

  /** The last group of an encoded string that is not a multiple of three long. */
  lemma TailGroup(s: seq<Byte>)
    requires 1 <= |s| <= 2
    ensures Groups(Encode(s), 3) == s && Pads(Encode(s)) == 3 - |s|
    ensures |Encode(s)| == 4 && Plain(Encode(s)[..|s| + 1])
      && Encode(s)[|s| + 1..] == (if |s| == 1 then [PAD, PAD] else [PAD])
  {
    hide EncMap, DecMap, Value, Triple;
    var q := Quad(s[0], SecondOf(s), 0);
    var e := Encode(s);
    QuadValue(s[0], SecondOf(s), 0);
    QuadSextets(s[0], SecondOf(s), 0);
    PadMap();
    SameValue(q, e);
    PlainPads(q[..|s| + 1]);
    PadsSplit(q[..|s| + 1], if |s| == 1 then [PAD, PAD] else [PAD]);
    PadsOfPads();
    assert e[..4] == e && e[4..] == [];
  }

  function SecondOf(s: seq<Byte>): Byte
    requires 1 <= |s| <= 2
  {
    if |s| == 2 then s[1] else 0
  }

  lemma PadMap()
    ensures DecMap(PAD) == 64
  {
  }

  lemma PadsOfPads()
    ensures Pads([PAD]) == 1 && Pads([PAD, PAD]) == 2
  {
    assert Pads([PAD, PAD][1..]) == 1;
  }

  /** Padding characters read as zero bits, like the missing bytes. */
  lemma SameValue(q: seq<Byte>, e: seq<Byte>)
    requires |q| == |e| == 4
    requires forall i :: 0 <= i < 4 ==> DecMap(q[i]) % 64 == DecMap(e[i]) % 64
    ensures Value(q[0], q[1], q[2], q[3]) == Value(e[0], e[1], e[2], e[3])
  {
    hide DecMap;
  }

  lemma {:induction false} GroupsOfEncode(s: seq<Byte>)
    ensures Groups(Encode(s), 3) == s
  {
    hide Groups, Quad;
    if s == [] {
      GroupsOfNone();
    } else if |s| <= 2 {
      TailGroup(s);
    } else {
      GroupsQuad(s[0], s[1], s[2], Encode(s[3..]));
      GroupsOfEncode(s[3..]);
      assert s == [s[0], s[1], s[2]] + s[3..];
    }
  }

  lemma GroupsOfNone()
    ensures Groups([], 3) == []
  {
  }

  // ---- the first pass over an encoded string ----

  lemma {:induction false} ScanPlain(c: seq<Byte>, d: seq<Byte>, n: nat)
    requires Plain(c)
    ensures Scan(c + d, n, 0) == Scan(d, n + |c|, 0)
    decreases |c|
  {
    hide Scan, DecMap;
    if c == [] {
      assert c + d == d;
    } else {
      ScanPlain(c[1..], d, n + 1);
      assert (c + d)[0] == c[0] && (c + d)[1..] == c[1..] + d;
      assert DecMap(c[0]) < 64;
      PadMap();
      ScanChar(c + d, n, 0);
    }
  }

  /** An alphabet or padding character is counted. */
  lemma ScanChar(src: seq<Byte>, n: nat, j: nat)
    requires src != [] && DecMap(src[0]) <= 64
    ensures Scan(src, n, j) ==
      var j1 := if src[0] == PAD then j + 1 else j;
      if j1 > 2 || (DecMap(src[0]) < 64 && j1 != 0) then Invalid else Scan(src[1..], n + 1, j1)
  {
    assert Spaces(src) == 0 && src[0..] == src;
  }

  lemma ScanPads(k: nat, n: nat)
    requires k <= 2
    ensures Scan(if k == 0 then [] else if k == 1 then [PAD] else [PAD, PAD], n, 0) == Accepted(n + k, k)
  {
    assert Scan([], n + k, k) == Accepted(n + k, k);
    if k == 1 {
      ScanChar([PAD], n, 0);
      assert [PAD][1..] == [];
    } else if k == 2 {
      ScanChar([PAD, PAD], n, 0);
      ScanChar([PAD], n + 1, 1);
      assert [PAD, PAD][1..] == [PAD] && [PAD][1..] == [];
    }
  }

  lemma {:induction false} ScanEncode(s: seq<Byte>, n: nat)
    ensures Scan(Encode(s), n, 0) == Accepted(n + |Encode(s)|, if |s| % 3 == 0 then 0 else 3 - |s| % 3)
    decreases |s|
  {
    hide Scan, Quad, EncMap, DecMap, Value, Triple;
    if s == [] {
      ScanPads(0, n);
    } else if |s| <= 2 {
      TailGroup(s);
      var e := Encode(s);
      assert e == e[..|s| + 1] + e[|s| + 1..];
      ScanPlain(e[..|s| + 1], e[|s| + 1..], n);
      ScanPads(3 - |s|, n + |s| + 1);
    } else {
      QuadValue(s[0], s[1], s[2]);
      ScanPlain(Quad(s[0], s[1], s[2]), Encode(s[3..]), n);
      ScanEncode(s[3..], n + 4);
    }
  }

  // ---- line breaks ----

  /** No space, and a carriage return begins a CRLF. */
  predicate NoStray(src: seq<Byte>, i: nat)
    requires i < |src|
  {
    src[i] != SPACE && (src[i] == CR ==> i + 1 < |src| && src[i + 1] == LF)
  }

  ghost predicate OnlyLineBreaks(src: seq<Byte>) {
    forall i :: 0 <= i < |src| ==> NoStray(src, i)
  }

  /** Line breaks, LF or CRLF, may stand anywhere: the first pass does not see them. */
  lemma {:induction false} LineBreaksIgnored(src: seq<Byte>, n: nat, j: nat)
    requires OnlyLineBreaks(src)
    ensures Scan(src, n, j) == Scan(Strip(src), n, j)
    decreases |src|
  {
    hide DecMap;
    if src != [] {
      var rest := src[1..];
      BreaksTail(src);
      assert NoStray(src, 0);
      assert Spaces(src) == 0 && src[0..] == src;
      if src[0] == LF || src[0] == CR {
        SkipOne(src);
        if src[0] == CR { FirstBreak(src, 0); }
        LineBreaksIgnored(rest, n, j);
      } else {
        var j1 := if src[0] == PAD then j + 1 else j;
        LineBreaksIgnored(rest, n + 1, j1);
        var t := Strip(src);
        assert t == [src[0]] + Strip(rest) && t[1..] == Strip(rest);
        assert Spaces(t) == 0 && t[0..] == t;
      }
    }
  }

  lemma BreaksTail(src: seq<Byte>)
    requires src != [] && OnlyLineBreaks(src)
    ensures OnlyLineBreaks(src[1..])
  {
    var rest := src[1..];
    forall i | 0 <= i < |rest| ensures NoStray(rest, i) {
      assert NoStray(src, i + 1);
    }
  }

  lemma FirstBreak(src: seq<Byte>, i: nat)
    requires i < |src| && OnlyLineBreaks(src) && src[i] == CR
    ensures i + 1 < |src| && src[i + 1] == LF
  {
    assert NoStray(src, i);
  }

  lemma SkipOne(r: seq<Byte>)
    requires r != [] && Skipped(r[0])
    ensures Strip(r) == Strip(r[1..])
  {
  }

  lemma {:induction false} PlainStrip(c: seq<Byte>)
    requires forall i :: 0 <= i < |c| ==> DecMap(c[i]) <= 64
    ensures Strip(c) == c
  {
    if c != [] {
      assert DecMap(c[0]) <= 64;
      PlainStrip(c[1..]);
    }
  }

  lemma {:induction false} EncodePlain(s: seq<Byte>)
    ensures forall i :: 0 <= i < |Encode(s)| ==> DecMap(Encode(s)[i]) <= 64
  {
    hide EncMap, DecMap, Value, Triple, Groups, Quad;
    if 1 <= |s| <= 2 {
      TailGroup(s);
      PadMap();
      var e := Encode(s);
      forall i | 0 <= i < 4 ensures DecMap(e[i]) <= 64 {
        if i < |s| + 1 { assert e[i] == e[..|s| + 1][i]; } else { assert e[i] == e[|s| + 1..][i - |s| - 1]; }
      }
    } else if |s| >= 3 {
      QuadValue(s[0], s[1], s[2]);
      EncodePlain(s[3..]);
    }
  }

  /** Round trip. However the encoded text of s is broken into lines, it decodes to s, and
      the length announced for it is that of s. */
  lemma RoundTrip(s: seq<Byte>, src: seq<Byte>)
    requires OnlyLineBreaks(src) && Strip(src) == Encode(s)
    ensures Decode(src) == Bytes(s)
    ensures Scan(src, 0, 0) == Accepted(|Encode(s)|, if |s| % 3 == 0 then 0 else 3 - |s| % 3)
  {
    hide Scan, Groups, OnlyLineBreaks;
    LineBreaksIgnored(src, 0, 0);
    ScanEncode(s, 0);
    GroupsOfEncode(s);
  }

  /** In particular the encoded text itself does. */
  lemma DecodeEncode(s: seq<Byte>)
    ensures Decode(Encode(s)) == Bytes(s)
  {
    hide Scan, Groups, Encode, DecMap, Decode;
    EncodePlain(s);
    PlainStrip(Encode(s));
    PlainHasNoBreaks(Encode(s));
    RoundTrip(s, Encode(s));
  }

  lemma PlainHasNoBreaks(c: seq<Byte>)
    requires forall i :: 0 <= i < |c| ==> DecMap(c[i]) <= 64
    ensures OnlyLineBreaks(c)
  {
    forall i | 0 <= i < |c| ensures NoStray(c, i) {
      assert DecMap(c[i]) <= 64;
    }
  }

  // ---- the announced length ----

  /** Padding comes last, and everything else is in the alphabet. */
  predicate PadsLast(c: seq<Byte>) {
    c == [] || (if DecMap(c[0]) == 64 then Pads(c) == |c| else DecMap(c[0]) < 64 && PadsLast(c[1..]))
  }

  lemma {:induction false} StripSpaces(src: seq<Byte>)
    ensures Strip(src) == Strip(src[Spaces(src)..])
  {
    if src != [] && src[0] == SPACE {
      StripSpaces(src[1..]);
      assert src[1..][Spaces(src[1..])..] == src[Spaces(src)..];
    } else {
      assert src[0..] == src;
    }
  }

  lemma {:induction false} PadsAtMost(c: seq<Byte>)
    ensures Pads(c) <= |c|
  {
    if c != [] { PadsAtMost(c[1..]); }
  }

  /** What the first pass counts in an accepted text. */
  lemma {:induction false} ScanCounts(src: seq<Byte>, n: nat, j: nat)
    requires Scan(src, n, j).Accepted? && j <= 2
    ensures var c := Strip(src);
      && Scan(src, n, j) == Accepted(n + |c|, j + Pads(c)) && j + Pads(c) <= 2
      && PadsLast(c) && (j > 0 ==> Pads(c) == |c|)
    decreases |src|
  {
    hide DecMap;
    var k := Spaces(src);
    var r := src[k..];
    StripSpaces(src);
    if r != [] {
      if (|r| >= 2 && r[0] == CR && r[1] == LF) || r[0] == LF {
        SkipOne(r);
        ScanCounts(r[1..], n, j);
      } else {
        var j1 := if r[0] == PAD then j + 1 else j;
        ScanCounts(r[1..], n + 1, j1);
        CountOne(r);
      }
    }
  }

  lemma CountOne(r: seq<Byte>)
    requires r != [] && DecMap(r[0]) != 127
    ensures Strip(r) == [r[0]] + Strip(r[1..]) && Strip(r)[1..] == Strip(r[1..])
    ensures (DecMap(r[0]) == 64) == (r[0] == PAD) && DecMap(r[0]) <= 64
  {
  }

  lemma {:induction false} PadsLastDrop(c: seq<Byte>, k: nat)
    requires PadsLast(c) && k <= |c|
    ensures PadsLast(c[k..]) && Pads(c[..k]) + Pads(c[k..]) == Pads(c)
    ensures Pads(c[..k]) > 0 ==> Pads(c[k..]) == |c| - k
  {
    hide DecMap;
    if k == 0 {
      assert c[0..] == c;
    } else {
      assert c[..k] + c[k..] == c;
      PadsSplit(c[..k], c[k..]);
      PadsAtMost(c[..k]);
      PadsAtMost(c[k..]);
      if DecMap(c[0]) == 64 {
        AllPads(c[k..]);
      } else {
        PadsLastDrop(c[1..], k - 1);
        assert c[1..][..k - 1] == c[..k][1..] && c[1..][k - 1..] == c[k..];
      }
    }
  }

  lemma {:induction false} AllPads(c: seq<Byte>)
    requires Pads(c) == |c|
    ensures PadsLast(c)
  {
    if c != [] { PadsAtMost(c[1..]); }
  }

  /** The second pass writes at most the announced number of bytes, and exactly that many
      when the characters come in fours. */
  lemma {:induction false} GroupsFit(c: seq<Byte>)
    requires PadsLast(c) && Pads(c) <= 2
    ensures |Groups(c, 3)| <= (|c| * 6 + 7) / 8 - Pads(c)
    ensures |c| % 4 == 0 ==> |Groups(c, 3)| == (|c| * 6 + 7) / 8 - Pads(c)
  {
    hide DecMap, Triple, Value, PadsLast, Pads;
    PadsAtMost(c);
    if |c| >= 4 {
      PadsLastDrop(c, 4);
      PadsAtMost(c[..4]);
      if Pads(c[..4]) == 0 {
        GroupsFit(c[4..]);
      }
    }
  }

  /** And no more than three bytes less. */
  lemma {:induction false} GroupsNear(c: seq<Byte>)
    requires PadsLast(c) && Pads(c) <= 2
    ensures (|c| * 6 + 7) / 8 - Pads(c) <= |Groups(c, 3)| + 3
  {
    hide DecMap, Triple, Value, PadsLast, Pads;
    PadsAtMost(c);
    if |c| >= 4 {
      PadsLastDrop(c, 4);
      PadsAtMost(c[..4]);
      if Pads(c[..4]) == 0 {
        GroupsNear(c[4..]);
      }
    }
  }

  /** While 6n + 7 does not wrap, n being the characters counted, what decoding writes fits
      in the length computed by the first pass. */
  lemma OutputFits(src: seq<Byte>)
    requires Scan(src, 0, 0).Accepted? && Scan(src, 0, 0).n * 6 + 7 < 0x1_0000_0000
    ensures var a := Scan(src, 0, 0);
      |Groups(Strip(src), 3)| <= Announced(a.n, a.pads)
        && (a.n % 4 == 0 ==> |Groups(Strip(src), 3)| == Announced(a.n, a.pads))
  {
    hide Scan, Groups, Strip, DecMap, Announced;
    ScanCounts(src, 0, 0);
    GroupsFit(Strip(src));
    PadsBelow(Strip(src));
    AnnouncedIs(Scan(src, 0, 0).n, Scan(src, 0, 0).pads);
  }

  lemma PadsBelow(c: seq<Byte>)
    ensures Pads(c) <= 2 ==> Pads(c) <= (|c| * 6 + 7) / 8
  {
    PadsAtMost(c);
  }

  /** The length the first pass computes: each wrap of 6n + 7 takes 2^29 off it, and taking
      off the padding may wrap once more. */
  lemma AnnouncedIs(n: nat, pads: nat)
    requires pads <= 2 && n < 0x1_0000_0000
    ensures var wraps := (n * 6 + 7) / 0x1_0000_0000;
      Announced(n, pads) ==
        if (n * 6 + 7) % 0x1_0000_0000 / 8 < pads then 0x1_0000_0000 + (n * 6 + 7) % 0x1_0000_0000 / 8 - pads
        else (n * 6 + 7) / 8 - wraps * 0x2000_0000 - pads
  {
    hide SizeT;
    var x := n * 6 + 7;
    var wraps, low := x / 0x1_0000_0000, x % 0x1_0000_0000;
    SizeSum(n * 6, 7);
    assert SizeT(x) == low by { SizeIs(x); }
    EighthOf(x, wraps, low);
    SizeLess(low / 8, pads);
  }

  lemma SizeIs(x: nat)
    ensures SizeT(x) == x % 0x1_0000_0000
  {
  }

  lemma SizeSum(a: nat, b: nat)
    ensures SizeT(SizeT(a) + b) == SizeT(a + b)
  {
  }

  lemma SizeLess(a: nat, pads: nat)
    requires a < 0x2000_0000 && pads <= 2
    ensures SizeT(a - pads) == if a < pads then 0x1_0000_0000 + a - pads else a - pads
  {
  }

  lemma EighthOf(x: nat, wraps: nat, low: nat)
    requires x == wraps * 0x1_0000_0000 + low && low < 0x1_0000_0000
    ensures x / 8 == wraps * 0x2000_0000 + low / 8 && low / 8 < 0x2000_0000
  {
  }

  /** For every accepted text of n characters that a 32-bit length can describe, what
      decoding writes fits in the announced length if and only if 6n + 7 does not wrap, or
      has wrapped to so little that taking off the padding wraps it back up. */
  lemma OutputFitsExactly(src: seq<Byte>)
    requires Scan(src, 0, 0).Accepted? && |src| < 0x1_0000_0000
    ensures var a := Scan(src, 0, 0);
      |Groups(Strip(src), 3)| <= Announced(a.n, a.pads) <==>
        (a.n * 6 + 7 < 0x1_0000_0000 || (a.n * 6 + 7) % 0x1_0000_0000 / 8 < a.pads)
  {
    hide Scan, Groups, Strip, DecMap, Announced;
    ScanCounts(src, 0, 0);
    StripShorter(src);
    var c := Strip(src);
    var a := Scan(src, 0, 0);
    GroupsFit(c);
    GroupsNear(c);
    AnnouncedIs(a.n, a.pads);
    if a.n * 6 + 7 < 0x1_0000_0000 { OutputFits(src); } else { FarApart(a.n); }
  }

  lemma FarApart(n: nat)
    requires 0x1_0000_0000 <= n * 6 + 7
    ensures 1 <= (n * 6 + 7) / 0x1_0000_0000
  {
  }

  lemma {:induction false} StripShorter(src: seq<Byte>)
    ensures |Strip(src)| <= |src|
  {
    if src != [] { StripShorter(src[1..]); }
  }

  /** 715827882 characters are announced as no bytes at all. */
  lemma AnnouncedWraps()
    ensures var src: seq<Byte> := seq(715827882, _ => 65);
      && Scan(src, 0, 0) == Accepted(715827882, 0) && Announced(715827882, 0) == 0
      && 0 < |Groups(Strip(src), 3)|
  {
    hide Scan, Groups, Strip;
    var src: seq<Byte> := seq(715827882, _ => 65);
    ScanPlain(src, [], 0);
    ScanPads(0, 715827882);
    assert src + [] == src;
    OutputFitsExactly(src);
  }
}
