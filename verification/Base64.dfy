/** base64.c as it runs, on byte buffers and 32-bit lengths. */
module Base64 {
  import opened Base64Model
  import opened Common
  import opened Base64Proofs

  const SIZE_MAX: nat := 0xffff_ffff
  const OK: int := 0
  const ERR_BUFFER_TOO_SMALL: int := -0x2a
  const ERR_INVALID_CHARACTER: int := -0x2c

  /** Groups of four characters for s, rounded up. */
  function Quads(s: seq<Byte>): nat {
    |s| / 3 + (if |s| % 3 != 0 then 1 else 0)
  }

  /** mbedtls_base64_encode; a null buffer has length 0. */
  method EncodeBuffer(dst: array?<Byte>, src: seq<Byte>) returns (error: int, olen: nat)
    requires |src| <= SIZE_MAX && (dst != null ==> dst.Length <= SIZE_MAX)
    modifies if dst == null then {} else {dst}
    ensures error == (if src == [] || (Quads(src) <= (SIZE_MAX - 1) / 4 && dst != null && Quads(src) * 4 < dst.Length)
      then OK
                      else ERR_BUFFER_TOO_SMALL)
    ensures error == OK && src != [] && dst != null ==>
      olen == |Encode(src)| < dst.Length && dst[..olen] == Encode(src) && dst[olen] == 0
        && dst[olen + 1..] == old(dst[olen + 1..])
    ensures error != OK ==> olen == (if Quads(src) <= (SIZE_MAX - 1) / 4 then |Encode(src)| + 1 else SIZE_MAX)
    ensures src == [] ==> olen == 0
    ensures dst != null && (error != OK || src == []) ==> dst[..] == old(dst[..])
  {
    hide Quad, EncMap;
    if src == [] {
      return OK, 0;
    }
    EncodeLength(src);
    var n := |src| / 3 + (if |src| % 3 != 0 then 1 else 0);
    if n > (SIZE_MAX - 1) / 4 {
      return ERR_BUFFER_TOO_SMALL, SIZE_MAX;
    }
    n := n * 4;
    if dst == null || dst.Length < n + 1 {
      return ERR_BUFFER_TOO_SMALL, n + 1;
    }
    olen := EncodeInto(dst, src);
    return OK, olen;
  }

  /** The loop, the last group and the terminating zero. */
  method EncodeInto(dst: array<Byte>, src: seq<Byte>) returns (p: nat)
    requires |Encode(src)| < dst.Length
    modifies dst
    ensures p == |Encode(src)| && dst[..p] == Encode(src) && dst[p] == 0 && dst[p + 1..] == old(dst[p + 1..])
  {
    hide Encode, Quad, EncMap;
    var n := |src| / 3 * 3;
    var i := 0;
    p := 0;
    assert src[0..] == src;
    while i < n
      invariant 0 <= i <= n && i % 3 == 0
      invariant p + |Encode(src[i..])| == |Encode(src)|
      invariant dst[..p] + Encode(src[i..]) == Encode(src)
      invariant dst[p..] == old(dst[p..])
    {
      ghost var done := dst[..p];
      QuadStep(src, i);
      PutQuad(dst, p, src[i], src[i + 1], src[i + 2]);
      Written(dst[..], p, done, Quad(src[i], src[i + 1], src[i + 2]));
      p := p + 4;
      i := i + 3;
    }
    if i < |src| {
      ghost var done := dst[..p];
      LastLength(src[i..]);
      PutLast(dst, p, src, i);
      Written(dst[..], p, done, Encode(src[i..]));
      p := p + 4;
    } else {
      NothingLeft(src[i..]);
    }
    ghost var tail := dst[p..];
    assert tail == old(dst[p..]);
    dst[p] := 0;
    assert dst[p + 1..] == tail[1..] && old(dst[p..])[1..] == old(dst[p + 1..]);
  }

  lemma QuadStep(src: seq<Byte>, i: nat)
    requires i + 3 <= |src|
    ensures Encode(src[i..]) == Quad(src[i], src[i + 1], src[i + 2]) + Encode(src[i + 3..])
  {
    hide Quad;
    assert src[i..][3..] == src[i + 3..];
  }

  lemma LastLength(rest: seq<Byte>)
    requires 1 <= |rest| <= 2
    ensures |Encode(rest)| == 4
  {
    EncodeLength(rest);
  }

  lemma NothingLeft(rest: seq<Byte>)
    requires rest == []
    ensures Encode(rest) == []
  {
  }

  lemma Written(dst: seq<Byte>, p: nat, done: seq<Byte>, q: seq<Byte>)
    requires p + 4 <= |dst| && |q| == 4 && dst[..p] == done && dst[p..p + 4] == q
    ensures dst[..p + 4] == done + q
  {
  }

  /** The last group of a string that is not a multiple of three long. */
  method PutLast(dst: array<Byte>, p: nat, src: seq<Byte>, i: nat)
    requires i < |src| <= i + 2 && p + 4 <= dst.Length
    modifies dst
    ensures dst[..p] == old(dst[..p]) && dst[p..p + 4] == Encode(src[i..]) && dst[p + 4..] == old(dst[p + 4..])
  {
    hide EncMap, Encode;
    var c1 := src[i];
    var c2 := if i + 1 < |src| then src[i + 1] else 0;
    LastQuad(src[i..], c1, c2);
    dst[p], dst[p + 1] := EncMap(c1 / 4), EncMap(c1 % 4 * 16 + c2 / 16);
    dst[p + 2] := if i + 1 < |src| then EncMap(c2 % 16 * 4) else PAD;
    dst[p + 3] := PAD;
  }

  method PutQuad(dst: array<Byte>, p: nat, a: Byte, b: Byte, c: Byte)
    requires p + 4 <= dst.Length
    modifies dst
    ensures dst[..p] == old(dst[..p]) && dst[p..p + 4] == Quad(a, b, c) && dst[p + 4..] == old(dst[p + 4..])
  {
    hide EncMap;
    dst[p], dst[p + 1] := EncMap(a / 4), EncMap(a % 4 * 16 + b / 16);
    dst[p + 2], dst[p + 3] := EncMap(b % 16 * 4 + c / 64), EncMap(c % 64);
  }

  lemma LastQuad(rest: seq<Byte>, c1: Byte, c2: Byte)
    requires 1 <= |rest| <= 2 && c1 == rest[0] && c2 == SecondOf(rest)
    ensures Encode(rest) ==
      [EncMap(c1 / 4), EncMap(c1 % 4 * 16 + c2 / 16), if |rest| == 2 then EncMap(c2 % 16 * 4) else PAD, PAD]
  {
    hide EncMap;
  }

  // ---- decoding ----

  /** The first pass: validity, characters and padding. */
  method FirstPass(src: seq<Byte>) returns (valid: bool, n: nat, j: nat)
    ensures Scan(src, 0, 0) == if valid then Accepted(n, j) else Invalid
  {
    hide DecMap, Spaces, Scan;
    var i := 0;
    n, j := 0, 0;
    assert src[0..] == src;
    while i < |src|
      invariant 0 <= i <= |src|
      invariant Scan(src, 0, 0) == Scan(src[i..], n, j)
      decreases |src| - i
    {
      ghost var from := i;
      var x := 0;
      SpacesFrom(src, i);
      while i < |src| && src[i] == SPACE
        invariant from <= i <= |src| && x == i - from
        invariant Spaces(src[from..]) == x + Spaces(src[i..])
        decreases |src| - i
      {
        SpacesFrom(src, i);
        i := i + 1;
        x := x + 1;
      }
      ScanFrom(src, from, i, n, j);
      if i == |src| {
        return true, n, j;
      }
      if |src| - i >= 2 && src[i] == CR && src[i + 1] == LF {
        i := i + 1;
        continue;
      }
      if src[i] == LF {
        i := i + 1;
        continue;
      }
      if x != 0 {
        return false, n, j;
      }
      if src[i] == PAD {
        j := j + 1;
        if j > 2 {
          return false, n, j;
        }
      }
      if DecMap(src[i]) == 127 {
        return false, n, j;
      }
      if DecMap(src[i]) < 64 && j != 0 {
        return false, n, j;
      }
      n := n + 1;
      i := i + 1;
    }
    assert src[i..] == [];
    NoneLeft(n, j);
    return true, n, j;
  }

  /** What the scan does with the first character behind the spaces from from on. */
  lemma ScanFrom(src: seq<Byte>, from: nat, i: nat, n: nat, j: nat)
    requires from <= i <= |src| && Spaces(src[from..]) == i - from + Spaces(src[i..])
    requires i < |src| ==> src[i] != SPACE
    ensures Scan(src[from..], n, j) ==
      if i == |src| then Accepted(n, j)
      else if (|src| - i >= 2 && src[i] == CR && src[i + 1] == LF) || src[i] == LF then Scan(src[i + 1..], n, j)
      else if i != from then Invalid
      else
        var j1 := if src[i] == PAD then j + 1 else j;
        if j1 > 2 || DecMap(src[i]) == 127 || (DecMap(src[i]) < 64 && j1 != 0) then Invalid
          else Scan(src[i + 1..], n + 1, j1)
  {
    hide DecMap;
    SpacesFrom(src, i);
    assert src[from..][i - from..] == src[i..];
    assert i < |src| ==> src[i..][1..] == src[i + 1..];
  }

  lemma NoneLeft(n: nat, j: nat)
    ensures Scan([], n, j) == Accepted(n, j)
  {
  }

  lemma SpacesFrom(src: seq<Byte>, i: nat)
    requires i <= |src|
    ensures Spaces(src[i..]) == if i < |src| && src[i] == SPACE then 1 + Spaces(src[i + 1..]) else 0
  {
    if i < |src| { assert src[i..][1..] == src[i + 1..]; }
  }

  /** The accumulator after the given characters: earlier bits leave at the top. */
  function Accumulated(c: seq<Byte>): nat {
    if c == [] then 0 else (Accumulated(c[..|c| - 1]) * 64 + Sextet(c[|c| - 1])) % 0x1_0000_0000
  }

  /** Its low 24 bits are the last four characters. */
  lemma LastFour(c: seq<Byte>, q: seq<Byte>)
    requires |q| == 4
    ensures Accumulated(c + q) % 0x100_0000 == Value(q[0], q[1], q[2], q[3])
  {
    hide DecMap, Accumulated, Sextet;
    var x0 := Accumulated(c);
    AccumulateOne(c, q[..1], q[0]);
    AccumulateOne(c + q[..1], q[1..2], q[1]);
    AccumulateOne(c + q[..2], q[2..3], q[2]);
    AccumulateOne(c + q[..3], q[3..4], q[3]);
    assert c + q[..1] + q[1..2] == c + q[..2] && c + q[..2] + q[2..3] == c + q[..3] && c + q[..3] + q[3..4] == c + q;
    Shifted(x0, Sextet(q[0]), Sextet(q[1]), Sextet(q[2]), Sextet(q[3]));
  }

  lemma AccumulateOne(c: seq<Byte>, q: seq<Byte>, b: Byte)
    requires q == [b]
    ensures Accumulated(c + q) == (Accumulated(c) * 64 + Sextet(b)) % 0x1_0000_0000
  {
    assert (c + q)[..|c|] == c;
  }

  lemma Shifted(x: nat, a: nat, b: nat, c: nat, d: nat)
    requires a < 64 && b < 64 && c < 64 && d < 64
    ensures var x1 := (x * 64 + a) % 0x1_0000_0000; var x2 := (x1 * 64 + b) % 0x1_0000_0000;
      var x3 := (x2 * 64 + c) % 0x1_0000_0000; var x4 := (x3 * 64 + d) % 0x1_0000_0000;
      x4 % 0x100_0000 == a * 0x4_0000 + b * 0x1000 + c * 0x40 + d
  {
    var x1 := (x * 64 + a) % 0x1_0000_0000;
    var x2 := (x1 * 64 + b) % 0x1_0000_0000;
    var x3 := (x2 * 64 + c) % 0x1_0000_0000;
    Shift6(x, a);
    Shift12(x1, a, b);
    Shift18(x2, a * 0x40 + b, c);
    Shift24(x3, a * 0x1000 + b * 0x40 + c, d);
  }

  /** y == q * 2^32 + r, and 2^32 is a multiple of each of the smaller powers. */
  lemma Shift6(x: nat, d: nat)
    requires d < 64
    ensures (x * 64 + d) % 0x1_0000_0000 % 0x40 == d
  {
    var q := (x * 64 + d) / 0x1_0000_0000;
    Low6((x * 64 + d) % 0x1_0000_0000, x - q * 0x400_0000, d);
  }

  lemma Shift12(x: nat, v: nat, d: nat)
    requires x % 0x40 == v && d < 64
    ensures (x * 64 + d) % 0x1_0000_0000 % 0x1000 == v * 64 + d
  {
    var q := (x * 64 + d) / 0x1_0000_0000;
    Low12((x * 64 + d) % 0x1_0000_0000, x / 0x40 - q * 0x10_0000, v * 64 + d);
  }

  lemma Shift18(x: nat, v: nat, d: nat)
    requires x % 0x1000 == v && d < 64
    ensures (x * 64 + d) % 0x1_0000_0000 % 0x4_0000 == v * 64 + d
  {
    var q := (x * 64 + d) / 0x1_0000_0000;
    Low18((x * 64 + d) % 0x1_0000_0000, x / 0x1000 - q * 0x4000, v * 64 + d);
  }

  lemma Shift24(x: nat, v: nat, d: nat)
    requires x % 0x4_0000 == v && d < 64
    ensures (x * 64 + d) % 0x1_0000_0000 % 0x100_0000 == v * 64 + d
  {
    var q := (x * 64 + d) / 0x1_0000_0000;
    Low24((x * 64 + d) % 0x1_0000_0000, x / 0x4_0000 - q * 0x100, v * 64 + d);
  }

  lemma Low6(r: nat, k: int, m: nat)
    requires r == k * 0x40 + m && m < 0x40
    ensures r % 0x40 == m
  {
  }

  lemma Low12(r: nat, k: int, m: nat)
    requires r == k * 0x1000 + m && m < 0x1000
    ensures r % 0x1000 == m
  {
  }

  lemma Low18(r: nat, k: int, m: nat)
    requires r == k * 0x4_0000 + m && m < 0x4_0000
    ensures r % 0x4_0000 == m
  {
  }

  lemma Low24(r: nat, k: int, m: nat)
    requires r == k * 0x100_0000 + m && m < 0x100_0000
    ensures r % 0x100_0000 == m
  {
  }

  // ---- the second pass ----

  lemma StripAppend(src: seq<Byte>, i: nat)
    requires i < |src|
    ensures if Skipped(src[i]) then Strip(src[..i + 1]) == Strip(src[..i])
      else Strip(src[..i + 1]) == Strip(src[..i]) + [src[i]]
  {
    assert src[..i + 1] == src[..i] + [src[i]];
    StripSplit(src[..i], [src[i]]);
    assert [src[i]][1..] == [];
  }

  lemma {:induction false} StripSplit(a: seq<Byte>, b: seq<Byte>)
    ensures Strip(a + b) == Strip(a) + Strip(b)
  {
    hide Skipped;
    if a == [] {
      assert a + b == b;
    } else {
      StripSplit(a[1..], b);
      assert (a + b)[1..] == a[1..] + b;
      var first := if Skipped(a[0]) then [] else [a[0]];
      assert first + (Strip(a[1..]) + Strip(b)) == first + Strip(a[1..]) + Strip(b);
    }
  }

  /** Groups of a whole number of fours, and of what follows. */
  lemma {:induction false} GroupsSplit(a: seq<Byte>, b: seq<Byte>, j: int)
    requires |a| % 4 == 0
    ensures Groups(a + b, j) == Groups(a, j) + Groups(b, j - Pads(a))
    decreases |a|
  {
    hide Triple, Value, Pads, Groups, Clamp;
    if a == [] {
      assert a + b == b;
      NoPads();
      FewerThanFour(a, j);
    } else {
      GroupsCons(a, j);
      GroupsCons(a + b, j);
      GroupsSplit(a[4..], b, j - Pads(a[..4]));
      assert (a + b)[..4] == a[..4] && (a + b)[4..] == a[4..] + b;
      assert a == a[..4] + a[4..];
      PadsSplit(a[..4], a[4..]);
    }
  }

  lemma GroupsCons(c: seq<Byte>, j: int)
    requires |c| >= 4
    ensures var j1 := j - Pads(c[..4]);
      Groups(c, j) == Triple(Value(c[0], c[1], c[2], c[3]))[..Clamp(j1)] + Groups(c[4..], j1)
  {
  }

  lemma FewerThanFour(c: seq<Byte>, j: int)
    requires |c| < 4
    ensures Groups(c, j) == []
  {
  }

  lemma NoPads()
    ensures Pads([]) == 0
  {
  }

  /** The characters read so far: whole groups and the beginning of the next one. */
  ghost predicate Progress(c: seq<Byte>, n: nat, x: nat, j: int, out: seq<Byte>) {
    n == |c| % 4 && x == Accumulated(c) && j == 3 - Pads(c) && out == Groups(c[..|c| - n], 3)
  }

  /** One more character, without or with the completion of a group. */
  lemma OneMore(c: seq<Byte>, b: Byte, n: nat, x: nat, j: int, out: seq<Byte>)
    requires Progress(c, n, x, j, out)
    ensures var x1 := (x * 64 + Sextet(b)) % 0x1_0000_0000; var j1 := j - (if DecMap(b) == 64 then 1 else 0);
      if n + 1 == 4 then Progress(c + [b], 0, x1, j1, out + Triple(x1)[..Clamp(j1)])
      else Progress(c + [b], n + 1, x1, j1, out)
  {
    hide DecMap, Triple, Groups, Pads, Accumulated, Sextet, Clamp;
    AccumulateOne(c, [b], b);
    PadsSplit(c, [b]);
    PadsOne(b);
    var c1 := c + [b];
    if n + 1 == 4 {
      var whole := c[..|c| - 3];
      assert c1[..|whole|] == whole && c1[..|c1|] == c1;
      FullGroup(c1, whole);
    } else {
      assert c1[..|c1| - (n + 1)] == c[..|c| - n];
    }
  }

  /** The accumulator holds the group that the last four characters complete. */
  lemma FullGroup(c: seq<Byte>, whole: seq<Byte>)
    requires |c| == |whole| + 4 && |whole| % 4 == 0 && whole == c[..|whole|]
    ensures Groups(c, 3) == Groups(whole, 3) + Triple(Accumulated(c))[..Clamp(3 - Pads(c))]
  {
    hide DecMap, Triple, Groups, Pads, Accumulated, Value, Clamp;
    var q := c[|whole|..];
    assert c == whole + q;
    GroupsSplit(whole, q, 3);
    LastFour(whole, q);
    TripleLow(Accumulated(c));
    PadsSplit(whole, q);
    OneGroup(q, 3 - Pads(whole));
  }

  lemma PadsOne(b: Byte)
    ensures Pads([b]) == if DecMap(b) == 64 then 1 else 0
  {
    assert [b][1..] == [];
  }

  /** Only the low 24 bits are written. */
  lemma TripleLow(x: nat)
    ensures Triple(x) == Triple(x % 0x100_0000)
  {
    TripleParts(x, x / 0x100_0000, x % 0x100_0000);
  }

  lemma TripleParts(x: nat, h: nat, l: nat)
    requires x == h * 0x100_0000 + l && l < 0x100_0000
    ensures Triple(x) == Triple(l)
  {
    Div16(x, h, l);
    Div8(x, h, l);
    Low8(x / 0x1_0000, h, l / 0x1_0000);
    Low8(l / 0x1_0000, 0, l / 0x1_0000);
    Low8(x / 0x100, h * 0x100 + l / 0x1_0000, l / 0x100 % 0x100);
    Low8(x, h * 0x1_0000 + l / 0x100, l % 0x100);
  }

  lemma Div16(x: nat, h: nat, l: nat)
    requires x == h * 0x100_0000 + l && l < 0x100_0000
    ensures x / 0x1_0000 == h * 0x100 + l / 0x1_0000 && l / 0x1_0000 < 0x100
  {
  }

  lemma Div8(x: nat, h: nat, l: nat)
    requires x == h * 0x100_0000 + l && l < 0x100_0000
    ensures x / 0x100 == h * 0x1_0000 + l / 0x100
    ensures l / 0x100 == l / 0x1_0000 * 0x100 + l / 0x100 % 0x100
  {
  }

  lemma Low8(r: nat, k: int, m: nat)
    requires r == k * 0x100 + m && m < 0x100
    ensures r % 0x100 == m
  {
  }

  lemma OneGroup(q: seq<Byte>, j: int)
    requires |q| == 4
    ensures Groups(q, j) == Triple(Value(q[0], q[1], q[2], q[3]))[..Clamp(j - Pads(q))]
  {
    assert q[..4] == q && q[4..] == [];
  }

  /** What has been written never exceeds what will be. */
  lemma WrittenFits(src: seq<Byte>, i: nat)
    requires i <= |src|
    ensures var c := Strip(src[..i]); |Groups(c[..|c| - |c| % 4], 3)| <= |Groups(Strip(src), 3)|
  {
    hide Groups, Pads;
    var c := Strip(src[..i]);
    var whole := c[..|c| - |c| % 4];
    assert src == src[..i] + src[i..];
    StripSplit(src[..i], src[i..]);
    assert Strip(src) == whole + (c[|whole|..] + Strip(src[i..]));
    GroupsSplit(whole, c[|whole|..] + Strip(src[i..]), 3);
  }

  /** The second pass. */
  method SecondPass(dst: array<Byte>, src: seq<Byte>) returns (p: nat)
    requires |Groups(Strip(src), 3)| <= dst.Length
    modifies dst
    ensures p == |Groups(Strip(src), 3)| && dst[..p] == Groups(Strip(src), 3) && dst[p..] == old(dst[p..])
  {
    hide Strip, Groups, Accumulated, Pads, DecMap, Triple;
    var j: int, n: nat, x: nat, i := 3, 0, 0, 0;
    p := 0;
    ProgressStart(src);
    while i < |src|
      invariant 0 <= i <= |src| && p <= dst.Length && n < 4
      invariant Progress(Strip(src[..i]), n, x, j, dst[..p])
      invariant dst[p..] == old(dst[p..])
    {
      var c := src[i];
      StripAppend(src, i);
      if !(c == CR || c == LF || c == SPACE) {
        OneMore(Strip(src[..i]), c, n, x, j, dst[..p]);
        WrittenFits(src, i + 1);
        j := j - (if DecMap(c) == 64 then 1 else 0);
        x := (x * 64 + Sextet(c)) % 0x1_0000_0000;
        n := n + 1;
        if n == 4 {
          n := 0;
          p := PutTriple(dst, p, x, j);
        }
      }
      i := i + 1;
    }
    assert src[..i] == src;
    ProgressEnd(Strip(src), n, x, j, dst[..p]);
  }

  lemma ProgressStart(src: seq<Byte>)
    ensures Progress(Strip(src[..0]), 0, 0, 3, [])
  {
  }

  lemma ProgressEnd(c: seq<Byte>, n: nat, x: nat, j: int, out: seq<Byte>)
    requires Progress(c, n, x, j, out)
    ensures out == Groups(c, 3)
  {
    hide Groups, Pads, Accumulated;
    var whole := c[..|c| - n];
    assert c == whole + c[|whole|..];
    GroupsSplit(whole, c[|whole|..], 3);
    FewerThanFour(c[|whole|..], 3 - Pads(whole));
  }

  /** As many of the three bytes as there is no padding for. */
  method PutTriple(dst: array<Byte>, p: nat, x: nat, j: int) returns (q: nat)
    requires p + Clamp(j) <= dst.Length
    modifies dst
    ensures q == p + Clamp(j) && dst[..q] == old(dst[..p]) + Triple(x)[..Clamp(j)] && dst[q..] == old(dst[q..])
  {
    q := p;
    if j > 0 {
      dst[q] := x / 0x1_0000 % 0x100;
      q := q + 1;
    }
    if j > 1 {
      dst[q] := x / 0x100 % 0x100;
      q := q + 1;
    }
    if j > 2 {
      dst[q] := x % 0x100;
      q := q + 1;
    }
  }

  /** A buffer that passes the check against the announced length has room for what will be
      written: always so while 6n + 7 does not wrap (OutputFits), and otherwise only if the
      buffer happens to be large enough. */
  ghost predicate HasRoom(src: seq<Byte>, length: nat) {
    Scan(src, 0, 0).Accepted? && Announced(Scan(src, 0, 0).n, Scan(src, 0, 0).pads) <= length ==>
      |Groups(Strip(src), 3)| <= length
  }

  /** mbedtls_base64_decode. */
  method DecodeBuffer(dst: array?<Byte>, src: seq<Byte>) returns (error: int, olen: nat)
    requires |src| <= SIZE_MAX && (dst != null ==> dst.Length <= SIZE_MAX && HasRoom(src, dst.Length))
    modifies if dst == null then {} else {dst}
    ensures match Scan(src, 0, 0)
      case Invalid => error == ERR_INVALID_CHARACTER
      case Accepted(n, j) =>
        if n == 0 then error == OK && olen == 0
        else if dst == null || dst.Length < Announced(n, j) then error == ERR_BUFFER_TOO_SMALL
          && olen == Announced(n, j)
        else
          && error == OK && olen <= dst.Length && Decode(src) == Bytes(dst[..olen]) && dst[olen..] == old(dst[olen..])
          && (n * 6 + 7 < 0x1_0000_0000 ==> olen <= Announced(n, j))
    ensures error != OK && dst != null ==> dst[..] == old(dst[..])
  {
    hide Scan, Strip, Groups;
    var valid, n, j := FirstPass(src);
    if !valid {
      return ERR_INVALID_CHARACTER, 0;
    }
    if n * 6 + 7 < 0x1_0000_0000 { OutputFits(src); }
    if n == 0 {
      return OK, 0;
    }
    n := SizeT(SizeT(n * 6) + 7) / 8;
    n := SizeT(n - j);
    if dst == null || dst.Length < n {
      return ERR_BUFFER_TOO_SMALL, n;
    }
    olen := SecondPass(dst, src);
    return OK, olen;
  }
}
