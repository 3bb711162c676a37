/** mz_adler32 of miniz.c: sums in 32 bits with one reduction per block of 5552 bytes. */
module Adler {
  newtype Uint32 = x: int | 0 <= x < 0x1_0000_0000
  newtype Uint8 = x: int | 0 <= x < 256

  /** The unreduced sums after the given bytes. */
  datatype Sums = Sums(s1: nat, s2: nat)

  function Add(s: Sums, m: seq<Uint8>): Sums {
    if m == [] then s
    else
      var before := Add(s, m[..|m| - 1]);
      var s1 := before.s1 + m[|m| - 1] as nat;
      Sums(s1, before.s2 + s1)
  }

  /** The recurrence of section 8.2 of RFC 1950, reduced at every byte. */
  function Adler(s: Sums, m: seq<Uint8>): Sums {
    if m == [] then s
    else
      var before := Adler(s, m[..|m| - 1]);
      var s1 := (before.s1 + m[|m| - 1] as nat) % 65521;
      Sums(s1, (before.s2 + s1) % 65521)
  }

  function Reduce(s: Sums): Sums {
    Sums(s.s1 % 65521, s.s2 % 65521)
  }

  /** ( s2 << 16 ) + s1 and back. */
  function Pack(s: Sums): nat {
    s.s2 * 0x1_0000 + s.s1
  }

  function Unpack(adler: nat): Sums {
    Sums(adler % 0x1_0000, adler / 0x1_0000)
  }

  // ---- no sum overflows ----

  /** 1 + 2 + ... + n. */
  function Triangle(n: nat): nat {
    if n == 0 then 0 else Triangle(n - 1) + n
  }

  lemma {:induction false} TriangleGrows(m: nat, n: nat)
    requires m <= n
    ensures Triangle(m) <= Triangle(n)
    decreases n
  {
    if m < n {
      TriangleGrows(m, n - 1);
    }
  }

  lemma {:induction false} TriangleIs(n: nat)
    ensures 2 * Triangle(n) == n * (n + 1)
  {
    if n > 0 {
      TriangleIs(n - 1);
      assert n * (n + 1) == (n - 1) * n + 2 * n;
    }
  }

  lemma {:induction false} AddBounded(s: Sums, m: seq<Uint8>)
    requires s.s1 <= 65535 && s.s2 <= 65535
    ensures var r := Add(s, m);
      r.s1 <= 65535 + 255 * |m| && r.s2 <= 65535 + 65535 * |m| + 255 * Triangle(|m|)
  {
    if m != [] {
      AddBounded(s, m[..|m| - 1]);
    }
  }

  /** Over a block of at most 5552 bytes both sums fit in 32 bits, from any 16-bit halves. */
  lemma BlockFits(s: Sums, m: seq<Uint8>)
    requires s.s1 <= 65535 && s.s2 <= 65535 && |m| <= 5552
    ensures Add(s, m).s1 < 0x1_0000_0000 && Add(s, m).s2 < 0x1_0000_0000
  {
    AddBounded(s, m);
    TriangleGrows(|m|, 5552);
    TriangleIs(5552);
  }

  // ---- delayed reduction ----

  /** Reducing once at the end of a block gives what reducing at every byte gives. */
  lemma {:induction false} DelayedReduction(s: Sums, m: seq<Uint8>)
    ensures Reduce(Add(s, m)) == Adler(Reduce(s), m)
  {
    if m != [] {
      var front, b := m[..|m| - 1], m[|m| - 1] as nat;
      DelayedReduction(s, front);
      var sums := Add(s, front);
      ModSum(sums.s1, b);
      ModSum(sums.s2, sums.s1 + b);
      ModRight(sums.s2 % 65521, sums.s1 + b);
    }
  }

  lemma ModSum(x: nat, y: nat)
    ensures (x % 65521 + y) % 65521 == (x + y) % 65521
  {
  }

  lemma ModRight(x: nat, y: nat)
    ensures (x + y % 65521) % 65521 == (x + y) % 65521
  {
  }

  lemma {:induction false} AdlerSplit(s: Sums, a: seq<Uint8>, b: seq<Uint8>)
    ensures Adler(s, a + b) == Adler(Adler(s, a), b)
  {
    if b == [] {
      assert a + b == a;
    } else {
      AdlerSplit(s, a, b[..|b| - 1]);
      assert (a + b)[..|a + b| - 1] == a + b[..|b| - 1];
    }
  }

  lemma {:induction false} AdlerReduced(s: Sums, m: seq<Uint8>)
    requires s.s1 < 65521 && s.s2 < 65521
    ensures Adler(s, m).s1 < 65521 && Adler(s, m).s2 < 65521
  {
    if m != [] {
      AdlerReduced(s, m[..|m| - 1]);
    }
  }

  /** What mz_adler32 returns: an empty buffer leaves even an unreduced sum as it is. */
  function Result(adler: nat, m: seq<Uint8>): nat {
    if m == [] then adler else Pack(Adler(Reduce(Unpack(adler)), m))
  }

  lemma UnpackPack(s: Sums)
    requires s.s1 < 65521 && s.s2 < 65521
    ensures Unpack(Pack(s)) == s && Reduce(s) == s && Pack(s) < 0x1_0000_0000
  {
  }

  lemma PackUnpack(adler: nat)
    requires adler < 0x1_0000_0000
    ensures Pack(Unpack(adler)) == adler && Unpack(adler).s1 <= 65535 && Unpack(adler).s2 <= 65535
  {
  }

  /** mz_adler32 composes: continuing from the result for a over b gives that for a + b. */
  lemma AdlerComposes(adler: nat, a: seq<Uint8>, b: seq<Uint8>)
    ensures Result(Result(adler, a), b) == Result(adler, a + b)
  {
    if a == [] {
      assert a + b == b;
    } else if b == [] {
      assert a + b == a;
    } else {
      var s := Reduce(Unpack(adler));
      AdlerReduced(s, a);
      UnpackPack(Adler(s, a));
      AdlerSplit(s, a, b);
    }
  }

  // ---- the program ----

  lemma AddOne(s: Sums, m: seq<Uint8>, from: nat, k: nat)
    requires from <= k < |m|
    ensures Add(s, m[from..k + 1]) ==
      Sums(Add(s, m[from..k]).s1 + m[k] as nat, Add(s, m[from..k]).s2 + Add(s, m[from..k]).s1 + m[k] as nat)
  {
    assert m[from..k + 1][..k - from] == m[from..k];
  }

  /** The sums after one more byte; s, from and at say which sums these are. */
  method AddByte(s1: Uint32, s2: Uint32, b: Uint8, ghost s: Sums, ghost m: seq<Uint8>, ghost from: nat, ghost at: nat)
      returns (t1: Uint32, t2: Uint32)
    requires s.s1 <= 65535 && s.s2 <= 65535 && from <= at < |m| && at < from + 5552 && b == m[at]
    requires Add(s, m[from..at]) == Sums(s1 as nat, s2 as nat)
    ensures Add(s, m[from..at + 1]) == Sums(t1 as nat, t2 as nat)
  {
    AddOne(s, m, from, at);
    BlockFits(s, m[from..at + 1]);
    t1 := s1 + b as Uint32;
    t2 := s2 + t1;
  }

  /** The two inner loops: eight bytes to a turn, then the rest of the block. */
  method SumBlock(t1: Uint32, t2: Uint32, m: seq<Uint8>, at: nat, blockLen: nat) returns (s1: Uint32, s2: Uint32)
    requires t1 as nat <= 65535 && t2 as nat <= 65535 && at + blockLen <= |m| && blockLen <= 5552
    ensures Add(Sums(t1 as nat, t2 as nat), m[at..at + blockLen]) == Sums(s1 as nat, s2 as nat)
  {
    hide Add;
    ghost var s := Sums(t1 as nat, t2 as nat);
    s1, s2 := t1, t2;
    var i := 0;
    AddNothing(s, m, at);
    while i + 7 < blockLen
      invariant 0 <= i <= blockLen
      invariant Add(s, m[at..at + i]) == Sums(s1 as nat, s2 as nat)
    {
      s1, s2 := AddByte(s1, s2, m[at + i], s, m, at, at + i);
      s1, s2 := AddByte(s1, s2, m[at + i + 1], s, m, at, at + i + 1);
      s1, s2 := AddByte(s1, s2, m[at + i + 2], s, m, at, at + i + 2);
      s1, s2 := AddByte(s1, s2, m[at + i + 3], s, m, at, at + i + 3);
      s1, s2 := AddByte(s1, s2, m[at + i + 4], s, m, at, at + i + 4);
      s1, s2 := AddByte(s1, s2, m[at + i + 5], s, m, at, at + i + 5);
      s1, s2 := AddByte(s1, s2, m[at + i + 6], s, m, at, at + i + 6);
      s1, s2 := AddByte(s1, s2, m[at + i + 7], s, m, at, at + i + 7);
      i := i + 8;
    }
    while i < blockLen
      invariant 0 <= i <= blockLen
      invariant Add(s, m[at..at + i]) == Sums(s1 as nat, s2 as nat)
    {
      s1, s2 := AddByte(s1, s2, m[at + i], s, m, at, at + i);
      i := i + 1;
    }
  }

  lemma AddNothing(s: Sums, m: seq<Uint8>, at: nat)
    requires at <= |m|
    ensures Add(s, m[at..at + 0]) == s
  {
  }

  /** The sums of the first at bytes, reduced, carried on over one more block. */
  lemma NextBlock(start: Sums, s: Sums, m: seq<Uint8>, at: nat, blockLen: nat)
    requires at + blockLen <= |m|
    requires if at == 0 then Reduce(s) == Reduce(start) else s == Adler(Reduce(start), m[..at])
    ensures Reduce(Add(s, m[at..at + blockLen])) == Adler(Reduce(start), m[..at + blockLen])
  {
    hide Add, Adler, Reduce;
    var block := m[at..at + blockLen];
    DelayedReduction(s, block);
    assert m[..at] + block == m[..at + blockLen];
    AdlerSplit(Reduce(start), m[..at], block);
    if at == 0 {
      AdlerNothing(Reduce(start), m);
    } else {
      ReduceStays(start, m[..at]);
    }
  }

  lemma AdlerNothing(s: Sums, m: seq<Uint8>)
    ensures Adler(s, m[..0]) == s
  {
  }

  lemma ReduceStays(start: Sums, m: seq<Uint8>)
    ensures Reduce(Adler(Reduce(start), m)) == Adler(Reduce(start), m)
  {
    AdlerReduced(Reduce(start), m);
  }

  lemma UnpackIs(adler: Uint32)
    ensures Unpack(adler as nat) == Sums((adler % 0x1_0000) as nat, (adler / 0x1_0000) as nat)
  {
  }

  lemma ReduceIs(s1: Uint32, s2: Uint32)
    ensures Reduce(Sums(s1 as nat, s2 as nat)) == Sums((s1 % 65521) as nat, (s2 % 65521) as nat)
  {
  }

  lemma ResultIs(adler: Uint32, s1: Uint32, s2: Uint32, m: seq<Uint8>)
    requires s1 as nat <= 65535 && s2 as nat <= 65535
    requires Sums(s1 as nat, s2 as nat) == if m == [] then Unpack(adler as nat)
      else Adler(Reduce(Unpack(adler as nat)), m)
    ensures (s2 * 0x1_0000 + s1) as nat == Result(adler as nat, m)
  {
    PackUnpack(adler as nat);
  }

  /** mz_adler32; null stands for a null pointer. */
  method MzAdler32(adler: Uint32, ptr: array?<Uint8>) returns (r: Uint32)
    ensures r as nat == if ptr == null then 1 else Result(adler as nat, ptr[..])
  {
    hide Add, Adler, Reduce, Unpack, Result;
    if ptr == null {
      return 1;
    }
    var m := ptr[..];
    ghost var start := Unpack(adler as nat);
    PackUnpack(adler as nat);
    var s1, s2 := adler % 0x1_0000, adler / 0x1_0000;
    UnpackIs(adler);
    var at, left := 0, |m|;
    var blockLen := left % 5552;
    ghost var reduced := false;
    while left > 0
      invariant 0 <= left && at + left == |m| && (left > 0 ==> blockLen <= left)
      invariant blockLen == if !reduced then left % 5552 else 5552
      invariant reduced ==> left % 5552 == 0 && m != []
      invariant !reduced ==> at == 0 && Sums(s1 as nat, s2 as nat) == start
      invariant reduced ==> Sums(s1 as nat, s2 as nat) == Adler(Reduce(start), m[..at])
      invariant reduced && at == 0 ==> Reduce(Sums(s1 as nat, s2 as nat)) == Reduce(start)
      invariant s1 as nat <= 65535 && s2 as nat <= 65535
      decreases left, !reduced
    {
      ghost var s := Sums(s1 as nat, s2 as nat);
      s1, s2 := SumBlock(s1, s2, m, at, blockLen);
      NextBlock(start, s, m, at, blockLen);
      ReduceIs(s1, s2);
      s1, s2 := s1 % 65521, s2 % 65521;
      if at + blockLen == 0 {
        ReduceStays(start, m[..0]);
        AdlerNothing(Reduce(start), m);
      }
      at := at + blockLen;
      left := left - blockLen;
      blockLen := 5552;
      reduced := true;
    }
    assert m[..at] == m;
    ResultIs(adler, s1, s2, m);
    return s2 * 0x1_0000 + s1;
  }

  // ---- a published value ----

  lemma AdlerNext(s: Sums, m: seq<Uint8>, k: nat)
    requires k < |m|
    ensures var before := Adler(s, m[..k]);
      var s1 := (before.s1 + m[k] as nat) % 65521;
      Adler(s, m[..k + 1]) == Sums(s1, (before.s2 + s1) % 65521)
  {
    assert m[..k + 1][..k] == m[..k];
  }

  /** The characters of Wikipedia. */
  const WIKIPEDIA: seq<Uint8> := [87, 105, 107, 105, 112, 101, 100, 105, 97]

  lemma SumsOfWikipedia()
    ensures Adler(Sums(1, 0), WIKIPEDIA) == Sums(920, 4582)
  {
    hide Adler;
    var s := Sums(1, 0);
    AdlerNothing(s, WIKIPEDIA);
    AdlerNext(s, WIKIPEDIA, 0);
    assert Adler(s, WIKIPEDIA[..1]) == Sums(88, 88);
    AdlerNext(s, WIKIPEDIA, 1);
    assert Adler(s, WIKIPEDIA[..2]) == Sums(193, 281);
    AdlerNext(s, WIKIPEDIA, 2);
    assert Adler(s, WIKIPEDIA[..3]) == Sums(300, 581);
    AdlerNext(s, WIKIPEDIA, 3);
    assert Adler(s, WIKIPEDIA[..4]) == Sums(405, 986);
    AdlerNext(s, WIKIPEDIA, 4);
    assert Adler(s, WIKIPEDIA[..5]) == Sums(517, 1503);
    AdlerNext(s, WIKIPEDIA, 5);
    assert Adler(s, WIKIPEDIA[..6]) == Sums(618, 2121);
    AdlerNext(s, WIKIPEDIA, 6);
    assert Adler(s, WIKIPEDIA[..7]) == Sums(718, 2839);
    AdlerNext(s, WIKIPEDIA, 7);
    assert Adler(s, WIKIPEDIA[..8]) == Sums(823, 3662);
    AdlerNext(s, WIKIPEDIA, 8);
    assert Adler(s, WIKIPEDIA[..9]) == Sums(920, 4582);
    assert WIKIPEDIA[..9] == WIKIPEDIA;
  }

  /** The sum of Wikipedia from the initial value 1. */
  lemma CheckValue()
    ensures Result(1, WIKIPEDIA) == 0x11e6_0398
  {
    hide Adler;
    SumsOfWikipedia();
    UnpackIs(1);
    assert Reduce(Sums(1, 0)) == Sums(1, 0);
  }
}
