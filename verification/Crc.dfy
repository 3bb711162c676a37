/** Table CRC against bitwise CRC: mz_crc32 of miniz.c, four bytes to a turn, and
    cmnMuxCRC32b of extCmnUtils.c, a bit at a time. */
module Crc {
  import opened CrcTable

  function Xor(a: Word, b: Word): Word {
    a ^ b
  }

  function Low8(crc: Word): Word {
    crc & 0xff
  }

  function High24(crc: Word): Word {
    crc >> 8
  }

  function Not(crc: Word): Word {
    !crc
  }

  /** The bitwise CRC register after the given bytes. */
  function Register(crc: Word, m: seq<Word>): Word {
    if m == [] then crc else ByteSteps(Xor(Register(crc, m[..|m| - 1]), m[|m| - 1]))
  }

  /** What a plain char yields as an unsigned int: negative chars extend their sign. */
  function CharValue(b: bv8, signedChar: bool): Word {
    if signedChar && b >= 0x80 then (b as Word) | 0xffff_ff00 else b as Word
  }

  function Chars(m: seq<bv8>, signedChar: bool): (r: seq<Word>)
    ensures |r| == |m|
  {
    seq(|m|, i requires 0 <= i < |m| => CharValue(m[i], signedChar))
  }

  function Octets(m: seq<bv8>): seq<Word> {
    Chars(m, false)
  }

  // ---- one table step is eight bit steps ----

  function Half(h: Word): Word {
    h >> 1
  }

  predicate Odd(h: Word) {
    h & 1 == 1
  }

  /** The mask of the loop body is all ones exactly if the low bit is set: a step divides
      by the polynomial. */
  lemma BitStepDivides(crc: Word)
    ensures BitStep(crc) == if Odd(crc) then Xor(Half(crc), POLYNOMIAL) else Half(crc)
  {
    var mask := 0 - (crc & 1);
    if Odd(crc) {
      assert mask == 0xffff_ffff;
    } else {
      LowBit(crc);
      assert mask == 0;
    }
  }

  lemma LowBit(crc: Word)
    ensures crc & 1 == 0 || crc & 1 == 1
  {
  }

  lemma XorHalves(a: Word, b: Word)
    ensures Half(Xor(a, b)) == Xor(Half(a), Half(b)) && Odd(Xor(a, b)) == (Odd(a) != Odd(b))
  {
  }

  lemma XorAssociates(a: Word, b: Word, c: Word)
    ensures Xor(Xor(a, b), c) == Xor(a, Xor(b, c))
  {
  }

  lemma XorCommutes(a: Word, b: Word)
    ensures Xor(a, b) == Xor(b, a)
  {
  }

  lemma XorSelf(a: Word, p: Word)
    ensures Xor(Xor(a, p), p) == a
  {
  }

  /** p may move between the operands, and cancels if it is on both. */
  lemma XorLaws(a: Word, b: Word, p: Word)
    ensures Xor(Xor(a, b), p) == Xor(Xor(a, p), b) == Xor(a, Xor(b, p))
    ensures Xor(a, b) == Xor(Xor(a, p), Xor(b, p))
  {
    hide Xor;
    XorAssociates(a, b, p);
    XorAssociates(a, p, b);
    XorCommutes(b, p);
    XorAssociates(Xor(a, p), b, p);
    XorSelf(Xor(a, b), p);
  }

  /** A bit step is linear over exclusive or. */
  lemma BitStepLinear(a: Word, b: Word)
    ensures BitStep(Xor(a, b)) == Xor(BitStep(a), BitStep(b))
  {
    hide BitStep, Xor, Half, Odd;
    BitStepDivides(a);
    BitStepDivides(b);
    BitStepDivides(Xor(a, b));
    XorHalves(a, b);
    XorLaws(Half(a), Half(b), POLYNOMIAL);
  }

  lemma ByteStepsLinear(a: Word, b: Word)
    ensures ByteSteps(Xor(a, b)) == Xor(ByteSteps(a), ByteSteps(b))
  {
    hide BitStep, Xor;
    BitStepLinear(a, b);
    var (a1, b1) := (BitStep(a), BitStep(b));
    BitStepLinear(a1, b1);
    var (a2, b2) := (BitStep(a1), BitStep(b1));
    BitStepLinear(a2, b2);
    var (a3, b3) := (BitStep(a2), BitStep(b2));
    BitStepLinear(a3, b3);
    var (a4, b4) := (BitStep(a3), BitStep(b3));
    BitStepLinear(a4, b4);
    var (a5, b5) := (BitStep(a4), BitStep(b4));
    BitStepLinear(a5, b5);
    var (a6, b6) := (BitStep(a5), BitStep(b5));
    BitStepLinear(a6, b6);
    BitStepLinear(BitStep(a6), BitStep(b6));
  }

  predicate Clear(h: Word, mask: Word) {
    h & mask == 0
  }

  lemma EvenStep(h: Word, mask: Word)
    requires Clear(h, mask) && Odd(mask)
    ensures BitStep(h) == Half(h) && Clear(Half(h), Half(mask))
  {
    hide BitStep;
    BitStepDivides(h);
    EvenHalf(h, mask);
  }

  lemma EvenHalf(h: Word, mask: Word)
    requires Clear(h, mask) && Odd(mask)
    ensures !Odd(h) && Clear(Half(h), Half(mask))
  {
  }

  lemma EightHalves(h: Word)
    ensures Half(Half(Half(Half(Half(Half(Half(Half(h)))))))) == High24(h)
  {
  }

  lemma Masks()
    ensures Odd(0xff) && Odd(0x7f) && Odd(0x3f) && Odd(0x1f) && Odd(0x0f) && Odd(0x07) && Odd(0x03) && Odd(0x01)
    ensures Half(0xff) == 0x7f && Half(0x7f) == 0x3f && Half(0x3f) == 0x1f && Half(0x1f) == 0x0f
    ensures Half(0x0f) == 0x07 && Half(0x07) == 0x03 && Half(0x03) == 0x01
  {
  }

  /** Eight steps over eight zero bits only shift. */
  lemma HighSteps(h: Word)
    requires Clear(h, 0xff)
    ensures ByteSteps(h) == High24(h)
  {
    hide BitStep, Half, Odd, Clear, High24;
    Masks();
    EvenStep(h, 0xff);
    var h1 := Half(h);
    EvenStep(h1, 0x7f);
    var h2 := Half(h1);
    EvenStep(h2, 0x3f);
    var h3 := Half(h2);
    EvenStep(h3, 0x1f);
    var h4 := Half(h3);
    EvenStep(h4, 0x0f);
    var h5 := Half(h4);
    EvenStep(h5, 0x07);
    var h6 := Half(h5);
    EvenStep(h6, 0x03);
    EvenStep(Half(h6), 0x01);
    EightHalves(h);
  }

  lemma Halves(x: Word)
    ensures Xor(x & 0xffff_ff00, Low8(x)) == x && Clear(x & 0xffff_ff00, 0xff) && High24(x & 0xffff_ff00) == High24(x)
  {
  }

  /** Only the low byte needs a table: the rest of the register just shifts. */
  lemma HighPart(x: Word)
    ensures ByteSteps(x) == Xor(High24(x), ByteSteps(Low8(x)))
  {
    hide ByteSteps, Xor, Low8, High24, Clear;
    Halves(x);
    ByteStepsLinear(x & 0xffff_ff00, Low8(x));
    HighSteps(x & 0xffff_ff00);
  }

  lemma LowIndex(x: Word)
    ensures Low8(x) < 0x100
  {
  }

  lemma SmallIndex(x: Word)
    requires x < 0x100
    ensures x as nat < 256
  {
  }

  lemma SameIndex(x: Word)
    ensures (x as nat) as Word == x
  {
  }

  lemma OctetShifts(crc: Word, b: Word)
    requires b < 0x100
    ensures High24(Xor(crc, b)) == High24(crc)
  {
  }

  function TableStep(crc: Word, b: Word): Word {
    var low := Low8(Xor(crc, b));
    LowIndex(Xor(crc, b));
    SmallIndex(low);
    Xor(High24(crc), Entry(low as nat))
  }

  lemma EntryOf(low: Word)
    requires low < 0x100
    ensures low as nat < 256 && Entry(low as nat) == ByteSteps(low)
  {
    hide ByteSteps, Entry;
    SmallIndex(low);
    SameIndex(low);
    EntryIsByteSteps(low as nat);
  }

  lemma TableStepIsByteSteps(crc: Word, b: Word)
    requires b < 0x100
    ensures TableStep(crc, b) == ByteSteps(Xor(crc, b))
  {
    hide ByteSteps, Entry, Xor, Low8, High24;
    LowIndex(Xor(crc, b));
    EntryOf(Low8(Xor(crc, b)));
    HighPart(Xor(crc, b));
    OctetShifts(crc, b);
  }

  lemma OctetStep(crc: Word, m: seq<bv8>, k: nat)
    requires k < |m|
    ensures Register(crc, Octets(m)[..k + 1]) == TableStep(Register(crc, Octets(m)[..k]), m[k] as Word)
  {
    hide ByteSteps, TableStep, Xor;
    var octets := Octets(m);
    assert octets[..k + 1][..k] == octets[..k];
    Octet(m[k]);
    TableStepIsByteSteps(Register(crc, octets[..k]), m[k] as Word);
  }

  lemma Octet(b: bv8)
    ensures b as Word < 0x100
  {
  }

  lemma FourOctets(crc: Word, m: seq<bv8>, k: nat)
    requires k + 4 <= |m|
    ensures Register(crc, Octets(m)[..k + 4]) ==
      TableStep(TableStep(TableStep(TableStep(Register(crc, Octets(m)[..k]), m[k] as Word), m[k + 1] as Word),
        m[k + 2] as Word), m[k + 3] as Word)
  {
    hide Register, TableStep, CharValue;
    OctetStep(crc, m, k);
    OctetStep(crc, m, k + 1);
    OctetStep(crc, m, k + 2);
    OctetStep(crc, m, k + 3);
  }

  // ---- the two programs ----

  /** mz_crc32. */
  method MzCrc32(crc: Word, buf: seq<bv8>) returns (r: Word)
    ensures r == Not(Register(Xor(crc, 0xffff_ffff), Octets(buf)))
  {
    hide TableStep, Register, CharValue, Xor, Not;
    var crc32 := Xor(crc, 0xffff_ffff);
    ghost var start := crc32;
    var at := 0;
    EmptyRegister(start, Octets(buf));
    while |buf| - at >= 4
      invariant 0 <= at <= |buf|
      invariant crc32 == Register(start, Octets(buf)[..at])
    {
      FourOctets(start, buf, at);
      crc32 := TableStep(crc32, buf[at] as Word);
      crc32 := TableStep(crc32, buf[at + 1] as Word);
      crc32 := TableStep(crc32, buf[at + 2] as Word);
      crc32 := TableStep(crc32, buf[at + 3] as Word);
      at := at + 4;
    }
    while at < |buf|
      invariant 0 <= at <= |buf|
      invariant crc32 == Register(start, Octets(buf)[..at])
    {
      OctetStep(start, buf, at);
      crc32 := TableStep(crc32, buf[at] as Word);
      at := at + 1;
    }
    assert Octets(buf)[..at] == Octets(buf);
    return Not(crc32);
  }

  lemma EmptyRegister(crc: Word, m: seq<Word>)
    ensures Register(crc, m[..0]) == crc
  {
  }

  function Repeat(crc: Word, n: nat): Word {
    if n == 0 then crc else BitStep(Repeat(crc, n - 1))
  }

  /** cmnMuxCRC32b. */
  method CmnMuxCrc32b(message: seq<bv8>, signedChar: bool) returns (r: Word)
    ensures r == Not(Register(0xffff_ffff, Chars(message, signedChar)))
  {
    hide Register, CharValue, BitStep, Xor, Not, ByteSteps;
    var crc: Word := 0xffff_ffff;
    var i := 0;
    ghost var chars := Chars(message, signedChar);
    EmptyRegister(crc, chars);
    while i < |message|
      invariant 0 <= i <= |message|
      invariant crc == Register(0xffff_ffff, chars[..i])
    {
      var byte := CharValue(message[i], signedChar);
      crc := Xor(crc, byte);
      ghost var start := crc;
      var j := 7;
      while j >= 0
        invariant -1 <= j <= 7
        invariant crc == Repeat(start, 7 - j)
      {
        crc := BitTurn(crc);
        j := j - 1;
      }
      EightTurns(start);
      RegisterStep(0xffff_ffff, chars, i);
      i := i + 1;
    }
    assert chars[..i] == chars;
    return Not(crc);
  }

  /** The body of the inner loop. */
  method BitTurn(crc: Word) returns (r: Word)
    ensures r == BitStep(crc)
  {
    var mask := 0 - (crc & 1);
    r := (crc >> 1) ^ (POLYNOMIAL & mask);
  }

  lemma EightTurns(crc: Word)
    ensures Repeat(crc, 8) == ByteSteps(crc)
  {
    hide BitStep;
    assert Repeat(crc, 1) == BitStep(Repeat(crc, 0));
    assert Repeat(crc, 2) == BitStep(Repeat(crc, 1));
    assert Repeat(crc, 3) == BitStep(Repeat(crc, 2));
    assert Repeat(crc, 4) == BitStep(Repeat(crc, 3));
    assert Repeat(crc, 5) == BitStep(Repeat(crc, 4));
    assert Repeat(crc, 6) == BitStep(Repeat(crc, 5));
    assert Repeat(crc, 7) == BitStep(Repeat(crc, 6));
    assert Repeat(crc, 8) == BitStep(Repeat(crc, 7));
  }

  lemma RegisterStep(crc: Word, m: seq<Word>, k: nat)
    requires k < |m|
    ensures Register(crc, m[..k + 1]) == ByteSteps(Xor(Register(crc, m[..k]), m[k]))
  {
    hide ByteSteps, Xor;
    assert m[..k + 1][..k] == m[..k];
  }

  // ---- equality, and where it ends ----

  /** The table form equals the bitwise form for every message whose characters read the
      same as bytes: all of them where char is unsigned, those below 128 where it is not. */
  lemma TableEqualsBitwise(m: seq<bv8>, signedChar: bool)
    requires signedChar ==> forall b :: b in m ==> b < 0x80
    ensures Not(Register(Xor(0, 0xffff_ffff), Octets(m))) == Not(Register(0xffff_ffff, Chars(m, signedChar)))
  {
    hide Register, ByteSteps, Not;
    AllOnes();
    if signedChar { LowSame(m); }
  }

  lemma AllOnes()
    ensures Xor(0, 0xffff_ffff) == 0xffff_ffff
  {
  }

  lemma BitStepInjective(a: Word, b: Word)
    requires BitStep(a) == BitStep(b)
    ensures a == b
  {
  }

  lemma ByteStepsInjective(a: Word, b: Word)
    requires ByteSteps(a) == ByteSteps(b)
    ensures a == b
  {
    hide BitStep;
    forall x, y | BitStep(x) == BitStep(y) ensures x == y {
      BitStepInjective(x, y);
    }
  }

  /** Splitting a message splits the computation. */
  lemma {:induction false} RegisterSplit(crc: Word, a: seq<Word>, b: seq<Word>)
    ensures Register(crc, a + b) == Register(Register(crc, a), b)
  {
    hide ByteSteps, Xor;
    if b == [] {
      assert a + b == a;
    } else {
      RegisterSplit(crc, a, b[..|b| - 1]);
      assert (a + b)[..|a + b| - 1] == a + b[..|b| - 1];
    }
  }

  /** mz_crc32 composes: continuing from the result for a over b gives that for a + b. */
  lemma CrcComposes(a: seq<bv8>, b: seq<bv8>, crc: Word)
    ensures var first := Not(Register(Xor(crc, 0xffff_ffff), Octets(a)));
      Not(Register(Xor(first, 0xffff_ffff), Octets(b))) == Not(Register(Xor(crc, 0xffff_ffff), Octets(a + b)))
  {
    hide Register, CharValue, Xor, Not;
    var start := Xor(crc, 0xffff_ffff);
    NotTwice(Register(start, Octets(a)));
    RegisterSplit(start, Octets(a), Octets(b));
    assert Octets(a) + Octets(b) == Octets(a + b);
  }

  lemma NotTwice(r: Word)
    ensures Xor(Not(r), 0xffff_ffff) == r
  {
  }

  lemma LowSame(a: seq<bv8>)
    requires forall x :: x in a ==> x < 0x80
    ensures Chars(a, true) == Octets(a)
  {
    forall i | 0 <= i < |a| ensures CharValue(a[i], true) == CharValue(a[i], false) {
      assert a[i] in a;
    }
  }

  // ---- the check value ----

  /** The characters 1 to 9. */
  const DIGITS: seq<bv8> := [0x31, 0x32, 0x33, 0x34, 0x35, 0x36, 0x37, 0x38, 0x39]

  lemma FirstDigits()
    ensures ByteSteps(Xor(0xffff_ffff, 0x31)) == 0x7c23_1048
    ensures ByteSteps(Xor(0x7c23_1048, 0x32)) == 0xb0ac_bb32
    ensures ByteSteps(Xor(0xb0ac_bb32, 0x33)) == 0x77b7_9c2d
    ensures ByteSteps(Xor(0x77b7_9c2d, 0x34)) == 0x641c_1f5c
    ensures ByteSteps(Xor(0x641c_1f5c, 0x35)) == 0x340a_c5e3
  {
  }

  lemma LastDigits()
    ensures ByteSteps(Xor(0x340a_c5e3, 0x36)) == 0xf68d_2c9e
    ensures ByteSteps(Xor(0xf68d_2c9e, 0x37)) == 0xaffc_9660
    ensures ByteSteps(Xor(0xaffc_9660, 0x38)) == 0x651f_2550
    ensures ByteSteps(Xor(0x651f_2550, 0x39)) == 0x340b_c6d9
  {
  }

  /** Both forms give the published check value of CRC-32. */
  lemma CheckValue()
    ensures Not(Register(Xor(0, 0xffff_ffff), Octets(DIGITS))) == 0xcbf4_3926
    ensures Not(Register(0xffff_ffff, Chars(DIGITS, true))) == 0xcbf4_3926
  {
    hide Register, ByteSteps, Xor, Chars;
    AllOnes();
    FirstDigits();
    LastDigits();
    var chars := Octets(DIGITS);
    DigitsRead();
    EmptyRegister(0xffff_ffff, chars);
    RegisterStep(0xffff_ffff, chars, 0);
    RegisterStep(0xffff_ffff, chars, 1);
    RegisterStep(0xffff_ffff, chars, 2);
    RegisterStep(0xffff_ffff, chars, 3);
    RegisterStep(0xffff_ffff, chars, 4);
    RegisterStep(0xffff_ffff, chars, 5);
    RegisterStep(0xffff_ffff, chars, 6);
    RegisterStep(0xffff_ffff, chars, 7);
    RegisterStep(0xffff_ffff, chars, 8);
    assert chars[..9] == chars;
    TableEqualsBitwise(DIGITS, true);
  }

  lemma DigitsRead()
    ensures Octets(DIGITS) == [0x31, 0x32, 0x33, 0x34, 0x35, 0x36, 0x37, 0x38, 0x39]
    ensures forall b :: b in DIGITS ==> b < 0x80
  {
  }
}
