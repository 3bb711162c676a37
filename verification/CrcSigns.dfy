/** Where plain char is signed the bitwise CRC reads bytes of 128 or more with their sign
    extended. What that does to the sum, exactly. */
module CrcSigns {
  import opened CrcTable
  import opened Crc

  /** What sign extension adds to a byte. */
  const SIGN: Word := 0xffff_ff00

  /** e as it stands in the register k bytes later. */
  function Shifted(e: Word, k: nat): Word
    decreases k
  {
    if k == 0 then e else Shifted(ByteSteps(e), k - 1)
  }

  /** The extended signs of the bytes from i on, each shifted to the end of the message,
      added up without carry. */
  function SignSum(m: seq<bv8>, i: nat): Word
    requires i <= |m|
    decreases |m| - i
  {
    if i == |m| then 0 else Xor(if m[i] >= 0x80 then Shifted(SIGN, |m| - i) else 0, SignSum(m, i + 1))
  }

  lemma {:induction false} ShiftedLinear(a: Word, b: Word, k: nat)
    ensures Shifted(Xor(a, b), k) == Xor(Shifted(a, k), Shifted(b, k))
    decreases k
  {
    hide ByteSteps, Xor;
    if k > 0 {
      ByteStepsLinear(a, b);
      ShiftedLinear(ByteSteps(a), ByteSteps(b), k - 1);
    }
  }

  lemma ZeroStays()
    ensures ByteSteps(0) == 0
  {
  }

  lemma {:induction false} ShiftedZero(e: Word, k: nat)
    ensures Shifted(e, k) == 0 <==> e == 0
    decreases k
  {
    hide ByteSteps;
    if k > 0 {
      ZeroStays();
      if ByteSteps(e) == 0 { ByteStepsInjective(e, 0); }
      ShiftedZero(ByteSteps(e), k - 1);
    }
  }

  lemma XorWithZero(a: Word)
    ensures Xor(a, 0) == a == Xor(0, a)
  {
  }

  lemma XorToZero(a: Word, b: Word)
    ensures Xor(a, b) == 0 <==> a == b
  {
    hide Xor;
    XorSelf(a, b);
    XorSelf(0, a);
    XorWithZero(a);
    XorWithZero(b);
  }

  /** Reading a byte as signed adds the extended sign. */
  lemma CharSign(b: bv8)
    ensures Xor(CharValue(b, false), CharValue(b, true)) == if b >= 0x80 then SIGN else 0
  {
  }

  lemma XorRegroups(a: Word, b: Word, c: Word, d: Word)
    ensures Xor(Xor(a, b), Xor(c, d)) == Xor(Xor(a, c), Xor(b, d))
  {
    hide Xor;
    XorAssociates(Xor(a, b), c, d);
    XorAssociates(Xor(a, c), b, d);
    XorLaws(a, b, c);
  }

  /** From registers c and d, the two readings of the bytes from i on end up this far apart. */
  lemma {:induction false} ReadingsDiffer(m: seq<bv8>, i: nat, c: Word, d: Word)
    requires i <= |m|
    ensures Xor(Register(c, Octets(m)[i..]), Register(d, Chars(m, true)[i..]))
      == Xor(Shifted(Xor(c, d), |m| - i), SignSum(m, i))
    decreases |m| - i
  {
    hide ByteSteps, Xor, Register, CharValue;
    if i == |m| {
      EmptyRegister(c, Octets(m)[i..]);
      EmptyRegister(d, Chars(m, true)[i..]);
      assert Octets(m)[i..] == Octets(m)[i..][..0] && Chars(m, true)[i..] == Chars(m, true)[i..][..0];
      XorWithZero(Xor(c, d));
    } else {
      var (x, y) := (CharValue(m[i], false), CharValue(m[i], true));
      FirstByte(c, Octets(m), i);
      FirstByte(d, Chars(m, true), i);
      ReadingsDiffer(m, i + 1, ByteSteps(Xor(c, x)), ByteSteps(Xor(d, y)));
      ByteStepsLinear(Xor(c, x), Xor(d, y));
      XorRegroups(c, x, d, y);
      CharSign(m[i]);
      OneMoreByte(Xor(c, d), Xor(x, y), |m| - i, SignSum(m, i + 1));
      if m[i] < 0x80 { ShiftedZero(0, |m| - i); }
    }
  }

  lemma FirstByte(c: Word, m: seq<Word>, i: nat)
    requires i < |m|
    ensures Register(c, m[i..]) == Register(ByteSteps(Xor(c, m[i])), m[i + 1..])
  {
    hide ByteSteps, Xor, Register;
    assert m[i..] == [m[i]] + m[i + 1..];
    RegisterSplit(c, [m[i]], m[i + 1..]);
    RegisterStep(c, [m[i]], 0);
    EmptyRegister(c, [m[i]]);
    assert [m[i]][..1] == [m[i]];
  }

  lemma OneMoreByte(c: Word, e: Word, k: nat, rest: Word)
    requires k > 0
    ensures Xor(Shifted(ByteSteps(Xor(c, e)), k - 1), rest) == Xor(Shifted(c, k), Xor(Shifted(e, k), rest))
  {
    hide ByteSteps, Xor;
    ShiftedLinear(c, e, k);
    XorAssociates(Shifted(c, k), Shifted(e, k), rest);
  }

  /** The two readings of a message get sums that differ by exactly its extended signs, so
      they agree if and only if these cancel. */
  lemma SumsAgreeExactly(m: seq<bv8>)
    ensures Xor(Register(0xffff_ffff, Octets(m)), Register(0xffff_ffff, Chars(m, true))) == SignSum(m, 0)
    ensures Not(Register(0xffff_ffff, Octets(m))) == Not(Register(0xffff_ffff, Chars(m, true))) <==> SignSum(m, 0) == 0
  {
    hide Register, Xor, CharValue, SignSum;
    var (a, b) := (Register(0xffff_ffff, Octets(m)), Register(0xffff_ffff, Chars(m, true)));
    ReadingsDiffer(m, 0, 0xffff_ffff, 0xffff_ffff);
    assert Octets(m)[0..] == Octets(m) && Chars(m, true)[0..] == Chars(m, true);
    XorToZero(0xffff_ffff, 0xffff_ffff);
    ShiftedZero(0, |m|);
    XorWithZero(SignSum(m, 0));
    XorToZero(a, b);
    NotInjective(a, b);
  }

  lemma NotInjective(a: Word, b: Word)
    ensures Not(a) == Not(b) <==> a == b
  {
  }

  // ---- one such byte, and fifteen ----

  /** Exactly one byte of 128 or more always changes the sum. */
  lemma OneSignDiffers(m: seq<bv8>, k: nat)
    requires k < |m| && forall i :: 0 <= i < |m| ==> (m[i] >= 0x80 <==> i == k)
    ensures Not(Register(0xffff_ffff, Octets(m))) != Not(Register(0xffff_ffff, Chars(m, true)))
  {
    hide Register, Chars, Xor, Not;
    SumsAgreeExactly(m);
    OneSignSum(m, 0, k);
    ShiftedZero(SIGN, |m| - k);
  }

  lemma {:induction false} OneSignSum(m: seq<bv8>, i: nat, k: nat)
    requires i <= |m| && k < |m| && forall j :: 0 <= j < |m| ==> (m[j] >= 0x80 <==> j == k)
    ensures SignSum(m, i) == if i <= k then Shifted(SIGN, |m| - k) else 0
    decreases |m| - i
  {
    hide Xor, Shifted;
    if i < |m| {
      OneSignSum(m, i + 1, k);
      XorWithZero(SignSum(m, i + 1));
      XorWithZero(Shifted(SIGN, |m| - k));
    }
  }

  lemma {:induction false} ShiftedNext(e: Word, k: nat)
    ensures Shifted(e, k + 1) == ByteSteps(Shifted(e, k))
    decreases k
  {
    hide ByteSteps;
    if k > 0 { ShiftedNext(ByteSteps(e), k - 1); }
  }

  lemma NextSign(k: nat, e: Word, next: Word)
    requires Shifted(SIGN, k) == e && ByteSteps(e) == next
    ensures Shifted(SIGN, k + 1) == next
  {
    hide ByteSteps;
    ShiftedNext(SIGN, k);
  }

  lemma SignsTo11()
    ensures Shifted(SIGN, 1) == 0x00ff_ffff
    ensures Shifted(SIGN, 2) == 0x2d02_1072
    ensures Shifted(SIGN, 3) == 0xbe26_1200
    ensures Shifted(SIGN, 5) == 0xf3b9_cf6e
    ensures Shifted(SIGN, 6) == 0xaaf9_f590
    ensures Shifted(SIGN, 8) == 0xbc96_2670
    ensures Shifted(SIGN, 9) == 0x50b9_e71a
    ensures Shifted(SIGN, 11) == 0x8e43_ddb9
  {
    assert Shifted(SIGN, 0) == SIGN;
    NextSign(0, 0xffff_ff00, 0x00ff_ffff);
    NextSign(1, 0x00ff_ffff, 0x2d02_1072);
    NextSign(2, 0x2d02_1072, 0xbe26_1200);
    NextSign(3, 0xbe26_1200, 0x00be_2612);
    NextSign(4, 0x00be_2612, 0xf3b9_cf6e);
    NextSign(5, 0xf3b9_cf6e, 0xaaf9_f590);
    NextSign(6, 0xaaf9_f590, 0xf0a5_6ab1);
    NextSign(7, 0xf0a5_6ab1, 0xbc96_2670);
    NextSign(8, 0xbc96_2670, 0x50b9_e71a);
    NextSign(9, 0x50b9_e71a, 0xfd32_409d);
    NextSign(10, 0xfd32_409d, 0x8e43_ddb9);
  }

  lemma SignsTo22()
    requires Shifted(SIGN, 11) == 0x8e43_ddb9
    ensures Shifted(SIGN, 12) == 0xb233_48f5
    ensures Shifted(SIGN, 13) == 0xcd65_35db
    ensures Shifted(SIGN, 17) == 0x2eaa_380c
    ensures Shifted(SIGN, 22) == 0x2f87_ecd5
  {
    NextSign(11, 0x8e43_ddb9, 0xb233_48f5);
    NextSign(12, 0xb233_48f5, 0xcd65_35db);
    NextSign(13, 0xcd65_35db, 0x11cc_6e69);
    NextSign(14, 0x11cc_6e69, 0x347f_1592);
    NextSign(15, 0x347f_1592, 0x1e35_8d7d);
    NextSign(16, 0x1e35_8d7d, 0x2eaa_380c);
    NextSign(17, 0x2eaa_380c, 0x0998_e613);
    NextSign(18, 0x0998_e613, 0x84b7_d938);
    NextSign(19, 0x84b7_d938, 0x2886_0f47);
    NextSign(20, 0x2886_0f47, 0xe890_523c);
    NextSign(21, 0xe890_523c, 0x2f87_ecd5);
  }

  lemma SignsTo33()
    requires Shifted(SIGN, 22) == 0x2f87_ecd5
    ensures Shifted(SIGN, 23) == 0xf696_a1b7
    ensures Shifted(SIGN, 24) == 0x55f3_b08e
    ensures Shifted(SIGN, 27) == 0x2bda_3bc1
    ensures Shifted(SIGN, 33) == 0x71b4_b47a
  {
    NextSign(22, 0x2f87_ecd5, 0xf696_a1b7);
    NextSign(23, 0xf696_a1b7, 0x55f3_b08e);
    NextSign(24, 0x55f3_b08e, 0x0a55_5d97);
    NextSign(25, 0x0a55_5d97, 0x6e61_53ba);
    NextSign(26, 0x6e61_53ba, 0x2bda_3bc1);
    NextSign(27, 0x2bda_3bc1, 0xec48_281d);
    NextSign(28, 0xec48_281d, 0x63ea_24f1);
    NextSign(29, 0x63ea_24f1, 0xcad9_28ae);
    NextSign(30, 0xcad9_28ae, 0x31a4_57c7);
    NextSign(31, 0x31a4_57c7, 0x0531_f344);
    NextSign(32, 0x0531_f344, 0x71b4_b47a);
  }

  /** Signs at fifteen of thirty-three places, those of the polynomial itself. */
  predicate SignAt(i: nat) {
    i in {0, 6, 9, 10, 16, 20, 21, 22, 24, 25, 27, 28, 30, 31, 32}
  }

  function Cancelling(): (m: seq<bv8>)
    ensures |m| == 33
  {
    seq(33, (i: nat) => if SignAt(i) then 0x80 else 0x41)
  }

  /** Adding the sign of byte i, or nothing. */
  lemma AddSign(i: nat, sum: Word, next: Word)
    requires i < 33 && SignSum(Cancelling(), i + 1) == sum
    requires next == if SignAt(i) then Xor(Shifted(SIGN, 33 - i), sum) else sum
    ensures SignSum(Cancelling(), i) == next
  {
    hide Shifted, Xor, SignAt;
    XorWithZero(sum);
  }

  lemma NoSignLeft()
    ensures SignSum(Cancelling(), 33) == 0
  {
  }

  lemma LastSigns()
    requires Shifted(SIGN, 1) == 0x00ff_ffff
    requires Shifted(SIGN, 2) == 0x2d02_1072
    requires Shifted(SIGN, 3) == 0xbe26_1200
    requires Shifted(SIGN, 5) == 0xf3b9_cf6e
    requires Shifted(SIGN, 6) == 0xaaf9_f590
    requires Shifted(SIGN, 8) == 0xbc96_2670
    requires Shifted(SIGN, 9) == 0x50b9_e71a
    requires Shifted(SIGN, 11) == 0x8e43_ddb9
    ensures SignSum(Cancelling(), 22) == 0xa8f7_dba0
  {
    hide Shifted, SignSum, Cancelling;
    NoSignLeft();
    AddSign(32, 0x0000_0000, 0x00ff_ffff);
    AddSign(31, 0x00ff_ffff, 0x2dfd_ef8d);
    AddSign(30, 0x2dfd_ef8d, 0x93db_fd8d);
    AddSign(29, 0x93db_fd8d, 0x93db_fd8d);
    AddSign(28, 0x93db_fd8d, 0x6062_32e3);
    AddSign(27, 0x6062_32e3, 0xca9b_c773);
    AddSign(26, 0xca9b_c773, 0xca9b_c773);
    AddSign(25, 0xca9b_c773, 0x760d_e103);
    AddSign(24, 0x760d_e103, 0x26b4_0619);
    AddSign(23, 0x26b4_0619, 0x26b4_0619);
    AddSign(22, 0x26b4_0619, 0xa8f7_dba0);
  }

  lemma MiddleSigns()
    requires Shifted(SIGN, 12) == 0xb233_48f5
    requires Shifted(SIGN, 13) == 0xcd65_35db
    requires Shifted(SIGN, 17) == 0x2eaa_380c
    requires SignSum(Cancelling(), 22) == 0xa8f7_dba0
    ensures SignSum(Cancelling(), 11) == 0xf90b_9e82
  {
    hide Shifted, SignSum, Cancelling;
    AddSign(21, 0xa8f7_dba0, 0x1ac4_9355);
    AddSign(20, 0x1ac4_9355, 0xd7a1_a68e);
    AddSign(19, 0xd7a1_a68e, 0xd7a1_a68e);
    AddSign(18, 0xd7a1_a68e, 0xd7a1_a68e);
    AddSign(17, 0xd7a1_a68e, 0xd7a1_a68e);
    AddSign(16, 0xd7a1_a68e, 0xf90b_9e82);
    AddSign(15, 0xf90b_9e82, 0xf90b_9e82);
    AddSign(14, 0xf90b_9e82, 0xf90b_9e82);
    AddSign(13, 0xf90b_9e82, 0xf90b_9e82);
    AddSign(12, 0xf90b_9e82, 0xf90b_9e82);
    AddSign(11, 0xf90b_9e82, 0xf90b_9e82);
  }

  lemma FirstSigns()
    requires Shifted(SIGN, 23) == 0xf696_a1b7
    requires Shifted(SIGN, 24) == 0x55f3_b08e
    requires Shifted(SIGN, 27) == 0x2bda_3bc1
    requires Shifted(SIGN, 33) == 0x71b4_b47a
    requires SignSum(Cancelling(), 11) == 0xf90b_9e82
    ensures SignSum(Cancelling(), 0) == 0x0000_0000
  {
    hide Shifted, SignSum, Cancelling;
    AddSign(10, 0xf90b_9e82, 0x0f9d_3f35);
    AddSign(9, 0x0f9d_3f35, 0x5a6e_8fbb);
    AddSign(8, 0x5a6e_8fbb, 0x5a6e_8fbb);
    AddSign(7, 0x5a6e_8fbb, 0x5a6e_8fbb);
    AddSign(6, 0x5a6e_8fbb, 0x71b4_b47a);
    AddSign(5, 0x71b4_b47a, 0x71b4_b47a);
    AddSign(4, 0x71b4_b47a, 0x71b4_b47a);
    AddSign(3, 0x71b4_b47a, 0x71b4_b47a);
    AddSign(2, 0x71b4_b47a, 0x71b4_b47a);
    AddSign(1, 0x71b4_b47a, 0x71b4_b47a);
    AddSign(0, 0x71b4_b47a, 0x0000_0000);
  }

  /** So with several such bytes the sums can agree after all: here is a message of which
      fifteen bytes are 128 and both forms give the same sum. */
  lemma SignsCanCancel()
    ensures Cancelling()[0] == 0x80
    ensures Not(Register(0xffff_ffff, Octets(Cancelling()))) == Not(Register(0xffff_ffff, Chars(Cancelling(), true)))
  {
    hide Register, Chars, Xor, Not, SignSum, Shifted;
    SignsTo11();
    SignsTo22();
    SignsTo33();
    LastSigns();
    MiddleSigns();
    FirstSigns();
    SumsAgreeExactly(Cancelling());
  }
}
