/** The text format of base64.c: what is encoded, what is accepted and what it decodes to. */
module Base64Model {
  import opened Common

  const LF: Byte := 10
  const CR: Byte := 13
  const SPACE: Byte := 32
  const PAD: Byte := 61

  /** base64_enc_map: the alphabet of section 5.2 of RFC 1521. */
  function EncMap(v: nat): Byte
    requires v < 64
  {
    if v < 26 then 65 + v
    else if v < 52 then 71 + v
    else if v < 62 then v - 4
    else if v == 62 then 43
    else 47
  }

  /** base64_dec_map: 64 for the padding character, 127 for every other outsider. */
  function DecMap(c: Byte): nat {
    if 65 <= c <= 90 then c - 65
    else if 97 <= c <= 122 then c - 71
    else if 48 <= c <= 57 then c + 4
    else if c == 43 then 62
    else if c == 47 then 63
    else if c == PAD then 64
    else 127
  }

  lemma DecMapInverse(v: nat, c: Byte)
    ensures v < 64 ==> DecMap(EncMap(v)) == v
    ensures DecMap(c) < 64 ==> EncMap(DecMap(c)) == c
  {
  }

  // ---- encoding ----

  function Quad(a: Byte, b: Byte, c: Byte): (q: seq<Byte>)
    ensures |q| == 4
  {
    [EncMap(a / 4), EncMap(a % 4 * 16 + b / 16), EncMap(b % 16 * 4 + c / 64), EncMap(c % 64)]
  }

  function Encode(s: seq<Byte>): seq<Byte> {
    if s == [] then []
    else if |s| == 1 then Quad(s[0], 0, 0)[..2] + [PAD, PAD]
    else if |s| == 2 then Quad(s[0], s[1], 0)[..3] + [PAD]
    else Quad(s[0], s[1], s[2]) + Encode(s[3..])
  }

  lemma {:induction false} EncodeLength(s: seq<Byte>)
    ensures |Encode(s)| == (|s| / 3 + (if |s| % 3 != 0 then 1 else 0)) * 4
  {
    hide Quad;
    if |s| >= 3 {
      EncodeLength(s[3..]);
      Thirds(|s|);
    } else {
      Few(|s|);
    }
  }

  lemma Thirds(n: nat)
    requires n >= 3
    ensures n / 3 == (n - 3) / 3 + 1 && n % 3 == (n - 3) % 3
  {
  }

  lemma Few(n: nat)
    requires n < 3
    ensures n / 3 == 0 && n % 3 == n
  {
  }

  // ---- the first pass of decoding ----

  datatype Scanned = Accepted(n: nat, pads: nat) | Invalid

  function Spaces(src: seq<Byte>): (k: nat)
    ensures k <= |src| && (k < |src| ==> src[k] != SPACE)
  {
    if src == [] || src[0] != SPACE then 0 else 1 + Spaces(src[1..])
  }

  /** n characters and j padding characters have been counted before src. */
  function Scan(src: seq<Byte>, n: nat, j: nat): Scanned
    decreases |src|
  {
    var k := Spaces(src);
    var r := src[k..];
    if r == [] then Accepted(n, j)
    else if (|r| >= 2 && r[0] == CR && r[1] == LF) || r[0] == LF then Scan(r[1..], n, j)
    else if k != 0 then Invalid
    else
      var j1 := if r[0] == PAD then j + 1 else j;
      if j1 > 2 || DecMap(r[0]) == 127 || (DecMap(r[0]) < 64 && j1 != 0) then Invalid else Scan(r[1..], n + 1, j1)
  }

  /** A value as a 32-bit size_t. */
  function SizeT(n: int): (s: nat)
    ensures s < 0x1_0000_0000
  {
    n % 0x1_0000_0000
  }

  /** The length the first pass announces. */
  function Announced(n: nat, pads: nat): nat {
    SizeT(SizeT(SizeT(n * 6) + 7) / 8 - pads)
  }

  // ---- the second pass ----

  predicate Skipped(c: Byte) {
    c == CR || c == LF || c == SPACE
  }

  function Strip(src: seq<Byte>): seq<Byte> {
    if src == [] then [] else (if Skipped(src[0]) then [] else [src[0]]) + Strip(src[1..])
  }

  function Pads(c: seq<Byte>): nat {
    if c == [] then 0 else (if DecMap(c[0]) == 64 then 1 else 0) + Pads(c[1..])
  }

  /** base64_dec_map[ c ] & 0x3F. */
  function Sextet(c: Byte): (s: nat)
    ensures s < 64
  {
    DecMap(c) % 64
  }

  function Value(a: Byte, b: Byte, c: Byte, d: Byte): nat {
    Sextet(a) * 0x4_0000 + Sextet(b) * 0x1000 + Sextet(c) * 0x40 + Sextet(d)
  }

  function Triple(v: nat): (t: seq<Byte>)
    ensures |t| == 3
  {
    [v / 0x1_0000 % 0x100, v / 0x100 % 0x100, v % 0x100]
  }

  function Clamp(j: int): nat {
    if j < 0 then 0 else if j > 3 then 3 else j
  }

  /** Every four characters give three bytes, less one for every padding character seen;
      fewer than four at the end give none. */
  function Groups(c: seq<Byte>, j: int): seq<Byte> {
    if |c| < 4 then []
    else
      var j1 := j - Pads(c[..4]);
      Triple(Value(c[0], c[1], c[2], c[3]))[..Clamp(j1)] + Groups(c[4..], j1)
  }

  datatype Decoded = Bytes(bytes: seq<Byte>) | Rejected

  /** mbedtls_base64_decode into a large enough buffer. */
  function Decode(src: seq<Byte>): Decoded {
    if Scan(src, 0, 0).Accepted? then Bytes(Groups(Strip(src), 3)) else Rejected
  }

  // ---- round trip ----

  lemma QuadSextets(a: Byte, b: Byte, c: Byte)
    ensures var q := Quad(a, b, c);
      && DecMap(q[0]) == a / 4 && DecMap(q[1]) == a % 4 * 16 + b / 16
      && DecMap(q[2]) == b % 16 * 4 + c / 64 && DecMap(q[3]) == c % 64
  {
    DecMapInverse(a / 4, 0);
    DecMapInverse(a % 4 * 16 + b / 16, 0);
    DecMapInverse(b % 16 * 4 + c / 64, 0);
    DecMapInverse(c % 64, 0);
  }

  lemma QuadValue(a: Byte, b: Byte, c: Byte)
    ensures var q := Quad(a, b, c); Triple(Value(q[0], q[1], q[2], q[3])) == [a, b, c] && Pads(q) == 0 && Plain(q)
  {
    hide EncMap, DecMap, Pads, Triple, Value;
    var q := Quad(a, b, c);
    QuadSextets(a, b, c);
    PlainPads(q);
    ValueOf(q, a / 4, a % 4 * 16 + b / 16, b % 16 * 4 + c / 64, c % 64);
    Recombine(a, b, c);
    TripleOf(a, b, c);
  }

  /** Characters of the alphabet. */
  predicate Plain(c: seq<Byte>) {
    forall i :: 0 <= i < |c| ==> DecMap(c[i]) < 64
  }

  lemma {:induction false} PlainPads(c: seq<Byte>)
    requires Plain(c)
    ensures Pads(c) == 0
  {
    if c != [] {
      PlainPads(c[1..]);
    }
  }

  lemma ValueOf(q: seq<Byte>, a: nat, b: nat, c: nat, d: nat)
    requires |q| == 4 && a < 64 && b < 64 && c < 64 && d < 64
    requires DecMap(q[0]) == a && DecMap(q[1]) == b && DecMap(q[2]) == c && DecMap(q[3]) == d
    ensures Value(q[0], q[1], q[2], q[3]) == a * 0x4_0000 + b * 0x1000 + c * 0x40 + d
  {
    hide DecMap;
  }

  lemma Recombine(a: Byte, b: Byte, c: Byte)
    ensures a / 4 * 0x4_0000 + (a % 4 * 16 + b / 16) * 0x1000 + (b % 16 * 4 + c / 64) * 0x40 + c % 64
         == a * 0x1_0000 + b * 0x100 + c
  {
    DivMod(a, a / 4, a % 4, b, b / 16, b % 16, c, c / 64, c % 64);
  }

  lemma DivMod(a: nat, a1: nat, a0: nat, b: nat, b1: nat, b0: nat, c: nat, c1: nat, c0: nat)
    requires a == a1 * 4 + a0 && b == b1 * 16 + b0 && c == c1 * 64 + c0
    ensures a1 * 0x4_0000 + (a0 * 16 + b1) * 0x1000 + (b0 * 4 + c1) * 0x40 + c0 == a * 0x1_0000 + b * 0x100 + c
  {
  }

  lemma TripleOf(a: Byte, b: Byte, c: Byte)
    ensures Triple(a * 0x1_0000 + b * 0x100 + c) == [a, b, c]
  {
    var v := a * 0x1_0000 + b * 0x100 + c;
    assert v / 0x1_0000 == a;
    assert v / 0x100 == a * 0x100 + b;
  }
}
