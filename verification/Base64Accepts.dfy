/** Exactly which texts are accepted, and the alphabet and test vectors of RFC 4648. */
module Base64Accepts {
  import opened Common
  import opened Base64Model

  // ---- which texts are accepted ----

  /** Every CR is followed by LF, and every space by the end of a line or of the text, or by
      another space. */
  predicate LinesFormed(src: seq<Byte>) {
    && (forall i :: 0 <= i < |src| && src[i] == CR ==> i + 1 < |src| && src[i + 1] == LF)
    && (forall i :: 0 <= i < |src| && src[i] == SPACE ==> i + 1 == |src| || Skipped(src[i + 1]))
  }

  /** Every other character is of the alphabet or padding. */
  predicate Known(src: seq<Byte>) {
    forall i :: 0 <= i < |src| ==> Skipped(src[i]) || DecMap(src[i]) <= 64
  }

  /** Nothing of the alphabet behind a padding character; padded says that there was one. */
  predicate PadsLast(src: seq<Byte>, padded: bool) {
    && (forall i, k :: 0 <= i < k < |src| && src[i] == PAD ==> Skipped(src[k]) || src[k] == PAD)
    && (padded ==> forall k :: 0 <= k < |src| ==> Skipped(src[k]) || src[k] == PAD)
  }

  /** With j padding characters before it. */
  predicate Formed(src: seq<Byte>, j: nat) {
    LinesFormed(src) && Known(src) && PadsLast(src, j > 0) && j + Pads(src) <= 2
  }

  lemma LinesCons(src: seq<Byte>)
    requires src != []
    ensures LinesFormed(src) <==>
      && LinesFormed(src[1..])
      && (src[0] == CR ==> |src| > 1 && src[1] == LF)
      && (src[0] == SPACE ==> |src| == 1 || Skipped(src[1]))
  {
    var rest := src[1..];
    assert forall i :: 0 <= i < |rest| ==> rest[i] == src[i + 1];
    assert forall i :: 1 <= i < |src| ==> src[i] == rest[i - 1];
  }

  lemma KnownCons(src: seq<Byte>)
    requires src != []
    ensures Known(src) <==> Known(src[1..]) && (Skipped(src[0]) || DecMap(src[0]) <= 64)
  {
    hide DecMap;
    assert forall i :: 1 <= i < |src| ==> src[i] == src[1..][i - 1];
  }

  lemma PadsLastCons(src: seq<Byte>, padded: bool)
    requires src != []
    ensures PadsLast(src, padded) <==>
      && PadsLast(src[1..], padded || src[0] == PAD)
      && (padded ==> Skipped(src[0]) || src[0] == PAD)
  {
    var rest := src[1..];
    assert forall i :: 0 <= i < |rest| ==> rest[i] == src[i + 1];
    assert forall i :: 1 <= i < |src| ==> src[i] == rest[i - 1];
  }

  lemma OnlyPad(c: Byte)
    ensures DecMap(c) == 64 <==> c == PAD
    ensures Skipped(c) ==> DecMap(c) == 127
  {
  }

  /** One character in front. */
  lemma FormedCons(src: seq<Byte>, j: nat)
    requires src != []
    ensures Formed(src, j) <==>
      && Formed(src[1..], if src[0] == PAD then j + 1 else j)
      && (src[0] == CR ==> |src| > 1 && src[1] == LF)
      && (src[0] == SPACE ==> |src| == 1 || Skipped(src[1]))
      && (Skipped(src[0]) || (DecMap(src[0]) <= 64 && (j > 0 ==> src[0] == PAD)))
  {
    hide LinesFormed, Known, PadsLast, DecMap;
    OnlyPad(src[0]);
    LinesCons(src);
    KnownCons(src);
    PadsLastCons(src, j > 0);
  }

  lemma FormedNone(j: nat)
    ensures Formed([], j) <==> j <= 2
  {
  }

  /** A space in front of the rest of the text. */
  lemma ScanSpace(src: seq<Byte>, n: nat, j: nat)
    requires src != [] && src[0] == SPACE
    ensures Scan(src, n, j).Accepted? <==> (|src| == 1 || Skipped(src[1])) && Scan(src[1..], n, j).Accepted?
  {
    hide DecMap;
    var rest := src[1..];
    var k := Spaces(rest);
    assert Spaces(src) == 1 + k && src[1 + k..] == rest[k..];
    if rest != [] { OnlyPad(rest[0]); }
  }

  lemma ScanBreak(src: seq<Byte>, n: nat, j: nat)
    requires src != [] && (src[0] == LF || src[0] == CR)
    ensures Scan(src, n, j) ==
      if src[0] == LF || (|src| > 1 && src[1] == LF) then Scan(src[1..], n, j) else Invalid
  {
    assert Spaces(src) == 0 && src[0..] == src;
  }

  lemma ScanOther(src: seq<Byte>, n: nat, j: nat)
    requires src != [] && !Skipped(src[0])
    ensures Scan(src, n, j) ==
      var j1 := if src[0] == PAD then j + 1 else j;
      if j1 > 2 || DecMap(src[0]) == 127 || (DecMap(src[0]) < 64 && j1 != 0) then Invalid else Scan(src[1..], n + 1, j1)
  {
    hide DecMap;
    assert Spaces(src) == 0 && src[0..] == src;
  }

  lemma Outsider(c: Byte)
    ensures DecMap(c) <= 64 || DecMap(c) == 127
  {
  }

  /** Exactly the texts of alphabet characters, with at most two padding characters behind all
      of them, broken into lines by LF or CR LF with spaces only at the end of a line. */
  lemma {:induction false} AcceptedExactly(src: seq<Byte>, n: nat, j: nat)
    requires j <= 2
    ensures Scan(src, n, j).Accepted? <==> Formed(src, j)
    decreases |src|
  {
    hide Formed, Scan, DecMap;
    if src == [] {
      FormedNone(j);
      ScanNone(n, j);
    } else {
      FormedCons(src, j);
      OnlyPad(src[0]);
      Outsider(src[0]);
      var j1 := if src[0] == PAD then j + 1 else j;
      if src[0] == SPACE {
        ScanSpace(src, n, j);
        AcceptedExactly(src[1..], n, j);
      } else if Skipped(src[0]) {
        ScanBreak(src, n, j);
        AcceptedExactly(src[1..], n, j);
      } else {
        ScanOther(src, n, j);
        if j1 <= 2 { AcceptedExactly(src[1..], n + 1, j1); } else { TooMany(src[1..], j1); }
      }
    }
  }

  lemma ScanNone(n: nat, j: nat)
    ensures Scan([], n, j) == Accepted(n, j)
  {
    var none: seq<Byte> := [];
    assert Spaces(none) == 0 && none[0..] == [];
  }

  lemma TooMany(src: seq<Byte>, j: nat)
    requires j > 2
    ensures !Formed(src, j)
  {
  }

  // ---- RFC 4648 ----

  /** Characters as bytes. */
  function Ascii(s: string): (b: seq<Byte>)
    requires forall i :: 0 <= i < |s| ==> s[i] as int < 256
    ensures |b| == |s|
  {
    seq(|s|, i requires 0 <= i < |s| => s[i] as int)
  }

  /** Table 1 of RFC 4648. */
  lemma Alphabet(v: nat)
    requires v < 64
    ensures EncMap(v) as char ==
      if v < 26 then 'A' + v as char
      else if v < 52 then 'a' + (v - 26) as char
      else if v < 62 then '0' + (v - 52) as char
      else if v == 62 then '+'
      else '/'
  {
  }

  /** Section 10 of RFC 4648. */
  lemma TestVectors()
    ensures Encode(Ascii("f")) == Ascii("Zg==")
    ensures Encode(Ascii("fo")) == Ascii("Zm8=")
    ensures Encode(Ascii("foo")) == Ascii("Zm9v")
    ensures Encode(Ascii("foobar")) == Ascii("Zm9vYmFy")
  {
    hide EncMap, Quad, Encode;
    ShortVectors();
    FooIs();
    BarIs();
    EncodeQuad(102, 111, 111, []);
    EncodeQuad(102, 111, 111, [98, 97, 114]);
    EncodeQuad(98, 97, 114, []);
    assert Ascii("foo") == [102, 111, 111] + [] && Ascii("foobar") == [102, 111, 111] + [98, 97, 114];
    assert [98, 97, 114] == [98, 97, 114] + [];
    EncodeNone();
    assert Ascii("Zm9vYmFy") == Ascii("Zm9v") + Ascii("YmFy");
  }

  lemma EncodeNone()
    ensures Encode([]) == []
  {
  }

  lemma EncodeQuad(a: Byte, b: Byte, c: Byte, rest: seq<Byte>)
    ensures Encode([a, b, c] + rest) == Quad(a, b, c) + Encode(rest)
  {
    hide Quad;
    assert ([a, b, c] + rest)[3..] == rest;
  }

  lemma FooIs()
    ensures Quad(102, 111, 111) == Ascii("Zm9v")
  {
  }

  lemma BarIs()
    ensures Quad(98, 97, 114) == Ascii("YmFy")
  {
  }

  lemma ShortVectors()
    ensures Encode(Ascii("f")) == Ascii("Zg==")
    ensures Encode(Ascii("fo")) == Ascii("Zm8=")
  {
  }
}
