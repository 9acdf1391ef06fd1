/**
 * The byte strings taken for UTF-8 are exactly the encodings of sequences of Unicode scalar values, as
 * section 3 of RFC 3629 defines them.
 */
module Utf8 {
  import opened Types
  import opened Wire

  /** Code points but for the surrogates. */
  predicate Scalar(c: nat) {
    c < 0xD800 || 0xE000 <= c < 0x11_0000
  }

  function Encode(c: nat): (b: Bytes)
    requires Scalar(c)
    ensures 1 <= |b| <= 4
  {
    if c < 0x80 then [c]
    else if c < 0x800 then [0xC0 + c / 0x40, 0x80 + c % 0x40]
    else if c < 0x1_0000 then [0xE0 + c / 0x1000, 0x80 + c / 0x40 % 0x40, 0x80 + c % 0x40]
    else [0xF0 + c / 0x4_0000, 0x80 + c / 0x1000 % 0x40, 0x80 + c / 0x40 % 0x40, 0x80 + c % 0x40]
  }

  predicate Scalars(cs: seq<nat>) {
    forall c :: c in cs ==> Scalar(c)
  }

  function Encoded(cs: seq<nat>): Bytes
    requires Scalars(cs)
  {
    if cs == [] then [] else Encode(cs[0]) + Encoded(cs[1..])
  }

  /** Which bytes an encoding is made of. */
  lemma EncodeRanges(c: nat)
    requires Scalar(c)
    ensures var b := Encode(c);
            && (|b| == 1 ==> b[0] < 0x80)
            && (|b| == 2 ==> 0xC2 <= b[0] <= 0xDF)
            && (|b| == 3 ==> && 0xE0 <= b[0] <= 0xEF && (b[0] == 0xE0 ==> 0xA0 <= b[1]) && (b[0] == 0xED ==> b[1] <= 0x9F))
            && (|b| == 4 ==> && 0xF0 <= b[0] <= 0xF4 && (b[0] == 0xF0 ==> 0x90 <= b[1]) && (b[0] == 0xF4 ==> b[1] <= 0x8F))
            && forall j :: 0 < j < |b| ==> 0x80 <= b[j] <= 0xBF
  {}

  /** An encoded scalar value is passed over. */
  lemma PassesOver(s: Bytes, i: nat, c: nat)
    requires Scalar(c) && At(s, i, Encode(c))
    ensures ValidUtf8From(s, i) <==> ValidUtf8From(s, i + |Encode(c)|)
  {
    hide Encode, Scalar;
    EncodeRanges(c);
    var b := Encode(c);
    var d := s[i..i + |b|];
    assert d[0] == s[i] && (1 < |b| ==> d[1] == s[i + 1]) && (2 < |b| ==> d[2] == s[i + 2]) && (3 < |b| ==> d[3] == s[i + 3]);
  }

  lemma Digits2(x: nat, y: nat)
    requires y < 0x40
    ensures (x * 0x40 + y) / 0x40 == x && (x * 0x40 + y) % 0x40 == y
  {}

  lemma Digits3(x: nat, y: nat, z: nat)
    requires y < 0x40 && z < 0x40
    ensures var c := x * 0x1000 + y * 0x40 + z; c / 0x1000 == x && c / 0x40 % 0x40 == y && c % 0x40 == z
  {
    Digits2(x * 0x40 + y, z);
    Digits2(x, y);
  }

  lemma Digits4(w: nat, x: nat, y: nat, z: nat)
    requires x < 0x40 && y < 0x40 && z < 0x40
    ensures var c := w * 0x4_0000 + x * 0x1000 + y * 0x40 + z;
            c / 0x4_0000 == w && c / 0x1000 % 0x40 == x && c / 0x40 % 0x40 == y && c % 0x40 == z
  {
    Digits3(w * 0x40 + x, y, z);
    Digits2(w, x);
  }

  /** What is passed over is an encoded scalar value. */
  lemma EncodedAt(s: Bytes, i: nat) returns (c: nat)
    requires i < |s| && ValidUtf8From(s, i)
    ensures Scalar(c) && At(s, i, Encode(c))
  {
    var a: int := s[i];
    if a < 0x80 {
      c := a;
      assert s[i..i + 1] == [s[i]];
    } else if a <= 0xDF {
      var y: int := s[i + 1];
      c := (a - 0xC0) * 0x40 + (y - 0x80);
      Digits2(a - 0xC0, y - 0x80);
      assert s[i..i + 2] == [s[i], s[i + 1]];
    } else if a <= 0xEF {
      c := EncodedThree(s, i);
    } else {
      c := EncodedFour(s, i);
    }
  }

  lemma EncodedThree(s: Bytes, i: nat) returns (c: nat)
    requires i < |s| && ValidUtf8From(s, i) && 0xE0 <= s[i] <= 0xEF
    ensures Scalar(c) && At(s, i, Encode(c))
  {
    var a: int, y: int, z: int := s[i], s[i + 1], s[i + 2];
    c := (a - 0xE0) * 0x1000 + (y - 0x80) * 0x40 + (z - 0x80);
    Digits3(a - 0xE0, y - 0x80, z - 0x80);
    assert s[i..i + 3] == [s[i], s[i + 1], s[i + 2]];
    hide ValidUtf8From;
    assert Encode(c) == [s[i], s[i + 1], s[i + 2]];
  }

  lemma EncodedFour(s: Bytes, i: nat) returns (c: nat)
    requires i < |s| && ValidUtf8From(s, i) && 0xF0 <= s[i]
    ensures Scalar(c) && At(s, i, Encode(c))
  {
    var a: int, x: int, y: int, z: int := s[i], s[i + 1], s[i + 2], s[i + 3];
    c := (a - 0xF0) * 0x4_0000 + (x - 0x80) * 0x1000 + (y - 0x80) * 0x40 + (z - 0x80);
    Digits4(a - 0xF0, x - 0x80, y - 0x80, z - 0x80);
    assert s[i..i + 4] == [s[i], s[i + 1], s[i + 2], s[i + 3]];
    hide ValidUtf8From;
    assert Encode(c) == [s[i], s[i + 1], s[i + 2], s[i + 3]];
  }

  lemma {:induction false} EncodedFrom(s: Bytes, i: nat) returns (cs: seq<nat>)
    requires i <= |s| && ValidUtf8From(s, i)
    ensures Scalars(cs) && s[i..] == Encoded(cs)
    decreases |s| - i
  {
    if i == |s| {
      cs := [];
    } else {
      var c := EncodedAt(s, i);
      PassesOver(s, i, c);
      hide Encode, ValidUtf8From;
      var rest := EncodedFrom(s, i + |Encode(c)|);
      cs := [c] + rest;
      assert cs[1..] == rest;
      assert s[i..] == s[i..i + |Encode(c)|] + s[i + |Encode(c)|..];
    }
  }

  lemma SplitAt(s: Bytes, i: nat, b: Bytes, rest: Bytes)
    requires i <= |s| && s[i..] == b + rest
    ensures At(s, i, b) && s[i + |b|..] == rest
  {
    assert |s[i..]| == |b| + |rest|;
    assert s[i..i + |b|] == s[i..][..|b|] && s[i + |b|..] == s[i..][|b|..];
  }

  lemma Unfold(cs: seq<nat>)
    requires Scalars(cs) && cs != []
    ensures Scalar(cs[0]) && Scalars(cs[1..]) && Encoded(cs) == Encode(cs[0]) + Encoded(cs[1..])
  {}

  lemma {:induction false} ValidFrom(s: Bytes, i: nat, cs: seq<nat>)
    requires i <= |s| && Scalars(cs) && s[i..] == Encoded(cs)
    ensures ValidUtf8From(s, i)
    decreases |cs|
  {
    if cs == [] {
      assert |s[i..]| == 0;
    } else {
      hide *;
      Unfold(cs);
      Follows(s, i, cs[0], Encoded(cs[1..]));
      ValidFrom(s, i + |Encode(cs[0])|, cs[1..]);
    }
  }

  lemma Follows(s: Bytes, i: nat, c: nat, rest: Bytes)
    requires i <= |s| && Scalar(c) && s[i..] == Encode(c) + rest
    ensures var k := i + |Encode(c)|; k <= |s| && s[k..] == rest && (ValidUtf8From(s, i) <==> ValidUtf8From(s, k))
  {
    hide Encode, ValidUtf8From, Scalar;
    SplitAt(s, i, Encode(c), rest);
    PassesOver(s, i, c);
  }

  lemma ValidExactly(s: Bytes)
    ensures ValidUtf8(s) <==> exists cs :: Scalars(cs) && s == Encoded(cs)
  {
    assert s[0..] == s;
    if ValidUtf8(s) {
      var cs := EncodedFrom(s, 0);
    }
    forall cs | Scalars(cs) && s == Encoded(cs) ensures ValidUtf8(s) {
      ValidFrom(s, 0, cs);
    }
  }
}
