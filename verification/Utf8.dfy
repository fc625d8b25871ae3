/** UTF-8 as `String::from_utf8` checks it, and what that check means: an encoding of scalar values. */
module Utf8 {
  import opened Sequences
  import opened Bytes

  predicate Continuation(b: byte) {
    0x80 <= b <= 0xBF
  }

  /** What `String::from_utf8` accepts (Table 3-7 of the Unicode standard). */
  predicate ValidUtf8(s: Bytes) {
    if s == [] then true
    else if s[0] < 0x80 then ValidUtf8(s[1..])
    else if 0xC2 <= s[0] <= 0xDF then
      |s| >= 2 && Continuation(s[1]) && ValidUtf8(s[2..])
    else if 0xE0 <= s[0] <= 0xEF then
      && |s| >= 3
      && (if s[0] == 0xE0 then 0xA0 <= s[1] <= 0xBF
          else if s[0] == 0xED then 0x80 <= s[1] <= 0x9F
          else Continuation(s[1]))
      && Continuation(s[2]) && ValidUtf8(s[3..])
    else if 0xF0 <= s[0] <= 0xF4 then
      && |s| >= 4
      && (if s[0] == 0xF0 then 0x90 <= s[1] <= 0xBF
          else if s[0] == 0xF4 then 0x80 <= s[1] <= 0x8F
          else Continuation(s[1]))
      && Continuation(s[2]) && Continuation(s[3]) && ValidUtf8(s[4..])
    else false
  }

  /** A code point that is not a surrogate. */
  predicate Scalar(c: nat) {
    c <= 0xD7FF || 0xE000 <= c <= 0x10FFFF
  }

  /** The shortest form, by code point: six bits in each byte after the first. */
  function EncodeScalar(c: nat): (s: Bytes)
    requires Scalar(c)
    ensures s != []
  {
    if c < 0x80 then [c as byte]
    else if c < 0x800 then [(0xC0 + c / 64) as byte, Trailing(c)]
    else if c < 0x1_0000 then [(0xE0 + c / 4096) as byte, Trailing(c / 64), Trailing(c)]
    else [(0xF0 + c / 262144) as byte, Trailing(c / 4096), Trailing(c / 64), Trailing(c)]
  }

  function Trailing(c: nat): (b: byte) {
    (0x80 + c % 64) as byte
  }

  ghost predicate AllScalars(cs: seq<nat>) {
    forall i :: 0 <= i < |cs| ==> Scalar(cs[i])
  }

  function EncodeScalars(cs: seq<nat>): Bytes
    requires AllScalars(cs)
  {
    if cs == [] then [] else EncodeScalar(cs[0]) + EncodeScalars(cs[1..])
  }

  /** One encoded scalar value in front changes nothing. */
  lemma ScalarInFront(c: nat, rest: Bytes)
    requires Scalar(c)
    ensures ValidUtf8(EncodeScalar(c) + rest) <==> ValidUtf8(rest)
  {
    var s := EncodeScalar(c) + rest;
    if c < 0x80 {
      assert s[1..] == rest;
    } else if c < 0x800 {
      assert s[2..] == rest;
    } else if c < 0x1_0000 {
      assert s[3..] == rest;
    } else {
      assert s[4..] == rest;
    }
  }

  /** Six-bit digits, as division and remainder find them again. */
  lemma Digits(high: nat, low: nat)
    requires low < 64
    ensures (high * 64 + low) / 64 == high && (high * 64 + low) % 64 == low
  {
  }

  lemma StartsWith2(s: Bytes) returns (c: nat)
    requires ValidUtf8(s) && s != [] && 0xC2 <= s[0] <= 0xDF
    ensures Scalar(c) && EncodeScalar(c) == s[..2] && ValidUtf8(s[2..])
  {
    var x, y := s[0] as int - 0xC0, s[1] as int - 0x80;
    c := x * 64 + y;
    Digits(x, y);
  }

  lemma StartsWith3(s: Bytes) returns (c: nat)
    requires ValidUtf8(s) && s != [] && 0xE0 <= s[0] <= 0xEF
    ensures Scalar(c) && EncodeScalar(c) == s[..3] && ValidUtf8(s[3..])
  {
    var x, y, z := s[0] as int - 0xE0, s[1] as int - 0x80, s[2] as int - 0x80;
    var high := x * 64 + y;
    c := high * 64 + z;
    Digits(x, y);
    Digits(high, z);
    assert c / 4096 == c / 64 / 64;
  }

  lemma StartsWith4(s: Bytes) returns (c: nat)
    requires ValidUtf8(s) && s != [] && 0xF0 <= s[0]
    ensures Scalar(c) && EncodeScalar(c) == s[..4] && ValidUtf8(s[4..])
  {
    var w, x, y, z := s[0] as int - 0xF0, s[1] as int - 0x80, s[2] as int - 0x80, s[3] as int - 0x80;
    var top := w * 64 + x;
    var high := top * 64 + y;
    c := high * 64 + z;
    Digits(w, x);
    Digits(top, y);
    Digits(high, z);
    assert c / 4096 == c / 64 / 64 && c / 262144 == c / 64 / 64 / 64;
  }

  /** Valid bytes start with an encoded scalar value. */
  lemma StartsWithScalar(s: Bytes) returns (c: nat, rest: Bytes)
    requires ValidUtf8(s) && s != []
    ensures Scalar(c) && s == EncodeScalar(c) + rest && ValidUtf8(rest)
  {
    hide EncodeScalar;
    if s[0] < 0x80 {
      c, rest := s[0] as nat, s[1..];
      AsciiIsItself(c);
    } else if s[0] <= 0xDF {
      c := StartsWith2(s);
      rest := s[2..];
    } else if s[0] <= 0xEF {
      c := StartsWith3(s);
      rest := s[3..];
    } else {
      c := StartsWith4(s);
      rest := s[4..];
    }
  }

  lemma AsciiIsItself(c: nat)
    requires c < 0x80
    ensures EncodeScalar(c) == [c as byte]
  {
  }

  lemma {:induction false} EncodingsAreValid(cs: seq<nat>)
    requires AllScalars(cs)
    ensures ValidUtf8(EncodeScalars(cs))
  {
    if cs != [] {
      EncodingsAreValid(cs[1..]);
      ScalarInFront(cs[0], EncodeScalars(cs[1..]));
    }
  }

  lemma {:induction false} ValidIsEncoding(s: Bytes) returns (cs: seq<nat>)
    requires ValidUtf8(s)
    ensures AllScalars(cs) && s == EncodeScalars(cs)
    decreases |s|
  {
    cs := [];
    if s != [] {
      var c, rest := StartsWithScalar(s);
      var others := ValidIsEncoding(rest);
      cs := [c] + others;
      assert cs[1..] == others;
    }
  }

  /** The check accepts exactly the encodings of scalar values, each in its shortest form. */
  lemma ValidUtf8Iff(s: Bytes)
    ensures ValidUtf8(s) <==> exists cs :: AllScalars(cs) && s == EncodeScalars(cs)
  {
    if ValidUtf8(s) {
      var cs := ValidIsEncoding(s);
    }
    if cs :| AllScalars(cs) && s == EncodeScalars(cs) {
      EncodingsAreValid(cs);
    }
  }

  /** Every ASCII string is valid. */
  lemma {:induction false} AsciiIsValid(s: Bytes)
    requires forall i :: 0 <= i < |s| ==> s[i] < 0x80
    ensures ValidUtf8(s)
  {
    if s != [] {
      AsciiIsValid(s[1..]);
    }
  }
}
