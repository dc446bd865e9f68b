/**
  UTF-8 as defined by RFC 3629: the encoding of a Unicode scalar value (a Dafny `char`)
  into one to four bytes, and the validating decoder that Rust's `String::from_utf8`
  applies (no overlong forms, no surrogates, nothing above U+10FFFF).
*/
module Utf8 {
  import opened Wrappers

  type byte = x: int | 0 <= x < 256

  /** A continuation byte, 10xxxxxx. */
  predicate IsContinuation(b: byte) { 0x80 <= b <= 0xBF }

  /** The byte sequence of one scalar value (section 3 of RFC 3629). The payload bits are
      taken six at a time from the low end. */
  function EncodeChar(c: char): (r: seq<byte>)
    ensures 1 <= |r| <= 4
    ensures |r| == 1 <==> (c as int) < 0x80
    ensures |r| == 2 <==> 0x80 <= (c as int) < 0x800
    ensures |r| == 3 <==> 0x800 <= (c as int) < 0x10000
    ensures 0 in r <==> c == '\0'
  {
    var n := c as int;
    if n < 0x80 then [n]
    else if n < 0x800 then [0xC0 + n / 64, 0x80 + n % 64]
    else if n < 0x10000 then [0xE0 + n / 64 / 64, 0x80 + n / 64 % 64, 0x80 + n % 64]
    else [0xF0 + n / 64 / 64 / 64, 0x80 + n / 64 / 64 % 64, 0x80 + n / 64 % 64, 0x80 + n % 64]
  }

  /** The UTF-8 byte sequence of a string: the concatenation of its characters' encodings. */
  function Encode(s: string): (r: seq<byte>)
    ensures |r| >= |s|
    decreases |s|
  {
    if |s| == 0 then [] else EncodeChar(s[0]) + Encode(s[1..])
  }

  /** The first scalar value of `b` and the number of bytes it takes, when `b` starts with a
      well-formed sequence (the table in section 4 of RFC 3629); None otherwise. */
  function DecodeFirst(b: seq<byte>): (r: Option<(char, nat)>)
    ensures r.Some? ==> 1 <= r.value.1 <= |b| && b[..r.value.1] == EncodeChar(r.value.0)
  {
    if |b| == 0 then None
    else
      var b0: int := b[0];
      if b0 < 0x80 then
        Some((b0 as char, 1))
      else if 0xC2 <= b0 <= 0xDF then
        if |b| >= 2 && IsContinuation(b[1]) then
          var b1: int := b[1];
          var n := (b0 - 0xC0) * 64 + (b1 - 0x80);
          Split64(b0 - 0xC0, b1 - 0x80);
          Some((n as char, 2))
        else None
      else if 0xE0 <= b0 <= 0xEF then
        var lo := if b0 == 0xE0 then 0xA0 else 0x80;
        var hi := if b0 == 0xED then 0x9F else 0xBF;
        if |b| >= 3 && lo <= b[1] <= hi && IsContinuation(b[2]) then
          var b1: int, b2: int := b[1], b[2];
          var m := (b0 - 0xE0) * 64 + (b1 - 0x80);
          var n := m * 64 + (b2 - 0x80);
          Split64(b0 - 0xE0, b1 - 0x80);
          Split64(m, b2 - 0x80);
          Some((n as char, 3))
        else None
      else if 0xF0 <= b0 <= 0xF4 then
        var lo := if b0 == 0xF0 then 0x90 else 0x80;
        var hi := if b0 == 0xF4 then 0x8F else 0xBF;
        if |b| >= 4 && lo <= b[1] <= hi && IsContinuation(b[2]) && IsContinuation(b[3]) then
          var b1: int, b2: int, b3: int := b[1], b[2], b[3];
          var m1 := (b0 - 0xF0) * 64 + (b1 - 0x80);
          var m2 := m1 * 64 + (b2 - 0x80);
          var n := m2 * 64 + (b3 - 0x80);
          Split64(b0 - 0xF0, b1 - 0x80);
          Split64(m1, b2 - 0x80);
          Split64(m2, b3 - 0x80);
          Some((n as char, 4))
        else None
      else None
  }

  /** Rust's `String::from_utf8`: the string whose encoding is `b`, or None when `b` is not
      well-formed UTF-8. */
  function Decode(b: seq<byte>): (r: Option<string>)
    ensures r.Some? ==> Encode(r.value) == b
    decreases |b|
  {
    if |b| == 0 then Some("")
    else
      var first := DecodeFirst(b);
      if first.None? then None
      else
        var k := first.value.1;
        var rest := Decode(b[k..]);
        if rest.None? then None
        else
          EncodeCons(b, k, first.value.0, rest.value);
          Some([first.value.0] + rest.value)
  }

  /** A character followed by a string encodes to the character's bytes followed by the
      string's. */
  lemma EncodeCons(b: seq<byte>, k: nat, c: char, s: string)
    requires k <= |b| && b[..k] == EncodeChar(c) && Encode(s) == b[k..]
    ensures Encode([c] + s) == b
  {
    assert ([c] + s)[1..] == s;
    assert b == b[..k] + b[k..];
  }

  lemma Split64(q: int, r: int)
    requires 0 <= r < 64
    ensures (q * 64 + r) / 64 == q && (q * 64 + r) % 64 == r
  {
  }

  /** The decoder reads back the first character of any encoded text. */
  lemma DecodeFirstOfEncoded(c: char, rest: seq<byte>)
    ensures DecodeFirst(EncodeChar(c) + rest) == Some((c, |EncodeChar(c)|))
  {
    var n := c as int;
    var b := EncodeChar(c) + rest;
    if n < 0x80 {
    } else if n < 0x800 {
      assert b[0] == 0xC0 + n / 64 && b[1] == 0x80 + n % 64;
    } else if n < 0x10000 {
      assert b[0] == 0xE0 + n / 64 / 64 && b[1] == 0x80 + n / 64 % 64 && b[2] == 0x80 + n % 64;
      assert n / 64 == (n / 64 / 64) * 64 + n / 64 % 64;
    } else {
      assert b[0] == 0xF0 + n / 64 / 64 / 64 && b[1] == 0x80 + n / 64 / 64 % 64;
      assert b[2] == 0x80 + n / 64 % 64 && b[3] == 0x80 + n % 64;
      assert n / 64 / 64 == (n / 64 / 64 / 64) * 64 + n / 64 / 64 % 64;
      assert n / 64 == (n / 64 / 64) * 64 + n / 64 % 64;
    }
    var r := DecodeFirst(b);
    assert r.Some?;
    assert b[..r.value.1] == EncodeChar(r.value.0);
    EncodeCharInjective(r.value.0, c, b);
  }

  /** Two characters whose encodings both start the same byte sequence are the same. */
  lemma EncodeCharInjective(c: char, d: char, b: seq<byte>)
    requires EncodeChar(c) <= b && EncodeChar(d) <= b
    ensures c == d
  {
    var n, m := c as int, d as int;
    var ec, ed := EncodeChar(c), EncodeChar(d);
    assert ec[0] == b[0] == ed[0];
    // The lead byte fixes the length, and then every payload digit is equal.
    if n < 0x80 {
    } else if n < 0x800 {
      assert ec[1] == ed[1];
      assert n == (n / 64) * 64 + n % 64 && m == (m / 64) * 64 + m % 64;
    } else if n < 0x10000 {
      assert ec[1] == ed[1] && ec[2] == ed[2];
      assert n / 64 == (n / 64 / 64) * 64 + n / 64 % 64 && m / 64 == (m / 64 / 64) * 64 + m / 64 % 64;
    } else {
      assert ec[1] == ed[1] && ec[2] == ed[2] && ec[3] == ed[3];
      assert n / 64 / 64 == (n / 64 / 64 / 64) * 64 + n / 64 / 64 % 64;
      assert m / 64 / 64 == (m / 64 / 64 / 64) * 64 + m / 64 / 64 % 64;
      assert n / 64 == (n / 64 / 64) * 64 + n / 64 % 64 && m / 64 == (m / 64 / 64) * 64 + m / 64 % 64;
    }
  }

  lemma {:induction false} EncodeAppend(s: string, t: string)
    ensures Encode(s + t) == Encode(s) + Encode(t)
    decreases |s|
  {
    if |s| == 0 {
      assert s + t == t;
    } else {
      assert (s + t)[1..] == s[1..] + t;
      EncodeAppend(s[1..], t);
    }
  }

  /** Round trip: decoding the encoding of any string gives it back. */
  lemma {:induction false} DecodeEncode(s: string)
    ensures Decode(Encode(s)) == Some(s)
    decreases |s|
  {
    if |s| > 0 {
      DecodeFirstOfEncoded(s[0], Encode(s[1..]));
      var b := Encode(s);
      assert b[|EncodeChar(s[0])|..] == Encode(s[1..]);
      DecodeEncode(s[1..]);
      assert [s[0]] + s[1..] == s;
    }
  }

  /** Decode fails exactly on the byte sequences that are the encoding of no string. */
  lemma DecodeFailsIffNotEncoding(b: seq<byte>)
    ensures Decode(b).None? <==> forall s: string :: Encode(s) != b
  {
    if Decode(b).None? {
      forall s: string ensures Encode(s) != b {
        if Encode(s) == b { DecodeEncode(s); }
      }
    } else {
      assert Encode(Decode(b).value) == b;
    }
  }

  /** The encoding of a string holds the byte 0 exactly when the string holds U+0000. */
  lemma {:induction false} ZeroByteIffNul(s: string)
    ensures 0 in Encode(s) <==> '\0' in s
    decreases |s|
  {
    if |s| > 0 {
      ZeroByteIffNul(s[1..]);
      assert s == [s[0]] + s[1..];
    }
  }
}
