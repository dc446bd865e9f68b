/**
  Entry hashes as the zome sees them: an opaque byte string, its textual form
  (`EntryHashB64::to_string`, the letter `u` followed by URL-safe base64 without padding),
  and the order a `BTreeMap<EntryHash, _>` keeps its keys in (the derived `Ord` of the
  hash bytes, which is lexicographic).
*/
module HoloHash {
  import opened Utf8

  datatype EntryHash = EntryHash(raw: seq<byte>)

  /** The character of a six-bit value in the URL-safe base64 alphabet of section 5 of
      RFC 4648: A-Z, a-z, 0-9, then '-' and '_'. */
  function Sextet(v: int): char
    requires 0 <= v < 64
  {
    if v < 26 then (65 + v) as char
    else if v < 52 then (97 + v - 26) as char
    else if v < 62 then (48 + v - 52) as char
    else if v == 62 then '-'
    else '_'
  }

  /** The six-bit value of a character of that alphabet. */
  function SextetValue(c: char): (v: int)
    ensures 0 <= v < 64
  {
    if 'A' <= c <= 'Z' then c as int - 65
    else if 'a' <= c <= 'z' then c as int - 97 + 26
    else if '0' <= c <= '9' then c as int - 48 + 52
    else if c == '-' then 62
    else 63
  }

  lemma SextetValueOfSextet(v: int)
    requires 0 <= v < 64
    ensures SextetValue(Sextet(v)) == v
  {
  }

  /** Reading back bytes from URL-safe base64 without padding: every 4 characters give 3
      bytes, a final 2 or 3 characters give 1 or 2 bytes. */
  function Base64UrlDecode(s: string): seq<byte>
    decreases |s|
  {
    if |s| < 2 then []
    else
      var v0 := SextetValue(s[0]);
      var v1 := SextetValue(s[1]);
      if |s| == 2 then [v0 * 4 + v1 / 16]
      else
        var v2 := SextetValue(s[2]);
        if |s| == 3 then [v0 * 4 + v1 / 16, v1 % 16 * 16 + v2 / 4]
        else
          var v3 := SextetValue(s[3]);
          [v0 * 4 + v1 / 16, v1 % 16 * 16 + v2 / 4, v2 % 4 * 64 + v3] + Base64UrlDecode(s[4..])
  }

  lemma Unsplit16(q: int, r: int)
    requires 0 <= r < 16
    ensures (q * 16 + r) / 16 == q && (q * 16 + r) % 16 == r
  {
  }

  lemma Unsplit4(q: int, r: int)
    requires 0 <= r < 4
    ensures (q * 4 + r) / 4 == q && (q * 4 + r) % 4 == r
  {
  }

  /** The characters of one group of three bytes. */
  function Group(b0: byte, b1: byte, b2: byte): string
  {
    [Sextet(b0 / 4), Sextet(b0 % 4 * 16 + b1 / 16), Sextet(b1 % 16 * 4 + b2 / 64), Sextet(b2 % 64)]
  }

  /** A group decodes back to its three bytes, whatever follows it. */
  lemma GroupRoundTrip(b0: byte, b1: byte, b2: byte, rest: string)
    ensures Base64UrlDecode(Group(b0, b1, b2) + rest) == [b0, b1, b2] + Base64UrlDecode(rest)
  {
    var v0 := b0 / 4;
    var v1 := b0 % 4 * 16 + b1 / 16;
    var v2 := b1 % 16 * 4 + b2 / 64;
    var v3 := b2 % 64;
    SextetValueOfSextet(v0);
    SextetValueOfSextet(v1);
    SextetValueOfSextet(v2);
    SextetValueOfSextet(v3);
    Unsplit16(b0 % 4, b1 / 16);
    Unsplit4(b1 % 16, b2 / 64);
    var s := Group(b0, b1, b2) + rest;
    assert s[4..] == rest;
    assert v0 * 4 + v1 / 16 == b0;
    assert v1 % 16 * 16 + v2 / 4 == b1;
    assert v2 % 4 * 64 + v3 == b2;
  }

  /** The last one or two bytes decode back from their two or three characters. */
  lemma TailRoundTrip(b: seq<byte>)
    requires 1 <= |b| <= 2
    ensures |b| == 1 ==> Base64UrlDecode([Sextet(b[0] / 4), Sextet(b[0] % 4 * 16)]) == b
    ensures |b| == 2 ==>
      Base64UrlDecode([Sextet(b[0] / 4), Sextet(b[0] % 4 * 16 + b[1] / 16), Sextet(b[1] % 16 * 4)]) == b
  {
    SextetValueOfSextet(b[0] / 4);
    if |b| == 1 {
      SextetValueOfSextet(b[0] % 4 * 16);
      Unsplit16(b[0] % 4, 0);
    } else {
      SextetValueOfSextet(b[0] % 4 * 16 + b[1] / 16);
      SextetValueOfSextet(b[1] % 16 * 4);
      Unsplit16(b[0] % 4, b[1] / 16);
      Unsplit4(b[1] % 16, 0);
    }
  }

  /** URL-safe base64 without padding (section 5 of RFC 4648): every 3 bytes become 4
      characters, a final 1 or 2 bytes become 2 or 3 characters, and decoding gives the
      bytes back. */
  function Base64Url(b: seq<byte>): (r: string)
    ensures |r| == (4 * |b| + 2) / 3
    ensures Base64UrlDecode(r) == b
    decreases |b|
  {
    if |b| == 0 then ""
    else if |b| == 1 then
      TailRoundTrip(b);
      [Sextet(b[0] / 4), Sextet(b[0] % 4 * 16)]
    else if |b| == 2 then
      TailRoundTrip(b);
      [Sextet(b[0] / 4), Sextet(b[0] % 4 * 16 + b[1] / 16), Sextet(b[1] % 16 * 4)]
    else
      var rest := Base64Url(b[3..]);
      GroupRoundTrip(b[0], b[1], b[2], rest);
      assert b == [b[0], b[1], b[2]] + b[3..];
      Group(b[0], b[1], b[2]) + rest
  }

  /** `EntryHashB64::from(h).to_string()`. */
  function ToB64String(h: EntryHash): string
  {
    "u" + Base64Url(h.raw)
  }

  /** Different hashes have different texts, so keying a map by the text loses no entry. */
  lemma ToB64StringInjective(h: EntryHash, k: EntryHash)
    requires ToB64String(h) == ToB64String(k)
    ensures h == k
  {
    assert ToB64String(h)[1..] == Base64Url(h.raw);
    assert ToB64String(k)[1..] == Base64Url(k.raw);
  }

  /** Strict lexicographic order on byte strings (a proper prefix comes first). */
  predicate Below(a: seq<byte>, b: seq<byte>)
    decreases |a|
  {
    |b| > 0 && (|a| == 0 || a[0] < b[0] || (a[0] == b[0] && Below(a[1..], b[1..])))
  }

  /** The key order of a `BTreeMap<EntryHash, _>`. */
  predicate Less(h: EntryHash, k: EntryHash)
  {
    Below(h.raw, k.raw)
  }

  lemma {:induction false} BelowIrreflexive(a: seq<byte>)
    ensures !Below(a, a)
    decreases |a|
  {
    if |a| > 0 { BelowIrreflexive(a[1..]); }
  }

  lemma {:induction false} BelowTransitive(a: seq<byte>, b: seq<byte>, c: seq<byte>)
    requires Below(a, b) && Below(b, c)
    ensures Below(a, c)
    decreases |a|
  {
    if |a| > 0 && a[0] == b[0] && b[0] == c[0] {
      BelowTransitive(a[1..], b[1..], c[1..]);
    }
  }

  lemma {:induction false} BelowTotal(a: seq<byte>, b: seq<byte>)
    requires a != b
    ensures Below(a, b) || Below(b, a)
    decreases |a|
  {
    if |a| > 0 && |b| > 0 && a[0] == b[0] {
      assert a == [a[0]] + a[1..] && b == [b[0]] + b[1..];
      BelowTotal(a[1..], b[1..]);
    }
  }

  /** `Less` is a strict total order on entry hashes. */
  lemma LessIsStrictTotalOrder()
    ensures forall h :: !Less(h, h)
    ensures forall h, k, l :: Less(h, k) && Less(k, l) ==> Less(h, l)
    ensures forall h, k :: h != k ==> Less(h, k) || Less(k, h)
  {
    forall h: EntryHash ensures !Less(h, h) { BelowIrreflexive(h.raw); }
    forall h: EntryHash, k: EntryHash, l: EntryHash | Less(h, k) && Less(k, l) ensures Less(h, l) {
      BelowTransitive(h.raw, k.raw, l.raw);
    }
    forall h: EntryHash, k: EntryHash | h != k ensures Less(h, k) || Less(k, h) {
      BelowTotal(h.raw, k.raw);
    }
  }
}
