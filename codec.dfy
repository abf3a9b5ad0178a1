/**
 * The two encodings the alias cache stores credentials with, as Node's
 * Buffer applies them.
 *
 * - UTF-8 (RFC 3629): `Buffer.from(s)` encodes each character. Decoding
 *   with `toString('utf8')` replaces every ill-formed subsequence by U+FFFD,
 *   one replacement per maximal subpart.
 * - Base64 (RFC 4648, section 4): encoding uses the standard alphabet
 *   with '=' padding. Node's decoder is lenient: it stops at the first '=',
 *   skips characters outside the alphabet, and also accepts the URL-safe
 *   symbols of section 5.
 */
module Codec {
  import opened Wrappers

  type Byte = b: int | 0 <= b < 256

  // ---------------------------------------------------------------- Base64

  /** The symbol for a 6-bit value (RFC 4648, section 4, Table 1). */
  function Symbol(n: nat): (c: char)
    requires n < 64
  {
    if n < 26 then ('A' as int + n) as char
    else if n < 52 then ('a' as int + (n - 26)) as char
    else if n < 62 then ('0' as int + (n - 52)) as char
    else if n == 62 then '+'
    else '/'
  }

  /** The value of a symbol of the standard or the URL-safe alphabet; `None` for any other character. */
  function SymbolValue(c: char): (r: Option<nat>)
    ensures r.Some? ==> r.value < 64
  {
    if 'A' <= c <= 'Z' then Some(c as int - 'A' as int)
    else if 'a' <= c <= 'z' then Some(c as int - 'a' as int + 26)
    else if '0' <= c <= '9' then Some(c as int - '0' as int + 52)
    else if c == '+' || c == '-' then Some(62)
    else if c == '/' || c == '_' then Some(63)
    else None
  }

  predicate AllSextets(q: seq<nat>) { forall i :: 0 <= i < |q| ==> q[i] < 64 }

  /** The 6-bit groups of the bytes, three bytes making four groups and a short tail two or three. */
  function Sextets(b: seq<Byte>): (q: seq<nat>)
    ensures AllSextets(q)
    ensures |q| == 4 * (|b| / 3) + (if |b| % 3 == 0 then 0 else |b| % 3 + 1)
  {
    if |b| == 0 then []
    else if |b| == 1 then [b[0] / 4, (b[0] % 4) * 16]
    else if |b| == 2 then [b[0] / 4, (b[0] % 4) * 16 + b[1] / 16, (b[1] % 16) * 4]
    else [b[0] / 4, (b[0] % 4) * 16 + b[1] / 16, (b[1] % 16) * 4 + b[2] / 64, b[2] % 64] + Sextets(b[3..])
  }

  function Symbols(q: seq<nat>): (s: string)
    requires AllSextets(q)
    ensures |s| == |q| && forall i :: 0 <= i < |q| ==> s[i] == Symbol(q[i])
  {
    if |q| == 0 then "" else [Symbol(q[0])] + Symbols(q[1..])
  }

  /** The '=' characters that fill the last group of n bytes up to four symbols. */
  function Padding(n: nat): (s: string)
    ensures forall i :: 0 <= i < |s| ==> s[i] == '='
  {
    if n % 3 == 1 then "==" else if n % 3 == 2 then "=" else ""
  }

  /** `buffer.toString('base64')`. */
  function Base64Encode(b: seq<Byte>): (s: string)
    ensures |s| == 4 * ((|b| + 2) / 3)
    ensures forall i :: 0 <= i < |s| ==> s[i] == '=' || SymbolValue(s[i]).Some?
  {
    var q := Sextets(b);
    forall i | 0 <= i < |q| ensures SymbolValue(Symbol(q[i])).Some? {
      SymbolRoundTrip(q[i]);
    }
    Symbols(q) + Padding(|b|)
  }

  /** The text before the first '=', where Node's decoder stops. */
  function BeforePad(s: string): (t: string)
    ensures |t| <= |s| && t == s[..|t|] && '=' !in t
    ensures |t| < |s| ==> s[|t|] == '='
  {
    if |s| == 0 || s[0] == '=' then "" else [s[0]] + BeforePad(s[1..])
  }

  /** The values of the alphabet symbols of s, in order; other characters are skipped. */
  function Values(s: string): (q: seq<nat>)
    ensures AllSextets(q) && |q| <= |s|
  {
    if |s| == 0 then []
    else
      var v := SymbolValue(s[0]);
      if v.Some? then [v.value] + Values(s[1..]) else Values(s[1..])
  }

  /** Four symbols make three bytes; a tail of three makes two, a tail of two one, and a single one nothing. */
  function Bytes(q: seq<nat>): (b: seq<Byte>)
    requires AllSextets(q)
  {
    if |q| >= 4 then
      [q[0] * 4 + q[1] / 16, (q[1] % 16) * 16 + q[2] / 4, (q[2] % 4) * 64 + q[3]] + Bytes(q[4..])
    else if |q| == 3 then [q[0] * 4 + q[1] / 16, (q[1] % 16) * 16 + q[2] / 4]
    else if |q| == 2 then [q[0] * 4 + q[1] / 16]
    else []
  }

  /** `Buffer.from(s, 'base64')`. */
  function Base64Decode(s: string): seq<Byte>
  {
    Bytes(Values(BeforePad(s)))
  }

  lemma SymbolRoundTrip(n: nat)
    requires n < 64
    ensures SymbolValue(Symbol(n)) == Some(n) && Symbol(n) != '='
  {
  }

  lemma {:induction false} ValuesOfSymbols(q: seq<nat>)
    requires AllSextets(q)
    ensures Values(Symbols(q)) == q
  {
    if |q| > 0 {
      SymbolRoundTrip(q[0]);
      assert Symbols(q)[1..] == Symbols(q[1..]);
      ValuesOfSymbols(q[1..]);
    }
  }

  lemma {:induction false} BeforePadOfSymbols(s: string, pad: string)
    requires '=' !in s
    requires |pad| == 0 || pad[0] == '='
    ensures BeforePad(s + pad) == s
  {
    if |s| > 0 {
      assert (s + pad)[1..] == s[1..] + pad;
      BeforePadOfSymbols(s[1..], pad);
    }
  }

  /** One group of three bytes survives encoding and decoding. */
  lemma GroupRoundTrip(x: Byte, y: Byte, z: Byte)
    ensures var q := [x / 4, (x % 4) * 16 + y / 16, (y % 16) * 4 + z / 64, z % 64];
      q[0] * 4 + q[1] / 16 == x && (q[1] % 16) * 16 + q[2] / 4 == y && (q[2] % 4) * 64 + q[3] == z
  {
  }

  lemma {:induction false} BytesOfSextets(b: seq<Byte>)
    ensures Bytes(Sextets(b)) == b
  {
    if |b| >= 3 {
      var q := Sextets(b);
      GroupRoundTrip(b[0], b[1], b[2]);
      assert q[4..] == Sextets(b[3..]);
      BytesOfSextets(b[3..]);
      assert b == b[..3] + b[3..];
    } else if |b| == 2 {
      GroupRoundTrip(b[0], b[1], 0);
    } else if |b| == 1 {
      GroupRoundTrip(b[0], 0, 0);
    }
  }

  /** Decoding recovers every byte string from its Base64 text. */
  lemma Base64RoundTrip(b: seq<Byte>)
    ensures Base64Decode(Base64Encode(b)) == b
  {
    var q := Sextets(b);
    forall i | 0 <= i < |q| ensures Symbols(q)[i] != '=' {
      SymbolRoundTrip(q[i]);
    }
    BeforePadOfSymbols(Symbols(q), Padding(|b|));
    ValuesOfSymbols(q);
    BytesOfSextets(b);
  }

  // ---------------------------------------------------------------- UTF-8

  /** A Unicode scalar value, which is what a `char` holds. */
  predicate IsScalar(v: int) { 0 <= v < 0xD800 || 0xE000 <= v < 0x11_0000 }

  /** The UTF-8 form of one character (RFC 3629, section 3). */
  function Utf8Char(c: char): (b: seq<Byte>)
    ensures 1 <= |b| <= 4
  {
    var n := c as int;
    if n < 0x80 then [n]
    else if n < 0x800 then [0xC0 + n / 64, 0x80 + n % 64]
    else if n < 0x1_0000 then [0xE0 + n / 4096, 0x80 + (n / 64) % 64, 0x80 + n % 64]
    else [0xF0 + n / 262144, 0x80 + (n / 4096) % 64, 0x80 + (n / 64) % 64, 0x80 + n % 64]
  }

  /** `Buffer.from(s)`. */
  function Utf8Encode(s: string): (b: seq<Byte>)
    ensures |b| >= |s|
  {
    if |s| == 0 then [] else Utf8Char(s[0]) + Utf8Encode(s[1..])
  }

  /** The length of the sequence a lead byte starts, or 0 for a byte that cannot start one. */
  function SequenceLength(lead: Byte): (n: nat)
    ensures n <= 4
  {
    if lead < 0x80 then 1
    else if 0xC2 <= lead <= 0xDF then 2
    else if 0xE0 <= lead <= 0xEF then 3
    else if 0xF0 <= lead <= 0xF4 then 4
    else 0
  }

  /**
   * The byte at position k (k >= 1) of a sequence is a continuation byte;
   * the second byte after E0, ED, F0 and F4 is narrowed so that overlong
   * forms, surrogates and values past U+10FFFF are ill-formed (RFC 3629,
   * section 4).
   */
  predicate Continues(lead: Byte, k: nat, x: Byte)
  {
    if k == 1 && lead == 0xE0 then 0xA0 <= x <= 0xBF
    else if k == 1 && lead == 0xED then 0x80 <= x <= 0x9F
    else if k == 1 && lead == 0xF0 then 0x90 <= x <= 0xBF
    else if k == 1 && lead == 0xF4 then 0x80 <= x <= 0x8F
    else 0x80 <= x <= 0xBF
  }

  /** The end of the longest well-formed start of a sequence of n bytes, scanning from position k. */
  function Accepted(b: seq<Byte>, n: nat, k: nat): (j: nat)
    requires 1 <= k <= n && k <= |b|
    ensures k <= j <= n && j <= |b|
    ensures forall i :: k <= i < j ==> Continues(b[0], i, b[i])
    ensures j < n ==> j == |b| || !Continues(b[0], j, b[j])
    decreases n - k
  {
    if k < n && k < |b| && Continues(b[0], k, b[k]) then Accepted(b, n, k + 1) else k
  }

  /** The scalar value a well-formed sequence of 1 to 4 bytes encodes. */
  function Scalar(b: seq<Byte>): int
    requires 1 <= |b| <= 4
  {
    var b0: int, b1: int, b2: int, b3: int := b[0], Ext(b, 1), Ext(b, 2), Ext(b, 3);
    if |b| == 1 then b0
    else if |b| == 2 then (b0 - 0xC0) * 64 + (b1 - 0x80)
    else if |b| == 3 then (b0 - 0xE0) * 4096 + (b1 - 0x80) * 64 + (b2 - 0x80)
    else (b0 - 0xF0) * 262144 + (b1 - 0x80) * 4096 + (b2 - 0x80) * 64 + (b3 - 0x80)
  }

  function Ext(b: seq<Byte>, i: nat): int { if i < |b| then b[i] else 0 }

  lemma ScalarOfWellFormed(b: seq<Byte>)
    requires |b| >= 1 && SequenceLength(b[0]) == |b|
    requires forall i :: 1 <= i < |b| ==> Continues(b[0], i, b[i])
    ensures IsScalar(Scalar(b))
  {
    if |b| == 2 {
      assert 0x80 <= b[1] <= 0xBF;
    } else if |b| == 3 {
      assert Continues(b[0], 1, b[1]) && Continues(b[0], 2, b[2]);
    } else if |b| == 4 {
      assert Continues(b[0], 1, b[1]) && Continues(b[0], 2, b[2]) && Continues(b[0], 3, b[3]);
    }
  }

  /** `buffer.toString('utf8')`: each maximal ill-formed subpart becomes one U+FFFD. */
  function Utf8Decode(b: seq<Byte>): string
    decreases |b|
  {
    if |b| == 0 then ""
    else
      var n := SequenceLength(b[0]);
      if n == 0 then ['\U{FFFD}'] + Utf8Decode(b[1..])
      else
        var j := Accepted(b, n, 1);
        if j == n then
          ScalarOfWellFormed(b[..n]);
          [Scalar(b[..n]) as char] + Utf8Decode(b[n..])
        else ['\U{FFFD}'] + Utf8Decode(b[j..])
  }

  /** The bytes of one character are well formed and decode back to it. */
  lemma CharWellFormed(c: char)
    ensures var b := Utf8Char(c);
      SequenceLength(b[0]) == |b| && (forall i :: 1 <= i < |b| ==> Continues(b[0], i, b[i]))
      && Scalar(b) == c as int
  {
    var n := c as int;
    var b := Utf8Char(c);
    if n < 0x80 {
    } else if n < 0x800 {
      assert b[0] == 0xC0 + n / 64;
    } else if n < 0x1_0000 {
      assert b == [0xE0 + n / 4096, 0x80 + (n / 64) % 64, 0x80 + n % 64];
      assert n / 64 == (n / 4096) * 64 + (n / 64) % 64;
    } else {
      assert b == [0xF0 + n / 262144, 0x80 + (n / 4096) % 64, 0x80 + (n / 64) % 64, 0x80 + n % 64];
      assert n / 4096 == (n / 262144) * 64 + (n / 4096) % 64;
      assert n / 64 == (n / 4096) * 64 + (n / 64) % 64;
    }
  }

  lemma DecodeChar(c: char, rest: seq<Byte>)
    ensures Utf8Decode(Utf8Char(c) + rest) == [c] + Utf8Decode(rest)
  {
    var b := Utf8Char(c);
    var s := b + rest;
    CharWellFormed(c);
    assert s[..|b|] == b && s[|b|..] == rest;
    assert forall i :: 1 <= i < |b| ==> s[i] == b[i];
    var j := Accepted(s, |b|, 1);
    assert j == |b|;
  }

  /** Decoding recovers every string from its UTF-8 bytes. */
  lemma {:induction false} Utf8RoundTrip(s: string)
    ensures Utf8Decode(Utf8Encode(s)) == s
  {
    if |s| > 0 {
      DecodeChar(s[0], Utf8Encode(s[1..]));
      Utf8RoundTrip(s[1..]);
    }
  }
}
