/** Hex text as the facilitator handles it: lower-casing for keys, decoding for the chain. */
module Hex {
  import opened Prelude

  type Byte = x: int | 0 <= x < 256 witness 0
  type Bytes = seq<Byte>

  /** toLowerCase on one ASCII character. */
  function LowerChar(c: char): char {
    if 'A' <= c <= 'Z' then (c as int + 32) as char else c
  }

  function Lower(s: string): string {
    seq(|s|, i requires 0 <= i < |s| => LowerChar(s[i]))
  }

  /** toUpperCase, as used on asset symbols. */
  function Upper(s: string): string {
    seq(|s|, i requires 0 <= i < |s| => if 'a' <= s[i] <= 'z' then (s[i] as int - 32) as char else s[i])
  }

  function Digit(c: char): Option<Byte> {
    if '0' <= c <= '9' then Some(c as int - '0' as int)
    else if 'a' <= c <= 'f' then Some(c as int - 'a' as int + 10)
    else if 'A' <= c <= 'F' then Some(c as int - 'A' as int + 10)
    else None
  }

  /** Buffer.from(s, 'hex'): decoding stops at the first pair that is not two hex digits. */
  function Decode(s: string): Bytes {
    if |s| < 2 then []
    else
      match (Digit(s[0]), Digit(s[1]))
      case (Some(hi), Some(lo)) => if hi < 16 && lo < 16 then [16 * hi + lo] + Decode(s[2..]) else []
      case _ => []
  }

  /** The bytes behind a `0x…` literal. */
  function ToBytes(s: string): Bytes {
    if |s| < 2 then [] else Decode(s[2..])
  }

  predicate IsHex(s: string) {
    forall i :: 0 <= i < |s| ==> Digit(s[i]).Some?
  }

  lemma {:induction false} DecodeIgnoresCase(s: string)
    ensures Decode(Lower(s)) == Decode(s)
  {
    if |s| >= 2 {
      assert Lower(s)[2..] == Lower(s[2..]);
      DecodeIgnoresCase(s[2..]);
    }
  }

  /** Lower-casing a signature, a nonce or an address never changes the bytes that reach the chain. */
  lemma ToBytesIgnoresCase(s: string)
    ensures ToBytes(Lower(s)) == ToBytes(s)
  {
    if |s| >= 2 {
      assert Lower(s)[2..] == Lower(s[2..]);
      DecodeIgnoresCase(s[2..]);
    }
  }

  /** Two texts that agree up to case denote the same bytes. */
  lemma SameLowerSameBytes(a: string, b: string)
    requires Lower(a) == Lower(b)
    ensures ToBytes(a) == ToBytes(b)
  {
    ToBytesIgnoresCase(a);
    ToBytesIgnoresCase(b);
  }

  lemma {:induction false} DecodeLength(s: string)
    requires IsHex(s) && |s| % 2 == 0
    ensures |Decode(s)| == |s| / 2
  {
    if |s| >= 2 {
      assert IsHex(s[2..]);
      DecodeLength(s[2..]);
    }
  }

  // ---------------------------------------------------------------- what case-insensitive means

  /** The same character, or the two cases of one letter. */
  predicate SameLetter(c: char, d: char) {
    c == d
    || ('A' <= c <= 'Z' && d as int == c as int + 32)
    || ('a' <= c <= 'z' && d as int == c as int - 32)
  }

  predicate SameText(a: string, b: string) {
    |a| == |b| && forall i :: 0 <= i < |a| ==> SameLetter(a[i], b[i])
  }

  /** Two texts agree after lower-casing, and after upper-casing, if and only if they are the same up to the case of
      their letters. */
  lemma CaseIgnoredExactly(a: string, b: string)
    ensures Lower(a) == Lower(b) <==> SameText(a, b)
    ensures Upper(a) == Upper(b) <==> SameText(a, b)
  {
    if Lower(a) == Lower(b) {
      assert |Lower(a)| == |Lower(b)|;
      forall i | 0 <= i < |a| ensures SameLetter(a[i], b[i]) { assert Lower(a)[i] == Lower(b)[i]; }
    }
    if Upper(a) == Upper(b) {
      assert |Upper(a)| == |Upper(b)|;
      forall i | 0 <= i < |a| ensures SameLetter(a[i], b[i]) { assert Upper(a)[i] == Upper(b)[i]; }
    }
  }

  /** Lower- and upper-casing give a text without letters of the other case that is the same up to case. */
  lemma CasesOf(s: string)
    ensures SameText(s, Lower(s)) && forall i :: 0 <= i < |Lower(s)| ==> !('A' <= Lower(s)[i] <= 'Z')
    ensures SameText(s, Upper(s)) && forall i :: 0 <= i < |Upper(s)| ==> !('a' <= Upper(s)[i] <= 'z')
  {
  }

  // ---------------------------------------------------------------- decoding undoes encoding

  function DigitOf(n: nat): char
    requires n < 16
  {
    "0123456789abcdef"[n]
  }

  function Encode(bytes: Bytes): string {
    if bytes == [] then "" else [DigitOf(bytes[0] / 16), DigitOf(bytes[0] % 16)] + Encode(bytes[1..])
  }

  lemma {:induction false} DecodeEncode(bytes: Bytes)
    ensures Decode(Encode(bytes)) == bytes
  {
    if bytes != [] {
      DecodeEncode(bytes[1..]);
      assert Encode(bytes)[2..] == Encode(bytes[1..]);
      DigitRoundTrip(bytes[0] / 16);
      DigitRoundTrip(bytes[0] % 16);
    }
  }

  /** Every byte string comes back from its hexadecimal literal. */
  lemma ToBytesOfEncode(bytes: Bytes)
    ensures ToBytes("0x" + Encode(bytes)) == bytes
  {
    DecodeEncode(bytes);
    assert ("0x" + Encode(bytes))[2..] == Encode(bytes);
  }

  lemma DigitRoundTrip(n: nat)
    requires n < 16
    ensures Digit(DigitOf(n)) == Some(n)
  {
  }
}
