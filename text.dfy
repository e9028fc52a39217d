/**
 * The two textual formats the cache file name is built from: the lower-case hexadecimal
 * rendering of the MD5 digest (`"%02x"` per byte, joined without a separator) and the
 * decimal rendering of an integer (string interpolation of an `Int`). Each is given with
 * a parser and a round-trip lemma, which is what makes the file name injective.
 */
module Text {
  import opened Common

  predicate IsLowerHexDigit(c: char) {
    '0' <= c <= '9' || 'a' <= c <= 'f'
  }

  predicate IsDecimalDigit(c: char) {
    '0' <= c <= '9'
  }

  /** The `%x` digit for a value below 16. */
  function HexDigit(n: nat): (c: char)
    requires n < 16
    ensures IsLowerHexDigit(c)
  {
    if n < 10 then ('0' as int + n) as char else ('a' as int + n - 10) as char
  }

  function HexValue(c: char): (n: nat)
    requires IsLowerHexDigit(c)
    ensures n < 16
  {
    if c <= '9' then c as int - '0' as int else c as int - 'a' as int + 10
  }

  /** `String.format("%02x", b)` for an unsigned byte: always two digits, high nibble first. */
  function ByteHex(b: byte): (s: string)
    ensures |s| == 2 && IsLowerHexDigit(s[0]) && IsLowerHexDigit(s[1])
    ensures HexValue(s[0]) * 16 + HexValue(s[1]) == b as int
  {
    [HexDigit(b as int / 16), HexDigit(b as int % 16)]
  }

  /** The hexadecimal rendering of a digest, as the iOS `md5` builds it from `UInt8`s. */
  function Md5Hex(d: seq<byte>): (s: string)
    ensures |s| == 2 * |d|
    ensures forall i | 0 <= i < |s| :: IsLowerHexDigit(s[i])
  {
    if d == [] then "" else ByteHex(d[0]) + Md5Hex(d[1..])
  }

  /** Reads pairs of lower-case hex digits back into bytes. */
  function ParseHex(s: string): Option<seq<byte>>
    decreases |s|
  {
    if s == [] then Some([])
    else if |s| == 1 || !IsLowerHexDigit(s[0]) || !IsLowerHexDigit(s[1]) then None
    else
      match ParseHex(s[2..])
      case None => None
      case Some(rest) => Some([(HexValue(s[0]) * 16 + HexValue(s[1])) as byte] + rest)
  }

  /** The hexadecimal rendering loses nothing: parsing it gives the digest back. */
  lemma {:induction false} Md5HexRoundTrip(d: seq<byte>)
    ensures ParseHex(Md5Hex(d)) == Some(d)
  {
    if d != [] {
      var s := Md5Hex(d);
      assert s == ByteHex(d[0]) + Md5Hex(d[1..]);
      assert s[2..] == Md5Hex(d[1..]);
      Md5HexRoundTrip(d[1..]);
      assert [d[0]] + d[1..] == d;
    }
  }

  /** Two digests with the same rendering are the same digest. */
  lemma Md5HexInjective(d1: seq<byte>, d2: seq<byte>)
    ensures Md5Hex(d1) == Md5Hex(d2) <==> d1 == d2
  {
    if Md5Hex(d1) == Md5Hex(d2) {
      Md5HexRoundTrip(d1);
      Md5HexRoundTrip(d2);
    }
  }

  /**
   * Java's formatter renders a negative `Byte` under `%x` as its value plus 2^8, so
   * the signed digest of the Android code prints as the unsigned byte with the same bits.
   */
  function Unsigned(b: int8): (u: byte)
    ensures u as int % 0x100 == b as int % 0x100
  {
    if b < 0 then (b as int + 0x100) as byte else b as int as byte
  }

  function UnsignedDigest(d: seq<int8>): (u: seq<byte>)
    ensures |u| == |d|
    ensures forall i | 0 <= i < |d| :: u[i] == Unsigned(d[i])
  {
    seq(|d|, i requires 0 <= i < |d| => Unsigned(d[i]))
  }

  /** The hexadecimal rendering of a digest, as the Android `md5` builds it from Java `Byte`s. */
  function SignedMd5Hex(d: seq<int8>): (s: string)
    ensures |s| == 2 * |d|
    ensures forall i | 0 <= i < |s| :: IsLowerHexDigit(s[i])
  {
    if d == [] then "" else ByteHex(Unsigned(d[0])) + SignedMd5Hex(d[1..])
  }

  /** Both platforms render the same digest bits as the same 2·n lower-case hex digits. */
  lemma {:induction false} SignedMd5HexAgrees(d: seq<int8>)
    ensures SignedMd5Hex(d) == Md5Hex(UnsignedDigest(d))
  {
    if d != [] {
      SignedMd5HexAgrees(d[1..]);
      assert UnsignedDigest(d)[1..] == UnsignedDigest(d[1..]);
    }
  }

  function DigitChar(n: nat): (c: char)
    requires n < 10
    ensures IsDecimalDigit(c)
  {
    ('0' as int + n) as char
  }

  function DigitValue(c: char): (n: nat)
    requires IsDecimalDigit(c)
    ensures n < 10
  {
    c as int - '0' as int
  }

  /** The decimal digits of a natural number, most significant first, without leading zeros. */
  function NatDecimal(n: nat): (s: string)
    ensures |s| >= 1
    ensures forall i | 0 <= i < |s| :: IsDecimalDigit(s[i])
    ensures n < 10 <==> |s| == 1
    ensures n >= 10 ==> s[0] != '0'
    decreases n
  {
    if n < 10 then [DigitChar(n)] else NatDecimal(n / 10) + [DigitChar(n % 10)]
  }

  /** String interpolation of an integer (`"${x}"`, `"\(x)"`): a minus sign, then the digits. */
  function IntDecimal(x: int): (s: string)
    ensures |s| >= 1
    ensures s[0] == '-' <==> x < 0
    ensures s[0] != '-' ==> IsDecimalDigit(s[0])
    ensures forall i | 0 < i < |s| :: IsDecimalDigit(s[i])
    ensures x < 0 ==> |s| >= 2 && s[1] != '0'
    ensures x >= 10 ==> s[0] != '0'
  {
    if x < 0 then "-" + NatDecimal(-x) else NatDecimal(x)
  }

  /** Reads a run of decimal digits; `None` for an empty run or a non-digit. */
  function ParseNat(s: string): Option<nat>
    decreases |s|
  {
    if s == [] || !IsDecimalDigit(s[|s| - 1]) then None
    else if |s| == 1 then Some(DigitValue(s[0]))
    else
      match ParseNat(s[..|s| - 1])
      case None => None
      case Some(high) => Some(high * 10 + DigitValue(s[|s| - 1]))
  }

  function ParseInt(s: string): Option<int> {
    if |s| >= 1 && s[0] == '-' then
      match ParseNat(s[1..])
      case None => None
      case Some(n) => var v: int := 0 - n; Some(v)
    else ParseNat(s)
  }

  lemma {:induction false} NatDecimalRoundTrip(n: nat)
    ensures ParseNat(NatDecimal(n)) == Some(n)
    decreases n
  {
    if n >= 10 {
      var s := NatDecimal(n);
      assert s[..|s| - 1] == NatDecimal(n / 10);
      NatDecimalRoundTrip(n / 10);
    }
  }

  /** A run of decimal digits contains no '.'. */
  lemma DigitsHaveNoDot(s: string)
    requires forall i | 0 <= i < |s| :: IsDecimalDigit(s[i])
    ensures '.' !in s
  {
  }

  /** The decimal rendering of an integer contains no '.' and parses back to the integer. */
  lemma IntDecimalRoundTrip(x: int)
    ensures ParseInt(IntDecimal(x)) == Some(x)
    ensures '.' !in IntDecimal(x)
  {
    var s := IntDecimal(x);
    if x < 0 {
      var d := NatDecimal(-x);
      assert s == "-" + d;
      assert s[1..] == d;
      NatDecimalRoundTrip(-x);
      DigitsHaveNoDot(d);
    } else {
      NatDecimalRoundTrip(x);
      assert IsDecimalDigit(s[0]);
      DigitsHaveNoDot(s);
    }
  }
}
