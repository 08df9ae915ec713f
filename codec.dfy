/** Base16 (section 8 of RFC 4648) and decimal text of integers, as the `B(..)` and `BN(..)`
    constructors use them. */
module Codec {
  import opened Values
  import opened Text

  // ---------------------------------------------------------------- base16

  /** Upper-case hex digit for `0 <= d < 16`. */
  function HexDigitUpper(d: int): (c: char)
    requires 0 <= d < 16
    ensures IsHexDigit(c) && !('a' <= c <= 'f')
  {
    if d < 10 then ('0' as int + d) as char else ('A' as int + d - 10) as char
  }

  /** The value of one hex digit; either case is accepted. */
  function HexValue(c: char): (d: int)
    requires IsHexDigit(c)
    ensures 0 <= d < 16
  {
    if IsDigit(c) then c as int - '0' as int
    else if 'a' <= c <= 'f' then c as int - 'a' as int + 10
    else c as int - 'A' as int + 10
  }

  lemma HexDigitRoundTrip(d: int)
    requires 0 <= d < 16
    ensures HexValue(HexDigitUpper(d)) == d
  {
  }

  /** Two upper-case hex digits per byte, most significant first: Rust's `{:02X}`,
      Go's `strings.ToUpper(hex.EncodeToString(..))`, Python's `bytes.hex().upper()`. */
  function HexUpper(bs: seq<byte>): (r: string)
    ensures |r| == 2 * |bs|
  {
    if bs == [] then ""
    else [HexDigitUpper(bs[0] / 16), HexDigitUpper(bs[0] % 16)] + HexUpper(bs[1..])
  }

  /** Upper-case form of a character; only `a`..`f` matter here. */
  function UpperHexChar(c: char): char
  {
    if 'a' <= c <= 'f' then (c as int - 32) as char else c
  }

  function UpperHex(s: string): (r: string)
    ensures |r| == |s|
  {
    if s == [] then "" else [UpperHexChar(s[0])] + UpperHex(s[1..])
  }

  /** Go's `hex.DecodeString` and Python's `binascii.unhexlify`: an even number of hex
      digits of either case, two per byte; anything else is an error. */
  function HexDecode(s: string): (r: Option<seq<byte>>)
    ensures r.Some? ==> |s| == 2 * |r.value|
    decreases |s|
  {
    if s == [] then Some([])
    else if |s| == 1 || !IsHexDigit(s[0]) || !IsHexDigit(s[1]) then None
    else match HexDecode(s[2..])
      case None => None
      case Some(rest) => Some([(16 * HexValue(s[0]) + HexValue(s[1])) as byte] + rest)
  }

  /** Decoding inverts encoding. */
  lemma {:induction false} HexRoundTrip(bs: seq<byte>)
    ensures HexDecode(HexUpper(bs)) == Some(bs)
  {
    if bs != [] {
      var h := HexUpper(bs);
      assert h[2..] == HexUpper(bs[1..]);
      HexRoundTrip(bs[1..]);
      HexDigitRoundTrip(bs[0] / 16);
      HexDigitRoundTrip(bs[0] % 16);
      assert [bs[0]] + bs[1..] == bs;
    }
  }

  /** Encoding a digit's value gives the digit in upper case. */
  lemma HexDigitUpperValue(c: char)
    requires IsHexDigit(c)
    ensures HexDigitUpper(HexValue(c)) == UpperHexChar(c)
  {
  }

  /** The two digits of a decoded byte are the two digits it was decoded from. */
  lemma HexByteDigits(x: char, y: char)
    requires IsHexDigit(x) && IsHexDigit(y)
    ensures var b := (16 * HexValue(x) + HexValue(y)) as byte;
      HexDigitUpper(b / 16) == UpperHexChar(x) && HexDigitUpper(b % 16) == UpperHexChar(y)
  {
    var b := (16 * HexValue(x) + HexValue(y)) as byte;
    assert b / 16 == HexValue(x) && b % 16 == HexValue(y);
    HexDigitUpperValue(x);
    HexDigitUpperValue(y);
  }

  /** Decoding is case-insensitive and the encoder writes upper case: whatever text decodes,
      re-encoding its bytes gives that text in upper case. */
  lemma {:induction false} HexDecodeThenEncode(s: string)
    requires HexDecode(s).Some?
    ensures HexUpper(HexDecode(s).value) == UpperHex(s)
    decreases |s|
  {
    if s != [] {
      HexDecodeThenEncode(s[2..]);
      HexByteDigits(s[0], s[1]);
      assert UpperHex(s) == [UpperHexChar(s[0])] + UpperHex(s[1..]);
      assert UpperHex(s[1..]) == [UpperHexChar(s[1])] + UpperHex(s[2..]);
    }
  }

  /** The text the encoder writes contains only parenthesis-free, blank-free hex digits. */
  lemma {:induction false} HexUpperChars(bs: seq<byte>)
    ensures forall i :: 0 <= i < |HexUpper(bs)| ==> IsHexDigit(HexUpper(bs)[i]) && !('a' <= HexUpper(bs)[i] <= 'f')
  {
    if bs != [] { HexUpperChars(bs[1..]); }
  }

  // ---------------------------------------------------------------- decimal integers

  const MinI64: int := -0x8000_0000_0000_0000
  const MaxI64: int := 0x7FFF_FFFF_FFFF_FFFF

  predicate InI64(n: int) { MinI64 <= n <= MaxI64 }

  predicate AllDigits(s: string) { forall i :: 0 <= i < |s| ==> IsDigit(s[i]) }

  /** The value of a run of decimal digits. */
  function DigitsValue(s: string): (n: nat)
    requires AllDigits(s)
  {
    if s == [] then 0 else 10 * DigitsValue(s[..|s| - 1]) + (s[|s| - 1] as int - '0' as int)
  }

  /** The decimal digits of `n`, without leading zeros. */
  function NatDigits(n: nat): (r: string)
    ensures |r| > 0 && AllDigits(r)
  {
    if n < 10 then [('0' as int + n) as char]
    else NatDigits(n / 10) + [('0' as int + n % 10) as char]
  }

  /** Decimal text of an integer: `i64::to_string`, `big.Int.String`, `%d`, Python `str(int)`. */
  function DecimalString(n: int): (r: string)
    ensures |r| > 0
  {
    if n < 0 then "-" + NatDigits(-n) else NatDigits(n)
  }

  lemma {:induction false} NatDigitsRoundTrip(n: nat)
    ensures DigitsValue(NatDigits(n)) == n
  {
    if n >= 10 {
      var r := NatDigits(n);
      NatDigitsRoundTrip(n / 10);
      assert r[..|r| - 1] == NatDigits(n / 10);
    }
  }

  /** No leading zero: the first digit is `0` only for zero itself. */
  lemma {:induction false} NatDigitsNoLeadingZero(n: nat)
    ensures NatDigits(n)[0] == '0' <==> n == 0
  {
    if n >= 10 { NatDigitsNoLeadingZero(n / 10); }
  }

  /** Signed decimal text `[+-]?[0-9]+` (the `+` only when `allowPlus`), read exactly:
      Rust's `str::parse::<i64>` (before its range check), Go's `big.Int.SetString(s, 10)`
      and `strconv.ParseInt(s, 10, 64)`, Python's `re.match('^-?[0-9]+$')` then `int`. */
  function SignedDecimal(s: string, allowPlus: bool): (r: Option<int>)
  {
    if |s| > 0 && (s[0] == '-' || (allowPlus && s[0] == '+')) then
      if |s| > 1 && AllDigits(s[1..]) then Some(if s[0] == '-' then 0 - DigitsValue(s[1..]) else DigitsValue(s[1..]) as int)
      else None
    else if |s| > 0 && AllDigits(s) then Some(DigitsValue(s))
    else None
  }

  /** Reading the decimal text of any integer gives the integer back. */
  lemma DecimalRoundTrip(n: int, allowPlus: bool)
    ensures SignedDecimal(DecimalString(n), allowPlus) == Some(n)
  {
    if n < 0 {
      assert DecimalString(n)[1..] == NatDigits(-n);
      NatDigitsRoundTrip(-n);
    } else {
      NatDigitsRoundTrip(n);
    }
  }

  /** The decimal text of an integer is `-?(0|[1-9][0-9]*)`. */
  lemma DecimalStringShape(n: int)
    ensures var r := DecimalString(n);
      (r[0] == '-' <==> n < 0) &&
      var d := if n < 0 then r[1..] else r;
      |d| > 0 && AllDigits(d) && (d[0] == '0' ==> |d| == 1)
  {
    var d := if n < 0 then NatDigits(-n) else NatDigits(n);
    if n < 0 { assert DecimalString(n)[1..] == d; }
    NatDigitsNoLeadingZero(if n < 0 then -n else n);
    if d[0] == '0' {
      assert (if n < 0 then -n else n) == 0;
      assert |d| == 1;
    }
  }
  /** The decimal text of an integer holds only a sign and digits. */
  lemma DecimalStringFree(n: int, c: char)
    requires c != '-' && !IsDigit(c)
    ensures Free(DecimalString(n), c)
  {
    var r := DecimalString(n);
    DecimalStringShape(n);
    forall i | 0 <= i < |r| ensures r[i] != c {
      if n < 0 && i > 0 { assert r[i] == r[1..][i - 1]; }
    }
  }

}
