/** Decimal formatting and the strconv parsers the handlers use on path parameters. */
module Format {
  import opened Common

  const MinInt64: int := -0x8000_0000_0000_0000
  const MaxInt64: int := 0x7FFF_FFFF_FFFF_FFFF
  const MaxUint32: int := 0xFFFF_FFFF
  const TwoTo64: int := 0x1_0000_0000_0000_0000

  predicate IsDigit(c: char) {
    '0' <= c <= '9'
  }

  predicate AllDigits(s: string) {
    forall i :: 0 <= i < |s| ==> IsDigit(s[i])
  }

  function DigitValue(c: char): nat
    requires IsDigit(c)
  {
    c as int - '0' as int
  }

  function DigitChar(d: nat): (c: char)
    requires d < 10
    ensures IsDigit(c) && DigitValue(c) == d
  {
    (d + '0' as int) as char
  }

  /** The value of a string of decimal digits, most significant first; leading zeros allowed. */
  function DigitsValue(s: string): nat
    requires AllDigits(s)
  {
    if s == [] then 0 else DigitsValue(s[..|s| - 1]) * 10 + DigitValue(s[|s| - 1])
  }

  /** `%d` / strconv.FormatInt of a non-negative number: digits only, no leading zero. */
  function NatToDecimal(n: nat): (s: string)
    ensures |s| >= 1 && AllDigits(s)
    ensures s[0] == '0' <==> n == 0
    decreases n
  {
    if n < 10 then [DigitChar(n)] else NatToDecimal(n / 10) + [DigitChar(n % 10)]
  }

  /** `%d` / strconv.FormatInt(i, 10): a minus sign for negative numbers. */
  function IntToDecimal(i: int): (s: string)
    ensures |s| >= 1
    ensures s[0] == '-' <==> i < 0
  {
    if i < 0 then "-" + NatToDecimal(-i) else NatToDecimal(i)
  }

  /** The pieces of a fmt.Sprintf result, every verb already rendered, joined in order. */
  function Join(parts: seq<string>): string {
    if parts == [] then "" else Join(parts[..|parts| - 1]) + parts[|parts| - 1]
  }

  /** strconv.ParseUint(s, 10, 32): one or more digits, no sign, at most 2^32 - 1. */
  function ParseUint32(s: string): (r: Option<nat>)
    ensures r.Some? ==> r.value <= MaxUint32
  {
    if |s| > 0 && AllDigits(s) && DigitsValue(s) <= MaxUint32 then Some(DigitsValue(s)) else None
  }

  /** strconv.Atoi on a 64-bit platform: an optional sign, one or more digits, within int64. */
  function Atoi(s: string): (r: Option<int>)
    ensures r.Some? ==> MinInt64 <= r.value <= MaxInt64
  {
    var signed := |s| > 0 && (s[0] == '+' || s[0] == '-');
    var body := if signed then s[1..] else s;
    if |body| == 0 || !AllDigits(body) then None
    else
      var v: int := if signed && s[0] == '-' then 0 - DigitsValue(body) as int else DigitsValue(body);
      if MinInt64 <= v <= MaxInt64 then Some(v) else None
  }

  /** Go's `uint(i)` conversion of an int on a 64-bit platform: two's-complement wrap-around. */
  function ToUint64(i: int): (u: nat)
    ensures u < TwoTo64
    ensures 0 <= i < TwoTo64 ==> u == i
    ensures i < 0 && MinInt64 <= i ==> u == TwoTo64 + i
  {
    i % TwoTo64
  }

  /** Reading back what NatToDecimal writes gives the number. */
  lemma {:induction false} DecimalRoundTrip(n: nat)
    ensures DigitsValue(NatToDecimal(n)) == n
  {
    var s := NatToDecimal(n);
    if n >= 10 {
      var p := NatToDecimal(n / 10);
      assert s == p + [DigitChar(n % 10)];
      assert s[..|s| - 1] == p;
      DecimalRoundTrip(n / 10);
    }
  }

  /** Numbers from 1000 to 9999 are written with exactly four digits. */
  lemma FourDigits(n: nat)
    requires 1000 <= n <= 9999
    ensures |NatToDecimal(n)| == 4
  {
    assert |NatToDecimal(n / 1000)| == 1;
    assert |NatToDecimal(n / 100)| == 2;
    assert |NatToDecimal(n / 10)| == 3;
  }

  /** ParseUint32 accepts exactly what FormatUint writes for every 32-bit value. */
  lemma Uint32RoundTrip(n: nat)
    requires n <= MaxUint32
    ensures ParseUint32(NatToDecimal(n)) == Some(n)
  {
    DecimalRoundTrip(n);
  }

  /** Atoi reads back every int64 that IntToDecimal writes. */
  lemma IntRoundTrip(i: int)
    requires MinInt64 <= i <= MaxInt64
    ensures Atoi(IntToDecimal(i)) == Some(i)
  {
    var s := IntToDecimal(i);
    if i < 0 {
      assert s[1..] == NatToDecimal(-i);
      DecimalRoundTrip(-i);
    } else {
      DecimalRoundTrip(i);
    }
  }
}
