/**
 * `std::to_string` and `std::stoull` on 64-bit view ids: the text form a
 * native-function proxy carries in its data object, and how it is read back
 * when the script calls the proxy.
 */
module Decimal {
  import opened Types

  predicate IsDigit(c: char) {
    '0' <= c <= '9'
  }

  function DigitChar(d: nat): (c: char)
    requires d < 10
    ensures IsDigit(c)
  {
    ('0' as int + d) as char
  }

  function DigitValue(c: char): (d: nat)
    requires IsDigit(c)
    ensures d < 10 && DigitChar(d) == c
  {
    c as int - '0' as int
  }

  /** `std::to_string` of an unsigned integer: decimal digits, most significant first, no leading zero. */
  function ToString(n: nat): (s: string)
    decreases n
  {
    if n < 10 then [DigitChar(n)] else ToString(n / 10) + [DigitChar(n % 10)]
  }

  /** The value of a string of decimal digits. */
  function DecimalValue(s: string): nat
    requires forall i :: 0 <= i < |s| ==> IsDigit(s[i])
  {
    if s == [] then 0 else 10 * DecimalValue(s[..|s| - 1]) + DigitValue(s[|s| - 1])
  }

  /** The length of the longest prefix of `s` made of decimal digits. */
  function DigitPrefixLength(s: string): (k: nat)
    ensures k <= |s|
    ensures forall i :: 0 <= i < k ==> IsDigit(s[i])
    ensures k < |s| ==> !IsDigit(s[k])
  {
    if s == [] || !IsDigit(s[0]) then 0 else 1 + DigitPrefixLength(s[1..])
  }

  /** The two exceptions `std::stoull` throws. */
  datatype ParseError = InvalidArgument | OutOfRange

  datatype ParseResult = Parsed(value: u64) | Failed(error: ParseError)

  /**
   * `std::stoull(s)` in base 10: reads the longest run of leading digits;
   * no digit at all is `invalid_argument`, a value beyond 64 bits is
   * `out_of_range`.
   */
  function Stoull(s: string): (r: ParseResult)
    ensures r.Failed? && r.error == InvalidArgument <==> (s == [] || !IsDigit(s[0]))
  {
    var k := DigitPrefixLength(s);
    if k == 0 then Failed(InvalidArgument)
    else
      var v := DecimalValue(s[..k]);
      if v < U64_LIMIT then Parsed(v) else Failed(OutOfRange)
  }

  lemma {:induction false} ToStringDigits(n: nat)
    ensures |ToString(n)| >= 1
    ensures forall i :: 0 <= i < |ToString(n)| ==> IsDigit(ToString(n)[i])
    ensures |ToString(n)| > 1 ==> ToString(n)[0] != '0'
    decreases n
  {
    if n >= 10 {
      ToStringDigits(n / 10);
    }
  }

  lemma {:induction false} DecimalValueOfToString(n: nat)
    ensures forall i :: 0 <= i < |ToString(n)| ==> IsDigit(ToString(n)[i])
    ensures DecimalValue(ToString(n)) == n
    decreases n
  {
    ToStringDigits(n);
    if n >= 10 {
      DecimalValueOfToString(n / 10);
      var s := ToString(n);
      assert s[..|s| - 1] == ToString(n / 10);
    }
  }

  lemma {:induction false} AllDigitsPrefix(s: string)
    requires forall i :: 0 <= i < |s| ==> IsDigit(s[i])
    ensures DigitPrefixLength(s) == |s|
    decreases |s|
  {
    if s != [] {
      AllDigitsPrefix(s[1..]);
    }
  }

  /** Every 64-bit view id survives the trip through its decimal text. */
  lemma {:induction false} StoullToString(id: u64)
    ensures Stoull(ToString(id)) == Parsed(id)
  {
    var s := ToString(id);
    ToStringDigits(id);
    AllDigitsPrefix(s);
    DecimalValueOfToString(id);
    assert s[..|s|] == s;
  }
}
