/**
 * Go's strconv.Atoi on base-10 text: an optional sign followed by one or
 * more ASCII digits, whose value must fit in a 64-bit int; and the decimal
 * rendering of a natural number it inverts.
 */
module Strconv {
  import opened Wrappers

  const MaxInt64 := 0x7fff_ffff_ffff_ffff
  const MinInt64 := -0x8000_0000_0000_0000

  predicate IsDigit(c: char)
  {
    '0' <= c <= '9'
  }

  predicate AllDigits(s: string)
  {
    forall i | 0 <= i < |s| :: IsDigit(s[i])
  }

  /** The value of a string of decimal digits, most significant first. */
  function DecimalValue(s: string): nat
    requires AllDigits(s)
  {
    if |s| == 0 then 0
    else DecimalValue(s[..|s| - 1]) * 10 + (s[|s| - 1] - '0') as int
  }

  /** The sign and the digit part of a numeral. */
  function SplitSign(s: string): (bool, string)
  {
    if |s| > 0 && (s[0] == '+' || s[0] == '-') then (s[0] == '-', s[1..]) else (false, s)
  }

  /** strconv.Atoi: a syntax error or a range error, or the value. */
  function Atoi(s: string): (r: Result<int, string>)
    ensures r.Success? ==> MinInt64 <= r.value <= MaxInt64
    ensures r.Success? ==> |s| > 0 && (IsDigit(s[0]) || (|s| > 1 && (s[0] == '+' || s[0] == '-')))
    ensures r.Success? ==> forall i | 1 <= i < |s| :: IsDigit(s[i])
    ensures r.Success? && IsDigit(s[0]) ==> r.value >= 0
  {
    var (negative, digits) := SplitSign(s);
    if |digits| == 0 || !AllDigits(digits) then Failure("invalid syntax")
    else
      var magnitude: int := DecimalValue(digits);
      var v := if negative then -magnitude else magnitude;
      if v < MinInt64 || v > MaxInt64 then Failure("value out of range") else Success(v)
  }

  /** The shortest decimal rendering of `n`. */
  function DecimalString(n: nat): (s: string)
    ensures |s| > 0 && AllDigits(s) && DecimalValue(s) == n
    ensures n > 0 ==> s[0] != '0'
  {
    var d := ['0' + (n % 10) as char];
    if n < 10 then d
    else
      var prefix := DecimalString(n / 10);
      var s := prefix + d;
      assert s[..|s| - 1] == prefix;
      s
  }

  /** Atoi reads back every rendering that fits in an int64. */
  lemma {:induction false} AtoiDecimalString(n: nat)
    requires n <= MaxInt64
    ensures Atoi(DecimalString(n)) == Success(n)
  {
    var s := DecimalString(n);
    assert SplitSign(s) == (false, s);
  }

  /** A leading minus sign negates the value read. */
  lemma {:induction false} AtoiNegated(n: nat)
    requires n <= -MinInt64
    ensures Atoi("-" + DecimalString(n)) == Success(-(n as int))
  {
    var s := DecimalString(n);
    assert SplitSign("-" + s) == (true, s);
  }

  /** Renderings above the int64 range are rejected, not truncated. */
  lemma {:induction false} AtoiOutOfRange(n: nat)
    requires n > MaxInt64
    ensures Atoi(DecimalString(n)).Failure?
  {
    var s := DecimalString(n);
    assert SplitSign(s) == (false, s);
  }

  /** A leading zero does not change the value of a digit string. */
  lemma {:induction false} LeadingZeroValue(d: string)
    requires AllDigits(d)
    ensures AllDigits("0" + d) && DecimalValue("0" + d) == DecimalValue(d)
  {
    var z := "0" + d;
    assert forall i | 1 <= i < |z| :: z[i] == d[i - 1];
    if |d| > 0 {
      var init := d[..|d| - 1];
      assert z[..|z| - 1] == "0" + init;
      LeadingZeroValue(init);
    }
  }

  /**
   * The converse of Atoi's syntax conditions: every non-empty digit string,
   * bare or after '+' or '-', is read as its value when that value is in
   * range, and rejected when it is not.
   */
  lemma {:induction false} AtoiAccepts(d: string)
    requires |d| > 0 && AllDigits(d)
    ensures DecimalValue(d) <= MaxInt64 ==> Atoi(d) == Success(DecimalValue(d)) && Atoi("+" + d) == Success(DecimalValue(d))
    ensures DecimalValue(d) > MaxInt64 ==> Atoi(d).Failure? && Atoi("+" + d).Failure?
    ensures DecimalValue(d) <= -MinInt64 ==> Atoi("-" + d) == Success(-(DecimalValue(d) as int))
    ensures DecimalValue(d) > -MinInt64 ==> Atoi("-" + d).Failure?
  {
    assert SplitSign(d) == (false, d);
    assert SplitSign("+" + d) == (false, d);
    assert SplitSign("-" + d) == (true, d);
  }

  /** Leading zeros are accepted and ignored. */
  lemma {:induction false} AtoiLeadingZeros(d: string)
    requires |d| > 0 && AllDigits(d)
    ensures Atoi("0" + d) == Atoi(d)
  {
    LeadingZeroValue(d);
    AtoiAccepts(d);
    AtoiAccepts("0" + d);
  }
}
