/**
 * The parts of Go's `strconv` and `strings` packages that the provider relies on:
 * `strconv.Itoa` (task slot names), `strconv.Atoi` (version components) and
 * `strings.HasPrefix` (event actions).
 */
module Strconv {
  import opened Results

  predicate IsDigit(c: char) { '0' <= c <= '9' }

  predicate AllDigits(s: string) { forall i :: 0 <= i < |s| ==> IsDigit(s[i]) }

  function DigitChar(d: nat): (c: char)
    requires d < 10
    ensures IsDigit(c) && c as int - '0' as int == d
  {
    ('0' as int + d) as char
  }

  /** The shortest decimal form of `n`. */
  function NatToDecimal(n: nat): (s: string)
    ensures |s| >= 1 && AllDigits(s)
    decreases n
  {
    if n < 10 then [DigitChar(n)] else NatToDecimal(n / 10) + [DigitChar(n % 10)]
  }

  /** strconv.Itoa: the decimal form of `i`, with a leading '-' exactly when `i` is negative. */
  function Itoa(i: int): (s: string)
    ensures |s| >= 1
    ensures s[0] == '-' <==> i < 0
  {
    if i < 0 then "-" + NatToDecimal(-i) else NatToDecimal(i)
  }

  /** The value of a string of decimal digits (most significant first). */
  function DigitsValue(s: string): nat
    requires AllDigits(s)
  {
    if s == [] then 0
    else
      DigitsValue(s[..|s| - 1]) * 10 + (s[|s| - 1] as int - '0' as int)
  }

  /**
   * strconv.Atoi, without its 64-bit range check: an optional '+' or '-' followed by
   * at least one decimal digit; anything else is a syntax error (None).
   */
  function Atoi(s: string): (r: Option<int>)
  {
    if |s| > 0 && (s[0] == '-' || s[0] == '+') then
      var digits := s[1..];
      if |digits| > 0 && AllDigits(digits) then
        var n: int := DigitsValue(digits);
        var v := if s[0] == '-' then -n else n;
        Some(v)
      else None
    else if |s| > 0 && AllDigits(s) then Some(DigitsValue(s))
    else None
  }

  /** Reading back the decimal form of a natural number gives the number. */
  lemma {:induction false} DecimalRoundTrip(n: nat)
    ensures DigitsValue(NatToDecimal(n)) == n
    decreases n
  {
    if n >= 10 {
      var s := NatToDecimal(n);
      assert s == NatToDecimal(n / 10) + [DigitChar(n % 10)];
      assert s[..|s| - 1] == NatToDecimal(n / 10);
      DecimalRoundTrip(n / 10);
    }
  }

  /** Atoi inverts Itoa. */
  lemma ItoaRoundTrip(i: int)
    ensures Atoi(Itoa(i)) == Some(i)
  {
    if i < 0 {
      var d := NatToDecimal(-i);
      assert ("-" + d)[1..] == d;
      DecimalRoundTrip(-i);
    } else {
      DecimalRoundTrip(i);
    }
  }

  /** Distinct integers have distinct decimal forms. */
  lemma ItoaInjective(i: int, j: int)
    ensures Itoa(i) == Itoa(j) ==> i == j
  {
    ItoaRoundTrip(i);
    ItoaRoundTrip(j);
  }

  /** strings.HasPrefix. */
  predicate HasPrefix(s: string, prefix: string)
  {
    |prefix| <= |s| && s[..|prefix|] == prefix
  }
}
