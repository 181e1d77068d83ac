/** The two PHP built-ins the credit reward processor relies on, restricted to the
    inputs it actually sees: `intval` on a string (the award value) and
    `sprintf('%d', …)` on an integer (the award id inside the transaction number).
    PHP integers are modelled as unbounded `int`. */
module Php {

  datatype Option<+T> = None | Some(value: T)

  predicate IsDigit(c: char) {
    '0' <= c <= '9'
  }

  predicate AllDigits(s: string) {
    forall i :: 0 <= i < |s| ==> IsDigit(s[i])
  }

  /** True when `s` does not continue with a decimal digit. */
  predicate StopsNumber(s: string) {
    s == [] || !IsDigit(s[0])
  }

  function DigitValue(c: char): (d: nat)
    requires IsDigit(c)
    ensures d < 10
  {
    c as int - '0' as int
  }

  function DigitChar(d: nat): (c: char)
    requires d < 10
    ensures IsDigit(c) && DigitValue(c) == d
  {
    ('0' as int + d) as char
  }

  /** The longest prefix of `s` made of decimal digits. */
  function LeadingDigits(s: string): (d: string)
    ensures |d| <= |s| && d == s[..|d|]
    ensures AllDigits(d)
    ensures StopsNumber(s[|d|..])
  {
    if |s| > 0 && IsDigit(s[0]) then [s[0]] + LeadingDigits(s[1..]) else []
  }

  /** The value of a string of decimal digits, most significant digit first. */
  function DigitsValue(d: string): nat
    requires AllDigits(d)
  {
    if d == [] then 0 else DigitsValue(d[..|d| - 1]) * 10 + DigitValue(d[|d| - 1])
  }

  /** `intval($s)` for a string: an optional sign, then the leading decimal digits,
      anything after them ignored; a string with no leading digits gives 0. */
  function IntVal(s: string): int {
    if |s| > 0 && s[0] == '-' then -(DigitsValue(LeadingDigits(s[1..])) as int)
    else if |s| > 0 && s[0] == '+' then DigitsValue(LeadingDigits(s[1..]))
    else DigitsValue(LeadingDigits(s))
  }

  /** Decimal digits of a natural number, without leading zeros. */
  function FormatNat(n: nat): (s: string)
    ensures |s| > 0 && AllDigits(s)
    ensures s[0] == '0' ==> n == 0 && s == "0"
  {
    if n < 10 then [DigitChar(n)] else FormatNat(n / 10) + [DigitChar(n % 10)]
  }

  /** `sprintf('%d', $n)`: a minus sign for negative numbers, then the digits. */
  function FormatInt(n: int): (s: string)
    ensures |s| > 0
    ensures n < 0 <==> s[0] == '-'
    ensures n >= 0 ==> AllDigits(s)
  {
    if n < 0 then "-" + FormatNat(-n) else FormatNat(n)
  }

  lemma {:induction false} DigitsValueOfFormatNat(n: nat)
    ensures DigitsValue(FormatNat(n)) == n
  {
    if n >= 10 {
      var s := FormatNat(n);
      assert s[..|s| - 1] == FormatNat(n / 10);
      DigitsValueOfFormatNat(n / 10);
    }
  }

  lemma {:induction false} LeadingDigitsOfDigitsThenStop(d: string, rest: string)
    requires AllDigits(d) && StopsNumber(rest)
    ensures LeadingDigits(d + rest) == d
  {
    if d != [] {
      assert (d + rest)[1..] == d[1..] + rest;
      LeadingDigitsOfDigitsThenStop(d[1..], rest);
    }
  }

  /** `intval` of a digit string followed by text that does not continue the number. */
  lemma IntValOfDigits(d: string, rest: string)
    requires |d| > 0 && AllDigits(d) && StopsNumber(rest)
    ensures IntVal(d + rest) == DigitsValue(d)
  {
    var s := d + rest;
    assert s[0] == d[0] && IsDigit(s[0]);
    assert IntVal(s) == DigitsValue(LeadingDigits(s));
    LeadingDigitsOfDigitsThenStop(d, rest);
  }

  /** After a minus sign, `intval` negates the value of the leading digits. */
  lemma IntValAfterMinus(t: string)
    ensures IntVal(['-'] + t) == -(DigitsValue(LeadingDigits(t)) as int)
  {
  }

  /** `intval` reads back what `%d` printed, even when other text follows
      the number (as in "100 points"). */
  lemma IntValOfFormatInt(n: int, rest: string)
    requires StopsNumber(rest)
    ensures IntVal(FormatInt(n) + rest) == n
  {
    if n < 0 {
      var digits := FormatNat(-n);
      assert FormatInt(n) + rest == ['-'] + (digits + rest);
      IntValAfterMinus(digits + rest);
      LeadingDigitsOfDigitsThenStop(digits, rest);
      DigitsValueOfFormatNat(-n);
    } else {
      IntValOfDigits(FormatNat(n), rest);
      DigitsValueOfFormatNat(n);
    }
  }

  /** A string whose first character after an optional sign is not a digit
      (the empty string, "abc", "-x") has the value 0. */
  lemma IntValWithoutDigits(s: string)
    requires if |s| > 0 && (s[0] == '-' || s[0] == '+') then StopsNumber(s[1..]) else StopsNumber(s)
    ensures IntVal(s) == 0
  {
  }
}
