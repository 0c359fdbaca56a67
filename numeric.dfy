/** The two conversions the runtime applies to configuration strings: `Number(s)`
    (used for BODY_SIZE_LIMIT) and `Number.parseInt(s)` (used for XFF_DEPTH,
    SHUTDOWN_TIMEOUT, IDLE_TIMEOUT, LISTEN_PID and LISTEN_FDS). Both are modelled on
    strings made of an optional sign and decimal digits; `NaN` is `None`. */
module Numeric {
  import opened Common

  predicate IsDigit(c: char) { '0' <= c <= '9' }

  predicate AllDigits(s: string) {
    forall i :: 0 <= i < |s| ==> IsDigit(s[i])
  }

  function DigitValue(c: char): nat
    requires IsDigit(c)
  {
    (c as int) - ('0' as int)
  }

  function DigitChar(d: nat): (c: char)
    requires d < 10
    ensures IsDigit(c) && DigitValue(c) == d
  {
    ('0' as int + d) as char
  }

  /** The value of a string of decimal digits, most significant digit first. */
  function DigitsValue(s: string): nat
    requires AllDigits(s)
  {
    if s == [] then 0 else DigitsValue(s[..|s| - 1]) * 10 + DigitValue(s[|s| - 1])
  }

  /** `String(n)` for a non-negative integer: decimal digits without leading zeros. */
  function DecimalString(n: nat): (s: string)
    ensures |s| > 0 && AllDigits(s)
    ensures |s| > 1 ==> s[0] != '0'
  {
    if n < 10 then [DigitChar(n)] else DecimalString(n / 10) + [DigitChar(n % 10)]
  }

  /** Reading back the decimal rendering of `n` gives `n`. */
  lemma {:induction false} DecimalStringValue(n: nat)
    ensures DigitsValue(DecimalString(n)) == n
  {
    if n >= 10 {
      DecimalStringValue(n / 10);
      var s := DecimalString(n);
      assert s[..|s| - 1] == DecimalString(n / 10);
    }
  }

  /** `Number(s)`: the empty string is 0, an optional sign followed by at least one
      digit is that signed value, anything else is `NaN`. */
  function NumberOf(s: string): (r: Option<int>)
    ensures r.Some? <==> s == [] || AllDigits(s) || (|s| >= 2 && (s[0] == '-' || s[0] == '+') && AllDigits(s[1..]))
    ensures s == [] ==> r == Some(0)
    ensures s != [] && AllDigits(s) ==> r == Some(DigitsValue(s))
    ensures |s| >= 2 && s[0] == '+' && AllDigits(s[1..]) ==> r == Some(DigitsValue(s[1..]))
    ensures |s| >= 2 && s[0] == '-' && AllDigits(s[1..]) ==> r == Some(-(DigitsValue(s[1..]) as int))
  {
    if s == [] then Some(0)
    else if s[0] == '-' || s[0] == '+' then
      var body := s[1..];
      if body != [] && AllDigits(body) then
        Some(if s[0] == '-' then -(DigitsValue(body) as int) else DigitsValue(body))
      else None
    else if AllDigits(s) then Some(DigitsValue(s))
    else None
  }

  /** `Number` reads back every decimal rendering, with or without a minus sign. */
  lemma NumberOfDecimalString(n: nat)
    ensures NumberOf(DecimalString(n)) == Some(n)
    ensures NumberOf(['-'] + DecimalString(n)) == Some(-(n as int))
  {
    DecimalStringValue(n);
    assert (['-'] + DecimalString(n))[1..] == DecimalString(n);
  }

  /** A character that is neither a digit nor a leading sign makes `Number` give `NaN`. */
  lemma NumberOfRejects(s: string, i: nat)
    requires i < |s| && !IsDigit(s[i])
    requires i > 0 || (s[0] != '-' && s[0] != '+')
    ensures NumberOf(s) == None
  {
    if i > 0 && (s[0] == '-' || s[0] == '+') {
      assert !IsDigit(s[1..][i - 1]);
    }
  }

  /** The longest prefix of `s` made of decimal digits. */
  function DigitPrefix(s: string): (p: string)
    ensures p <= s && AllDigits(p)
    ensures |p| < |s| ==> !IsDigit(s[|p|])
  {
    if s == [] || !IsDigit(s[0]) then [] else [s[0]] + DigitPrefix(s[1..])
  }

  /** `Number.parseInt(s)` in base 10: an optional sign, then the longest run of
      digits; `NaN` when that run is empty. Whatever follows the run is ignored. */
  function ParseInt(s: string): (r: Option<int>)
    ensures r.Some? <==> (s != [] && IsDigit(s[0])) || (|s| >= 2 && (s[0] == '-' || s[0] == '+') && IsDigit(s[1]))
    ensures r.Some? && s[0] != '-' ==> r.value >= 0
    ensures r.Some? && s[0] == '-' ==> r.value <= 0
  {
    var negative := s != [] && s[0] == '-';
    var body := if s != [] && (s[0] == '-' || s[0] == '+') then s[1..] else s;
    var digits := DigitPrefix(body);
    if digits == [] then None
    else Some(if negative then -(DigitsValue(digits) as int) else DigitsValue(digits))
  }

  lemma {:induction false} DigitPrefixOfDigits(d: string, rest: string)
    requires AllDigits(d)
    requires rest == [] || !IsDigit(rest[0])
    ensures DigitPrefix(d + rest) == d
  {
    if d != [] {
      assert (d + rest)[1..] == d[1..] + rest;
      DigitPrefixOfDigits(d[1..], rest);
    } else {
      assert d + rest == rest;
    }
  }

  /** `parseInt` reads the decimal rendering of `n` at the head of a string and
      ignores whatever non-digit text follows it. */
  lemma ParseIntDecimalString(n: nat, rest: string)
    requires rest == [] || !IsDigit(rest[0])
    ensures ParseInt(DecimalString(n) + rest) == Some(n)
  {
    var s := DecimalString(n);
    DigitPrefixOfDigits(s, rest);
    DecimalStringValue(n);
  }

  /** After an optional sign, `parseInt` gives the value of the digit run, negated
      under a minus sign. */
  lemma ParseIntRun(s: string, d: string)
    requires d != []
    requires s != [] && (s[0] == '-' || s[0] == '+') ==> DigitPrefix(s[1..]) == d
    requires s == [] || (s[0] != '-' && s[0] != '+') ==> DigitPrefix(s) == d
    ensures ParseInt(s) == Some(if s[0] == '-' then -(DigitsValue(d) as int) else DigitsValue(d))
  {
  }

  /** `parseInt` reads any run of digits at the head of a string, leading zeros
      included, with an optional sign in front, and ignores the non-digit text
      after it: `parseInt("07x")` is 7 and `parseInt("-7x")` is -7. */
  lemma ParseIntDigits(d: string, rest: string)
    requires d != [] && AllDigits(d)
    requires rest == [] || !IsDigit(rest[0])
    ensures ParseInt(d + rest) == Some(DigitsValue(d))
    ensures ParseInt("+" + (d + rest)) == Some(DigitsValue(d))
    ensures ParseInt("-" + (d + rest)) == Some(-(DigitsValue(d) as int))
  {
    var body := d + rest;
    DigitPrefixOfDigits(d, rest);
    var plus, minus := "+" + body, "-" + body;
    assert body[0] == d[0];
    assert plus[0] == '+' && plus[1..] == body;
    assert minus[0] == '-' && minus[1..] == body;
    ParseIntRun(body, d);
    ParseIntRun(plus, d);
    ParseIntRun(minus, d);
  }

  /** On every non-empty string that `Number` accepts, `parseInt` gives the same value. */
  lemma ParseIntAgreesWithNumber(s: string)
    requires s != [] && NumberOf(s).Some?
    ensures ParseInt(s) == NumberOf(s)
  {
    if s[0] == '-' || s[0] == '+' {
      DigitPrefixOfDigits(s[1..], []);
      assert s[1..] + [] == s[1..];
    } else {
      DigitPrefixOfDigits(s, []);
      assert s + [] == s;
    }
  }
}
