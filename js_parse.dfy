/**
 * The part of JavaScript's `parseInt(value, 10)` that the configuration
 * handler relies on: an optional sign, then the longest run of decimal
 * digits; anything after that run is ignored. No digit at all gives `NaN`,
 * written here as `None`.
 */
module JsParse {
  import opened Wrappers

  predicate IsDigit(ch: char) {
    '0' <= ch <= '9'
  }

  predicate AllDigits(s: string) {
    forall i :: 0 <= i < |s| ==> IsDigit(s[i])
  }

  function DigitValue(ch: char): (d: nat)
    requires IsDigit(ch)
    ensures d < 10
  {
    ch as int - '0' as int
  }

  function DigitChar(d: nat): (ch: char)
    requires d < 10
    ensures IsDigit(ch) && DigitValue(ch) == d
  {
    ('0' as int + d) as char
  }

  /** The longest prefix of s made of decimal digits. */
  function LeadingDigits(s: string): (r: string)
    ensures r <= s && AllDigits(r)
    ensures |r| < |s| ==> !IsDigit(s[|r|])
  {
    if s == [] || !IsDigit(s[0]) then [] else [s[0]] + LeadingDigits(s[1..])
  }

  /** The number a string of decimal digits denotes, most significant digit first. */
  function DigitsValue(ds: string): nat
    requires AllDigits(ds)
  {
    if ds == [] then 0 else DigitsValue(ds[..|ds| - 1]) * 10 + DigitValue(ds[|ds| - 1])
  }

  /** `parseInt(s, 10)`, with `None` for `NaN`. */
  function ParseInt(s: string): (r: Option<int>)
    ensures r.Some? && r.value < 0 ==> |s| > 0 && s[0] == '-'
  {
    var negative := |s| > 0 && s[0] == '-';
    var rest := if |s| > 0 && (s[0] == '-' || s[0] == '+') then s[1..] else s;
    var ds := LeadingDigits(rest);
    if ds == [] then None
    else if negative then Some(0 - DigitsValue(ds) as int)
    else Some(DigitsValue(ds) as int)
  }

  /** The canonical decimal numeral of n. */
  function Decimal(n: nat): (s: string)
    ensures |s| > 0 && AllDigits(s)
  {
    if n < 10 then [DigitChar(n)] else Decimal(n / 10) + [DigitChar(n % 10)]
  }

  /** Reading back a numeral gives the number it was written from. */
  lemma {:induction false} DecimalValue(n: nat)
    ensures DigitsValue(Decimal(n)) == n
  {
    if n >= 10 {
      var s := Decimal(n);
      assert s[..|s| - 1] == Decimal(n / 10);
      DecimalValue(n / 10);
    }
  }

  /** A run of digits followed by a non-digit (or nothing) is exactly what LeadingDigits keeps. */
  lemma {:induction false} LeadingDigitsOfNumeral(ds: string, tail: string)
    requires AllDigits(ds)
    requires tail == [] || !IsDigit(tail[0])
    ensures LeadingDigits(ds + tail) == ds
  {
    if ds != [] {
      assert (ds + tail)[1..] == ds[1..] + tail;
      LeadingDigitsOfNumeral(ds[1..], tail);
    }
  }

  /** The empty string is not a number: `parseInt('')` is `NaN`. */
  lemma EmptyIsNaN()
    ensures ParseInt("") == None
  {
  }

  /** A numeral, possibly followed by text that does not start with a digit, parses to its value. */
  lemma ParseNumeral(n: nat, tail: string)
    requires tail == [] || !IsDigit(tail[0])
    ensures ParseInt(Decimal(n) + tail) == Some(n)
  {
    LeadingDigitsOfNumeral(Decimal(n), tail);
    DecimalValue(n);
  }

  /**
   * A minus sign before a numeral negates it. JavaScript gives -0 for `'-0'`;
   * the model's 0 agrees with it under `>= 0` (both pass) and under
   * `Number(x) || 0` (both read as 0).
   */
  lemma ParseNegativeNumeral(n: nat, tail: string)
    requires tail == [] || !IsDigit(tail[0])
    ensures ParseInt("-" + Decimal(n) + tail) == Some(0 - n as int)
  {
    var t := Decimal(n) + tail;
    var s := "-" + Decimal(n) + tail;
    assert s == ['-'] + t;
    assert s[0] == '-' && s[1..] == t;
    LeadingDigitsOfNumeral(Decimal(n), tail);
    DecimalValue(n);
    assert LeadingDigits(s[1..]) == Decimal(n);
  }
}
