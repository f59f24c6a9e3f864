/** Decimal numerals as the dashboard meets them: the template literal `${i}` renders an
    hour index, and `Number(field) || 0` reads a ridership count out of a field string.
    As a modelling choice, the reading accepts only non-empty runs of ASCII digits;
    every other string `Number` would accept reads as no number here. */
module Decimal {
  import opened Optional

  predicate IsDigit(c: char) {
    '0' <= c <= '9'
  }

  /** A non-empty string of decimal digits: the strings the model reads as numbers. */
  predicate IsDigits(s: string) {
    |s| > 0 && forall i :: 0 <= i < |s| ==> IsDigit(s[i])
  }

  /** A numeral without superfluous leading zeros. */
  predicate IsCanonical(s: string) {
    IsDigits(s) && (s[0] == '0' ==> |s| == 1)
  }

  function DigitChar(d: nat): (c: char)
    requires d < 10
    ensures IsDigit(c)
  {
    ('0' as int + d) as char
  }

  function DigitValue(c: char): (d: nat)
    requires IsDigit(c)
    ensures d < 10 && DigitChar(d) == c
  {
    c as int - '0' as int
  }

  /** The decimal rendering of `n`, as JavaScript's `${n}` writes a non-negative integer. */
  function Show(n: nat): (s: string)
    ensures IsCanonical(s)
    ensures s[0] == '0' <==> n == 0
  {
    if n < 10 then [DigitChar(n)] else Show(n / 10) + [DigitChar(n % 10)]
  }

  /** Reads a numeral; `None` stands for every string `Number` would turn into `NaN`
      or that is empty. */
  function Parse(s: string): (r: Option<nat>)
    ensures r.Some? <==> IsDigits(s)
  {
    if |s| == 0 || !IsDigit(s[|s| - 1]) then None
    else if |s| == 1 then Some(DigitValue(s[0]))
    else
      match Parse(s[..|s| - 1])
      case None => None
      case Some(v) => Some(10 * v + DigitValue(s[|s| - 1]))
  }

  /** Reading back a rendered number gives that number. */
  lemma {:induction false} ParseShow(n: nat)
    ensures Parse(Show(n)) == Some(n)
  {
    if n >= 10 {
      var s := Show(n);
      assert s[..|s| - 1] == Show(n / 10);
      ParseShow(n / 10);
    }
  }

  /** Rendering a read numeral gives it back, when it has no superfluous leading zero. */
  lemma {:induction false} ShowParse(s: string)
    requires IsCanonical(s)
    ensures Show(Parse(s).value) == s
  {
    if |s| > 1 {
      var p := s[..|s| - 1];
      assert IsCanonical(p);
      ShowParse(p);
      ParsePositive(p);
      var v := Parse(p).value;
      var d := DigitValue(s[|s| - 1]);
      assert Parse(s).value == 10 * v + d;
      assert (10 * v + d) / 10 == v && (10 * v + d) % 10 == d;
      assert s == p + [s[|s| - 1]];
    }
  }

  /** A numeral that does not start with `0` denotes a positive number. */
  lemma {:induction false} ParsePositive(s: string)
    requires IsDigits(s) && s[0] != '0'
    ensures Parse(s).value > 0
  {
    if |s| > 1 {
      ParsePositive(s[..|s| - 1]);
    } else {
      assert DigitChar(0) == '0';
    }
  }

  /** Leading zeros do not change the value, as with `Number("07") == 7`. */
  lemma {:induction false} ParseLeadingZero(s: string)
    requires IsDigits(s)
    ensures Parse(['0'] + s) == Parse(s)
  {
    var z := ['0'] + s;
    if |s| == 1 {
      assert z[..1] == ['0'];
    } else {
      assert z[..|z| - 1] == ['0'] + s[..|s| - 1];
      ParseLeadingZero(s[..|s| - 1]);
    }
  }

  /** Different numbers have different renderings. */
  lemma ShowInjective(a: nat, b: nat)
    ensures Show(a) == Show(b) ==> a == b
  {
    ParseShow(a);
    ParseShow(b);
  }
}
