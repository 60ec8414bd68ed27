/**
 * How an integer-valued JavaScript number is written when it is converted to
 * text, in a template string (`${percentage}%`) or as JSX text
 * (`{job.matchPercentage}%`, `+{course.skills.length - 3}`): a decimal numeral with an optional minus
 * sign and no leading zeros. `ParseInt` reads such a numeral back; the round
 * trip shows the rendering loses nothing.
 */
module NumberText {
  import opened Wrappers

  predicate IsDigit(c: char) {
    '0' <= c <= '9'
  }

  predicate AllDigits(s: string) {
    forall i :: 0 <= i < |s| ==> IsDigit(s[i])
  }

  function DigitChar(d: nat): (c: char)
    requires d < 10
    ensures IsDigit(c)
  {
    (48 + d) as char
  }

  function DigitValue(c: char): (d: nat)
    requires IsDigit(c)
    ensures d < 10 && DigitChar(d) == c
  {
    c as int - 48
  }

  /** The decimal digits of `n`, most significant first. */
  function Digits(n: nat): (s: string)
    ensures |s| >= 1 && AllDigits(s)
    ensures |s| > 1 ==> s[0] != '0'
    ensures n < 10 <==> |s| == 1
    decreases n
  {
    if n < 10 then [DigitChar(n)] else Digits(n / 10) + [DigitChar(n % 10)]
  }

  /** The number a string of digits denotes. */
  function ValueOf(s: string): nat
    requires AllDigits(s)
  {
    if s == [] then 0 else 10 * ValueOf(s[..|s| - 1]) + DigitValue(s[|s| - 1])
  }

  /** `String(i)` for an integer `i`. */
  function IntText(i: int): (s: string)
    ensures |s| >= 1
    ensures s[0] == '-' <==> i < 0
    ensures var d := if i < 0 then s[1..] else s;
      |d| >= 1 && AllDigits(d) && (|d| > 1 ==> d[0] != '0')
  {
    if i < 0 then "-" + Digits(-i) else Digits(i)
  }

  /** `${i}%`: the numeral followed by a percent sign. */
  function PercentText(i: int): (s: string)
    ensures |s| >= 2 && s[|s| - 1] == '%'
  {
    IntText(i) + "%"
  }

  /** Reads an optional minus sign followed by one or more digits. */
  function ParseInt(s: string): (r: Option<int>)
    ensures r.Some? ==> |s| > 0 && (r.value < 0 ==> s[0] == '-')
    ensures r.Some? && s[0] != '-' ==> AllDigits(s)
  {
    if |s| > 0 && s[0] == '-' then
      if |s| > 1 && AllDigits(s[1..]) then Some(-(ValueOf(s[1..]) as int)) else None
    else if |s| > 0 && AllDigits(s) then Some(ValueOf(s))
    else None
  }

  lemma {:induction false} ValueOfDigits(n: nat)
    ensures ValueOf(Digits(n)) == n
    decreases n
  {
    if n >= 10 {
      var d := Digits(n / 10);
      assert Digits(n) == d + [DigitChar(n % 10)];
      assert Digits(n)[..|Digits(n)| - 1] == d;
      ValueOfDigits(n / 10);
    }
  }

  /** Reading back what `IntText` wrote gives the number again. */
  lemma IntTextRoundTrip(i: int)
    ensures ParseInt(IntText(i)) == Some(i)
  {
    var s := IntText(i);
    if i < 0 {
      var d := Digits(-i);
      assert s == "-" + d;
      assert s[0] == '-' && s[1..] == d;
      ValueOfDigits(-i);
    } else {
      var d := Digits(i);
      assert s == d;
      assert d[0] != '-' by { assert IsDigit(d[0]); }
      ValueOfDigits(i);
    }
  }

  /** Different numbers are written differently. */
  lemma IntTextInjective(i: int, j: int)
    ensures IntText(i) == IntText(j) <==> i == j
  {
    if IntText(i) == IntText(j) {
      IntTextRoundTrip(i);
      IntTextRoundTrip(j);
    }
  }

  /** The numeral in front of the percent sign is the number itself. */
  lemma PercentTextRoundTrip(i: int)
    ensures var s := PercentText(i); ParseInt(s[..|s| - 1]) == Some(i)
  {
    var s := PercentText(i);
    assert s[..|s| - 1] == IntText(i);
    IntTextRoundTrip(i);
  }
}
