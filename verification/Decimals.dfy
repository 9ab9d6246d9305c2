/** Numbers as decimal text. */
module Decimals {
  import opened Common

  function Digit(n: nat): char
    requires n < 10
  {
    "0123456789"[n]
  }

  function DigitValue(c: char): Option<nat> {
    if '0' <= c <= '9' then Some((c - '0') as nat) else None
  }

  function Decimal(n: nat): (s: string)
    ensures |s| >= 1
  {
    if n < 10 then [Digit(n)] else Decimal(n / 10) + [Digit(n % 10)]
  }

  /** Decimal digits to a number; anything else is an error. */
  function ParseDigits(s: string): Option<nat> {
    if s == [] then None
    else
      var last := DigitValue(s[|s| - 1]);
      if last.None? then None
      else if |s| == 1 then last
      else
        var front := ParseDigits(s[..|s| - 1]);
        if front.None? then None else Some(10 * front.value + last.value)
  }

  /** Digits with an optional minus sign. */
  function ParseInt(s: string): (r: Option<int>)
    ensures s != [] && s[0] == '-' && r.Some? ==> r.value <= 0
  {
    var minus := s != [] && s[0] == '-';
    var n: Option<nat> := ParseDigits(if minus then s[1..] else s);
    if n.None? then None
    else
      var v: int := n.value;
      Some(if minus then -v else v)
  }

  lemma {:induction false} DecimalDigits(n: nat)
    ensures forall i :: 0 <= i < |Decimal(n)| ==> '0' <= Decimal(n)[i] <= '9'
  {
    if n >= 10 { DecimalDigits(n / 10); }
  }

  lemma UnsignedIsDigits(n: nat)
    ensures ParseInt(Decimal(n)) == Some(n)
  {
    DecimalRoundTrip(n);
    DecimalDigits(n);
  }

  lemma TwoDigitDecimal(n: nat)
    requires 10 <= n < 100
    ensures |Decimal(n)| == 2
  {
    assert |Decimal(n / 10)| == 1;
  }

  lemma DigitRoundTrip(n: nat)
    requires n < 10
    ensures DigitValue(Digit(n)) == Some(n)
  {
  }

  lemma {:induction false} DecimalRoundTrip(n: nat)
    ensures ParseDigits(Decimal(n)) == Some(n)
  {
    hide Digit, DigitValue;
    DigitRoundTrip(n % 10);
    if n >= 10 {
      DecimalRoundTrip(n / 10);
      assert Decimal(n)[..|Decimal(n)| - 1] == Decimal(n / 10);
    }
  }

  lemma {:induction false} NotANumber(s: string, k: nat)
    requires k < |s| && DigitValue(s[k]).None?
    ensures ParseDigits(s).None?
  {
    if k < |s| - 1 { NotANumber(s[..|s| - 1], k); }
  }

  lemma FourDigits(year: nat)
    requires 1000 <= year <= 9999
    ensures |Decimal(year)| == 4
  {
    assert |Decimal(year / 1000)| == 1;
    assert |Decimal(year / 100)| == 2 by { assert year / 100 / 10 == year / 1000; }
    assert |Decimal(year / 10)| == 3 by { assert year / 10 / 10 == year / 100; }
  }

  lemma FewDigits(year: nat)
    requires year < 1000
    ensures |Decimal(year)| < 4
  {
    assert year / 10 < 100;
    assert year / 10 / 10 < 10;
    assert |Decimal(year / 10 / 10)| == 1;
    assert |Decimal(year / 10)| <= 2;
  }

  lemma {:induction false} LengthMonotone(k: nat, n: nat)
    requires k <= n
    ensures |Decimal(k)| <= |Decimal(n)|
  {
    if n >= 10 && k >= 10 { LengthMonotone(k / 10, n / 10); }
  }

  function Power10(w: nat): (p: nat)
    ensures p >= 1
  {
    if w == 0 then 1 else 10 * Power10(w - 1)
  }

  /** A number below a power of ten has at most that many digits, any other has more. */
  lemma {:induction false} DigitsBelowPower(k: nat, w: nat)
    requires w >= 1
    ensures |Decimal(k)| <= w <==> k < Power10(w)
  {
    if w > 1 {
      if k >= 10 { DigitsBelowPower(k / 10, w - 1); } else { assert Power10(w) == 10 * Power10(w - 1); }
    } else {
      assert Power10(1) == 10 * Power10(0);
    }
  }
}
