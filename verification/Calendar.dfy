/** Billing-month arithmetic of the four cost providers and of the project budget window. */
module Calendar {
  import opened Common
  import opened Decimals

  // ----- dates

  datatype Date = Date(year: int, month: int, day: int)

  const MIN_YEAR := 1
  const MAX_YEAR := 9999

  predicate Leap(year: int) {
    year % 4 == 0 && (year % 100 != 0 || year % 400 == 0)
  }

  function DaysInMonth(year: int, month: int): (n: int)
    ensures 28 <= n <= 31
  {
    if month == 2 then (if Leap(year) then 29 else 28)
    else if month in {4, 6, 9, 11} then 30 else 31
  }

  /** What the constructor of a date accepts. */
  predicate Valid(d: Date) {
    MIN_YEAR <= d.year <= MAX_YEAR && 1 <= d.month <= 12 && 1 <= d.day <= DaysInMonth(d.year, d.month)
  }

  function MakeDate(year: int, month: int, day: int): Option<Date> {
    if Valid(Date(year, month, day)) then Some(Date(year, month, day)) else None
  }

  predicate Before(a: Date, b: Date) {
    a.year < b.year || (a.year == b.year && (a.month < b.month || (a.month == b.month && a.day < b.day)))
  }

  function DaysBeforeYear(year: int): int {
    365 * (year - 1) + (year - 1) / 4 - (year - 1) / 100 + (year - 1) / 400
  }

  function DaysBeforeMonth(year: int, month: nat): int {
    if month <= 1 then 0 else DaysBeforeMonth(year, month - 1) + DaysInMonth(year, month - 1)
  }

  /** Day number: day 1 is 1 January of year 1. */
  function Ordinal(d: Date): int
    requires d.month >= 0
  {
    DaysBeforeYear(d.year) + DaysBeforeMonth(d.year, d.month) + d.day
  }

  /** Months counted on one line. */
  function Index(d: Date): int { 12 * d.year + d.month - 1 }

  /** The first day of the month with an index. */
  function First(i: int): (d: Date)
    ensures Index(d) == i && 1 <= d.month <= 12 && d.day == 1
  {
    Date(i / 12, i % 12 + 1, 1)
  }

  predicate InRange(i: int) { 12 * MIN_YEAR <= i < 12 * (MAX_YEAR + 1) }

  lemma FirstValid(i: int)
    ensures Valid(First(i)) <==> InRange(i)
  {
  }

  lemma FirstOf(d: Date)
    requires 1 <= d.month <= 12
    ensures First(Index(d)) == Date(d.year, d.month, 1)
  {
  }

  function NextFirst(year: int, month: int): Date {
    if month == 12 then Date(year + 1, 1, 1) else Date(year, month + 1, 1)
  }

  lemma FirstOfNext(year: int, month: int)
    requires 1 <= month <= 12
    ensures First(12 * year + month) == NextFirst(year, month) == Date(year + month / 12, month % 12 + 1, 1)
  {
  }

  // ----- days tile the months

  lemma QuotientSteps(n: int)
    ensures n / 4 == (n - 1) / 4 + if n % 4 == 0 then 1 else 0
    ensures n / 100 == (n - 1) / 100 + if n % 100 == 0 then 1 else 0
  {
  }

  lemma QuotientStep400(n: int)
    ensures n / 400 == (n - 1) / 400 + if n % 400 == 0 then 1 else 0
  {
  }

  lemma Divisors(n: int)
    ensures n % 100 == 0 ==> n % 4 == 0
    ensures n % 400 == 0 ==> n % 100 == 0
  {
  }

  lemma YearStep(year: int)
    ensures DaysBeforeYear(year + 1) == DaysBeforeYear(year) + 337 + DaysInMonth(year, 2)
  {
    QuotientSteps(year);
    QuotientStep400(year);
    Divisors(year);
  }

  lemma WholeYear(year: int)
    ensures DaysBeforeMonth(year, 12) + 31 == 337 + DaysInMonth(year, 2)
  {
    assert DaysBeforeMonth(year, 2) == 31;
    assert DaysBeforeMonth(year, 4) == DaysBeforeMonth(year, 3) + 31;
    assert DaysBeforeMonth(year, 6) == DaysBeforeMonth(year, 5) + 31 == DaysBeforeMonth(year, 4) + 61;
    assert DaysBeforeMonth(year, 8) == DaysBeforeMonth(year, 7) + 31 == DaysBeforeMonth(year, 6) + 61;
    assert DaysBeforeMonth(year, 10) == DaysBeforeMonth(year, 9) + 30 == DaysBeforeMonth(year, 8) + 61;
    assert DaysBeforeMonth(year, 12) == DaysBeforeMonth(year, 11) + 30 == DaysBeforeMonth(year, 10) + 61;
  }

  lemma MonthStep(i: int)
    ensures Ordinal(First(i + 1)) == Ordinal(First(i)) + DaysInMonth(First(i).year, First(i).month)
  {
    var d := First(i);
    if d.month == 12 {
      FirstOf(Date(d.year + 1, 1, 1));
      assert First(i + 1) == Date(d.year + 1, 1, 1);
      YearStep(d.year);
      WholeYear(d.year);
    } else {
      FirstOf(Date(d.year, d.month + 1, 1));
      assert First(i + 1) == Date(d.year, d.month + 1, 1);
    }
  }

  lemma {:induction false} MonthsIncrease(i: int, j: int)
    requires i < j
    ensures Ordinal(First(i + 1)) <= Ordinal(First(j))
    decreases j - i
  {
    hide Ordinal, DaysInMonth, First;
    if i + 1 < j {
      MonthsIncrease(i, j - 1);
      MonthStep(j - 1);
    }
  }

  /** A valid day lies in its own month and in no other: the months tile the line of days. */
  lemma DayInMonth(d: Date, i: int)
    requires Valid(d)
    ensures Ordinal(First(i)) <= Ordinal(d) < Ordinal(First(i + 1)) <==> Index(d) == i
  {
    var k := Index(d);
    hide Ordinal;
    InOwnMonth(d);
    if i < k { MonthsIncrease(i, k); }
    if k < i { MonthsIncrease(k, i); }
  }

  lemma InOwnMonth(d: Date)
    requires Valid(d)
    ensures Ordinal(First(Index(d))) <= Ordinal(d) < Ordinal(First(Index(d) + 1))
  {
    hide DaysBeforeYear, DaysBeforeMonth, DaysInMonth;
    FirstOf(d);
    MonthStep(Index(d));
  }

  /** Comparing dates is comparing day numbers. */
  lemma BeforeIsOrdinal(a: Date, b: Date)
    requires Valid(a) && Valid(b)
    ensures Before(a, b) <==> Ordinal(a) < Ordinal(b)
  {
    if Index(a) == Index(b) {
      assert a.year == b.year && a.month == b.month;
    } else if Index(a) < Index(b) {
      EarlierMonth(a, b);
    } else {
      EarlierMonth(b, a);
    }
  }

  lemma EarlierMonth(a: Date, b: Date)
    requires Valid(a) && Valid(b) && Index(a) < Index(b)
    ensures Before(a, b) && Ordinal(a) < Ordinal(b)
  {
    hide Ordinal;
    InOwnMonth(a);
    InOwnMonth(b);
    MonthsIncrease(Index(a), Index(b));
  }

  /** The day before, as subtracting one day computes it. */
  function DayBefore(d: Date): Date {
    if d.day > 1 then d.(day := d.day - 1)
    else if d.month > 1 then Date(d.year, d.month - 1, DaysInMonth(d.year, d.month - 1))
    else Date(d.year - 1, 12, 31)
  }

  lemma DayBeforeIsPrevious(d: Date)
    requires Valid(d)
    ensures 1 <= DayBefore(d).month <= 12
    ensures d != Date(MIN_YEAR, 1, 1) ==> Valid(DayBefore(d))
    ensures Ordinal(DayBefore(d)) == Ordinal(d) - 1
  {
    hide DaysBeforeYear, Leap;
    if d.day == 1 && d.month == 1 {
      YearStep(d.year - 1);
      WholeYear(d.year - 1);
    }
  }

  // ----- month subtraction (AWS and Azure)

  /** First day of the month that lies the given number of months earlier; no date outside the
      supported years. */
  function SubtractMonths(d: Date, months: int): Option<Date> {
    var zeroBased := d.month - 1 - months;
    MakeDate(d.year + zeroBased / 12, zeroBased % 12 + 1, 1)
  }

  /** It is subtraction on the line of months, defined wherever the result is a date. */
  lemma SubtractIsMinus(d: Date, months: int)
    ensures SubtractMonths(d, months) == if InRange(Index(d) - months) then Some(First(Index(d) - months)) else None
  {
  }

  /** Subtractions compose, and a negative one undoes a positive one. */
  lemma SubtractComposes(d: Date, a: int, b: int)
    requires SubtractMonths(d, a).Some?
    ensures SubtractMonths(SubtractMonths(d, a).value, b) == SubtractMonths(d, a + b)
    ensures Valid(d) ==> SubtractMonths(SubtractMonths(d, a).value, -a) == Some(Date(d.year, d.month, 1))
  {
  }

  // ----- month ends and windows

  /** First and last day of a month (IBM and DigitalOcean). */
  function Bounds(year: int, month: int): Option<(Date, Date)> {
    var start := MakeDate(year, month, 1);
    var end := if month == 12 then MakeDate(year + 1, 1, 1) else MakeDate(year, month + 1, 1);
    if start.Some? && end.Some? then Some((start.value, DayBefore(end.value))) else None
  }

  /** The last day of the month by going one month ahead and one day back (Azure). */
  function MonthEnd(start: Date): Option<Date> {
    var next := SubtractMonths(start, -1);
    if next.Some? then Some(DayBefore(next.value)) else None
  }

  /** First days of this month and of the next one (the window of a project's budget). */
  function BudgetWindow(today: Date): Option<(Date, Date)> {
    var start := MakeDate(today.year, today.month, 1);
    var next := MakeDate(today.year + today.month / 12, today.month % 12 + 1, 1);
    if start.Some? && next.Some? then Some((start.value, next.value)) else None
  }

  /** The month bounds of two neighbouring months meet without gap or overlap, and a day lies
      within the bounds exactly when it belongs to the month. */
  lemma BoundsTile(year: int, month: int, d: Date)
    requires Bounds(year, month).Some? && Valid(d)
    ensures var (first, last) := Bounds(year, month).value;
      Valid(last) && first == First(12 * year + month - 1) &&
      Ordinal(last) + 1 == Ordinal(First(12 * year + month)) &&
      (!Before(d, first) && !Before(last, d) <==> d.year == year && d.month == month)
  {
    BoundsAre(year, month);
    hide Bounds, Before, Ordinal;
    var i := 12 * year + month - 1;
    WithinMonth(i, First(i), Bounds(year, month).value.1, d);
    assert Index(d) == i <==> d.year == year && d.month == month;
  }

  lemma BoundsAre(year: int, month: int)
    requires Bounds(year, month).Some?
    ensures var (first, last) := Bounds(year, month).value;
      Valid(first) && Valid(last) && first == First(12 * year + month - 1) &&
      Ordinal(last) + 1 == Ordinal(First(12 * year + month))
  {
    hide Ordinal, DaysInMonth, First, DayBefore;
    FirstOf(Date(year, month, 1));
    FirstOfNext(year, month);
    DayBeforeIsPrevious(NextFirst(year, month));
  }

  lemma WithinMonth(i: int, first: Date, last: Date, d: Date)
    requires Valid(first) && Valid(last) && Valid(d)
    requires first == First(i) && Ordinal(last) + 1 == Ordinal(First(i + 1))
    ensures !Before(d, first) && !Before(last, d) <==> Index(d) == i
  {
    hide Ordinal, Before, Valid, First, Index;
    BeforeIsOrdinal(d, first);
    BeforeIsOrdinal(last, d);
    DayInMonth(d, i);
  }

  /** The three month computations agree: Azure's month end is the one of the bounds, and the
      budget window reaches from the first day to the day after the last. */
  lemma MonthComputationsAgree(d: Date)
    requires Valid(d)
    ensures var bounds := Bounds(d.year, d.month);
      BudgetWindow(d).Some? == bounds.Some? && MonthEnd(d).Some? == bounds.Some? &&
      (bounds.Some? <==> Index(d) < 12 * (MAX_YEAR + 1) - 1) &&
      (bounds.Some? ==> MonthEnd(d) == Some(bounds.value.1) &&
                        BudgetWindow(d).value == (bounds.value.0, First(Index(d) + 1)))
  {
    SubtractIsMinus(d, -1);
    FirstOfNext(d.year, d.month);
    FirstValid(Index(d) + 1);
    hide First, DaysInMonth, DayBefore, SubtractMonths;
    FirstOf(d);
  }

  predicate InBudgetWindow(d: Date, today: Date)
    requires BudgetWindow(today).Some?
  {
    !Before(d, BudgetWindow(today).value.0) && Before(d, BudgetWindow(today).value.1)
  }

  /** A date falls into the budget window exactly when it is of the current month. */
  lemma WindowIsTheMonth(today: Date, d: Date)
    requires Valid(today) && Valid(d) && BudgetWindow(today).Some?
    ensures InBudgetWindow(d, today) <==> Index(d) == Index(today)
  {
  }

  // ----- months as text

  /** The year in decimal, a dash and the month in at least two digits. */
  function MonthText(year: int, month: int): string
    requires month >= 0
  {
    (if year < 0 then "-" + Decimal(-year) else Decimal(year)) + "-" + (if month < 10 then "0" else "") + Decimal(month)
  }

  /** Characters 0-3 as the year and 5-6 as the month. */
  function Slice(s: string, from: nat, to: nat): string
    requires from <= to
  {
    if |s| <= from then "" else if |s| <= to then s[from..] else s[from..to]
  }

  function ParseMonth(period: string): Option<(int, int)> {
    var year, month := ParseInt(Slice(period, 0, 4)), ParseInt(Slice(period, 5, 7));
    if year.Some? && month.Some? then Some((year.value, month.value)) else None
  }

  /** The day bounds of a month given as text. */
  function PeriodBounds(period: string): Option<(Date, Date)> {
    var m := ParseMonth(period);
    if m.None? then None else Bounds(m.value.0, m.value.1)
  }

  lemma PaddedDigit(n: nat)
    requires n < 10
    ensures ParseInt("0" + Decimal(n)) == Some(n) && |Decimal(n)| == 1
  {
    DigitRoundTrip(n);
    var t := "0" + Decimal(n);
    assert t[..1] == "0" && t[1] == Digit(n);
    assert ParseDigits("0") == Some(0);
  }

  lemma TwoDigits(month: nat)
    requires 1 <= month <= 12
    ensures var t := (if month < 10 then "0" else "") + Decimal(month);
      |t| == 2 && ParseInt(t) == Some(month)
  {
    hide ParseInt, Decimal;
    if month < 10 {
      PaddedDigit(month);
    } else {
      TwoDigitDecimal(month);
      UnsignedIsDigits(month);
      assert "" + Decimal(month) == Decimal(month);
    }
  }

  /** The text of a month parses back exactly for years of four digits: the year is not padded.
      For every other year of a date the characters 0-3 are not a number. */
  lemma TextRoundTripIff(year: int, month: int)
    requires MIN_YEAR <= year <= MAX_YEAR && 1 <= month <= 12
    ensures ParseMonth(MonthText(year, month)) == Some((year, month)) <==> year >= 1000
    ensures year < 1000 ==> ParseMonth(MonthText(year, month)).None?
  {
    if year >= 1000 {
      LongYear(year, month);
    } else {
      ShortYear(year, month);
    }
  }

  lemma LongYear(year: int, month: int)
    requires 1000 <= year <= MAX_YEAR && 1 <= month <= 12
    ensures ParseMonth(MonthText(year, month)) == Some((year, month))
  {
    var text, y := MonthText(year, month), Decimal(year);
    var m := (if month < 10 then "0" else "") + Decimal(month);
    hide ParseInt, Decimal;
    TwoDigits(month);
    FourDigits(year);
    UnsignedIsDigits(year);
    assert text == y + "-" + m;
    assert Slice(text, 0, 4) == y;
    assert Slice(text, 5, 7) == m;
  }

  lemma ShortYear(year: int, month: int)
    requires 0 <= year < 1000 && 1 <= month <= 12
    ensures ParseMonth(MonthText(year, month)).None?
  {
    var text, y := MonthText(year, month), Decimal(year);
    FewDigits(year);
    TwoDigits(month);
    DecimalDigits(year);
    hide ParseDigits, Decimal;
    var front := Slice(text, 0, 4);
    assert front[0] == y[0] && front[|y|] == '-';
    NotANumber(front, |y|);
  }

  /** A minus sign leaves room for three characters of the year, which is then no year of a date. */
  lemma NegativeYear(year: int, month: int)
    requires year < 0 && 1 <= month <= 12
    ensures PeriodBounds(MonthText(year, month)).None?
  {
    hide ParseDigits;
    var text := MonthText(year, month);
    assert text[0] == '-';
    assert Slice(text, 0, 4)[0] == '-';
  }

  // ----- the closed months before today

  function MonthTextAt(i: int): string {
    MonthText(i / 12, i % 12 + 1)
  }

  lemma TextAt(year: int, month: int)
    requires 1 <= month <= 12
    ensures MonthTextAt(12 * year + month - 1) == MonthText(year, month)
  {
    hide MonthText;
    var i := 12 * year + month - 1;
    assert i / 12 == year && i % 12 == month - 1;
  }

  /** The text of a month can be turned into its day bounds exactly when its year has four digits
      and the month is not the very last one. */
  lemma PeriodBoundsIff(i: int)
    requires i < 12 * (MAX_YEAR + 1)
    ensures PeriodBounds(MonthTextAt(i)).Some? <==> 12 * 1000 <= i < 12 * (MAX_YEAR + 1) - 1
    ensures PeriodBounds(MonthTextAt(i)).Some? ==>
      var (first, last) := PeriodBounds(MonthTextAt(i)).value;
      first == First(i) && Valid(first) && Bounds(first.year, first.month) == Some((first, last))
  {
    hide MonthText, ParseMonth, DayBefore, DaysInMonth;
    var year, month := i / 12, i % 12 + 1;
    if year >= 1000 {
      LongYear(year, month);
      BoundsSomeIff(year, month);
      if Bounds(year, month).Some? { BoundsAre(year, month); }
    } else if year >= 0 {
      ShortYear(year, month);
    } else {
      NegativeYear(year, month);
    }
  }

  lemma BoundsSomeIff(year: int, month: int)
    requires MIN_YEAR <= year <= MAX_YEAR && 1 <= month <= 12
    ensures Bounds(year, month).Some? <==> !(year == MAX_YEAR && month == 12)
  {
  }

  /** The closed months before today, oldest first (IBM). */
  method LastBillingMonths(today: Date, months: int) returns (periods: seq<string>)
    requires Valid(today)
    ensures |periods| == if months > 0 then months else 0
    ensures forall i :: 0 <= i < |periods| ==> periods[i] == MonthTextAt(Index(today) - months + i)
  {
    hide MonthText, MonthTextAt;
    var year, month := today.year, today.month;
    var newestFirst: seq<string> := [];
    for k := 0 to if months > 0 then months else 0
      invariant 1 <= month <= 12 && 12 * year + month - 1 == Index(today) - k && |newestFirst| == k
      invariant forall i :: 0 <= i < k ==> newestFirst[i] == MonthTextAt(Index(today) - 1 - i)
    {
      month := month - 1;
      if month == 0 { month, year := 12, year - 1; }
      TextAt(year, month);
      newestFirst := newestFirst + [MonthText(year, month)];
    }
    periods := seq(|newestFirst|, i requires 0 <= i < |newestFirst| => newestFirst[|newestFirst| - 1 - i]);
  }

  /** The exclusive period AWS and Azure are asked for. */
  function RequestedPeriod(today: Date, months: int): Option<(Date, Date)> {
    var end := today.(day := 1);
    var start := SubtractMonths(end, months);
    if start.Some? then Some((start.value, end)) else None
  }

  /** Both ways of choosing months agree: a month starts inside the requested period exactly when
      it is one of the listed ones. */
  lemma PeriodsAgree(today: Date, months: nat, i: int)
    requires Valid(today) && RequestedPeriod(today, months).Some? && InRange(i)
    ensures var (start, end) := RequestedPeriod(today, months).value;
      start == First(Index(today) - months) &&
      (!Before(First(i), start) && Before(First(i), end) <==> Index(today) - months <= i < Index(today))
  {
  }

  /** The months listed for one clock against the budget window of another: the provider list is
      made with the local date, the window with the UTC date. No day of a listed month falls into
      the window exactly when the UTC month is not among the listed ones. */
  lemma ListedMonthsMissTheWindow(local: Date, utc: Date, months: nat)
    requires Valid(local) && Valid(utc) && BudgetWindow(utc).Some?
    ensures (forall d :: Valid(d) && Index(local) - months <= Index(d) < Index(local) ==> !InBudgetWindow(d, utc)) <==>
            !(Index(local) - months <= Index(utc) < Index(local))
  {
  }
}
