/** Month aggregation and the straight-line forecast over monthly totals. Amounts are reals. */
module Forecaster {
  import opened Common

  // ----- months and costs

  datatype Month = Month(year: int, month: int)

  datatype Cost = Cost(period: Month, amount: real, currency: string)

  /** Chronological (lexicographic) order of month keys. */
  predicate Before(a: Month, b: Month) {
    a.year < b.year || (a.year == b.year && a.month < b.month)
  }

  predicate Increasing(keys: seq<Month>) {
    forall i, j :: 0 <= i < j < |keys| ==> Before(keys[i], keys[j])
  }

  function Total(costs: seq<Cost>): real {
    if costs == [] then 0.0 else Total(costs[..|costs| - 1]) + costs[|costs| - 1].amount
  }

  /** What all costs of one month add up to. */
  function MonthTotal(costs: seq<Cost>, m: Month): real {
    if costs == [] then 0.0
    else MonthTotal(costs[..|costs| - 1], m) + if costs[|costs| - 1].period == m then costs[|costs| - 1].amount else 0.0
  }

  function Months(costs: seq<Cost>): set<Month> {
    set i | 0 <= i < |costs| :: costs[i].period
  }

  // ----- sorting the keys

  /** Puts a key into its place among smaller and larger ones. */
  function Inserted(keys: seq<Month>, m: Month): (r: seq<Month>)
    requires Increasing(keys) && m !in keys
    ensures Increasing(r) && |r| == |keys| + 1
    ensures forall k :: k in r <==> k in keys || k == m
  {
    if keys == [] then [m]
    else if Before(m, keys[0]) then [m] + keys
    else
      assert keys == [keys[0]] + keys[1..];
      var rest := Inserted(keys[1..], m);
      assert forall i :: 0 <= i < |rest| ==> rest[i] in rest;
      [keys[0]] + rest
  }

  /** There is only one increasing listing of a set. */
  lemma {:induction false} SortedIsUnique(a: seq<Month>, b: seq<Month>)
    requires Increasing(a) && Increasing(b)
    requires forall k :: k in a <==> k in b
    ensures a == b
  {
    assert |a| > 0 ==> a[0] in b;
    assert |b| > 0 ==> b[0] in a;
    if a != [] {
      forall k ensures k in a[1..] <==> k in b[1..] {
        assert k in a <==> k == a[0] || k in a[1..];
        assert k in b <==> k == b[0] || k in b[1..];
      }
      SortedIsUnique(a[1..], b[1..]);
    }
  }

  // ----- aggregation

  datatype Entry = Entry(key: Month, total: real)

  /** What aggregation must produce: strictly increasing keys, exactly the months that occur,
      each with that month's total. */
  ghost predicate IsAggregate(costs: seq<Cost>, r: seq<Entry>) {
    (forall i, j :: 0 <= i < j < |r| ==> Before(r[i].key, r[j].key)) &&
    (forall m :: m in Months(costs) <==> exists i :: 0 <= i < |r| && r[i].key == m) &&
    (forall i :: 0 <= i < |r| ==> r[i].total == MonthTotal(costs, r[i].key))
  }

  method AggregateByMonth(costs: seq<Cost>) returns (r: seq<Entry>)
    ensures IsAggregate(costs, r)
  {
    var totals: map<Month, real> := map[];
    var keys: seq<Month> := [];  // the keys in order, for the final sort
    for i := 0 to |costs|
      invariant Increasing(keys)
      invariant forall m :: m in keys <==> m in totals
      invariant forall m :: m in totals <==> m in Months(costs[..i])
      invariant forall m :: m in totals ==> totals[m] == MonthTotal(costs[..i], m)
    {
      var key := costs[i].period;
      assert costs[..i + 1][..i] == costs[..i];
      MonthsStep(costs, i);
      if key !in totals {
        AbsentIsZero(costs[..i], key);
        keys := Inserted(keys, key);
      }
      totals := totals[key := (if key in totals then totals[key] else 0.0) + costs[i].amount];
    }
    assert costs[..|costs|] == costs;
    r := seq(|keys|, i requires 0 <= i < |keys| && keys[i] in totals => Entry(keys[i], totals[keys[i]]));
    forall m ensures m in Months(costs) <==> exists i :: 0 <= i < |r| && r[i].key == m {
      if m in Months(costs) {
        assert m in keys;
        var i :| 0 <= i < |keys| && keys[i] == m;
        assert r[i].key == m;
      }
    }
  }

  lemma MonthsStep(costs: seq<Cost>, i: nat)
    requires i < |costs|
    ensures forall m :: m in Months(costs[..i + 1]) <==> m in Months(costs[..i]) || m == costs[i].period
  {
  }

  lemma AbsentIsZero(costs: seq<Cost>, m: Month)
    requires m !in Months(costs)
    ensures MonthTotal(costs, m) == 0.0
  {
  }

  // ----- conservation

  function SumOf(r: seq<Entry>): real {
    if r == [] then 0.0 else SumOf(r[..|r| - 1]) + r[|r| - 1].total
  }

  /** Sum over listed months of what a cost sequence has for each of them. */
  function SumOver(costs: seq<Cost>, keys: seq<Entry>): real {
    if keys == [] then 0.0 else SumOver(costs, keys[..|keys| - 1]) + MonthTotal(costs, keys[|keys| - 1].key)
  }

  lemma {:induction false} SumOverStep(front: seq<Cost>, c: Cost, keys: seq<Entry>)
    requires forall i, j :: 0 <= i < j < |keys| ==> keys[i].key != keys[j].key
    ensures SumOver(front + [c], keys) == SumOver(front, keys) +
            if Listed(keys, c.period) then c.amount else 0.0
  {
    if keys != [] {
      var n := |keys| - 1;
      SumOverStep(front, c, keys[..n]);
      assert (front + [c])[..|front|] == front;
      assert Listed(keys, c.period) <==> Listed(keys[..n], c.period) || keys[n].key == c.period by {
        if Listed(keys[..n], c.period) {
          var i :| 0 <= i < n && keys[..n][i].key == c.period;
          assert keys[i].key == c.period;
        }
        if Listed(keys, c.period) && keys[n].key != c.period {
          var i :| 0 <= i < |keys| && keys[i].key == c.period;
          assert keys[..n][i].key == c.period;
        }
      }
    }
  }

  predicate Listed(keys: seq<Entry>, m: Month) {
    exists i :: 0 <= i < |keys| && keys[i].key == m
  }

  lemma {:induction false} SumOverAll(costs: seq<Cost>, keys: seq<Entry>)
    requires forall i, j :: 0 <= i < j < |keys| ==> keys[i].key != keys[j].key
    requires forall k :: 0 <= k < |costs| ==> Listed(keys, costs[k].period)
    ensures SumOver(costs, keys) == Total(costs)
  {
    if costs == [] {
      SumOverNothing(keys);
    } else {
      var front, c := costs[..|costs| - 1], costs[|costs| - 1];
      SumOverAll(front, keys);
      SumOverStep(front, c, keys);
      assert front + [c] == costs;
    }
  }

  lemma SumOverNothing(keys: seq<Entry>)
    ensures SumOver([], keys) == 0.0
  {
  }

  lemma {:induction false} SumsMatch(costs: seq<Cost>, r: seq<Entry>)
    requires forall i :: 0 <= i < |r| ==> r[i].total == MonthTotal(costs, r[i].key)
    ensures SumOf(r) == SumOver(costs, r)
  {
    if r != [] { SumsMatch(costs, r[..|r| - 1]); }
  }

  /** No money is lost or counted twice: the monthly totals add up to the total of all costs. */
  lemma AggregationConserves(costs: seq<Cost>, r: seq<Entry>)
    requires IsAggregate(costs, r)
    ensures SumOf(r) == Total(costs)
  {
    SumsMatch(costs, r);
    forall i, j | 0 <= i < j < |r| ensures r[i].key != r[j].key {
      assert Before(r[i].key, r[j].key);
    }
    forall k | 0 <= k < |costs| ensures Listed(r, costs[k].period) {
      assert costs[k].period in Months(costs);
    }
    SumOverAll(costs, r);
  }

  // ----- order does not matter

  function AmountIn(c: Cost, m: Month): real { if c.period == m then c.amount else 0.0 }

  lemma MonthTotalSnoc(front: seq<Cost>, c: Cost, m: Month)
    ensures MonthTotal(front + [c], m) == MonthTotal(front, m) + AmountIn(c, m)
  {
  }

  lemma {:induction false} RemoveOne(costs: seq<Cost>, i: nat, m: Month)
    requires i < |costs|
    ensures MonthTotal(costs, m) == MonthTotal(costs[..i] + costs[i + 1..], m) + AmountIn(costs[i], m)
    decreases |costs|
  {
    hide MonthTotal, AmountIn;
    var n := |costs| - 1;
    var front := costs[..n];
    assert costs == front + [costs[n]];
    MonthTotalSnoc(front, costs[n], m);
    if i == n {
      assert costs[..i] + costs[i + 1..] == front;
    } else {
      RemoveOne(front, i, m);
      MonthTotalSnoc(front[..i] + front[i + 1..], costs[n], m);
      assert costs[..i] + costs[i + 1..] == front[..i] + front[i + 1..] + [costs[n]];
    }
  }

  lemma Without(s: seq<Cost>, i: nat)
    requires i < |s|
    ensures multiset(s) == multiset(s[..i] + s[i + 1..]) + multiset{s[i]}
  {
    assert s == s[..i] + [s[i]] + s[i + 1..];
  }

  lemma FindLast(a: seq<Cost>, b: seq<Cost>) returns (i: nat)
    requires multiset(a) == multiset(b) && a != []
    ensures i < |b| && b[i] == a[|a| - 1]
    ensures multiset(a[..|a| - 1]) == multiset(b[..i] + b[i + 1..])
  {
    var n := |a| - 1;
    assert a[n] in multiset(b) by { assert a[n] in multiset(a); }
    i :| 0 <= i < |b| && b[i] == a[n];
    Without(a, n);
    Without(b, i);
    var a', b' := a[..n] + a[n + 1..], b[..i] + b[i + 1..];
    assert a[..n] == a';
    Cancel(multiset(a'), multiset(b'), multiset{a[n]});
  }

  lemma Cancel(a: multiset<Cost>, b: multiset<Cost>, c: multiset<Cost>)
    requires a + c == b + c
    ensures a == b
  {
    assert a == a + c - c;
    assert b == b + c - c;
  }

  lemma {:induction false} TotalsPermute(a: seq<Cost>, b: seq<Cost>, m: Month)
    requires multiset(a) == multiset(b)
    ensures MonthTotal(a, m) == MonthTotal(b, m)
    decreases |a|
  {
    if a == [] {
      assert |multiset(a)| == |multiset(b)|;
    } else {
      var i := FindLast(a, b);
      TotalsPermute(a[..|a| - 1], b[..i] + b[i + 1..], m);
      RemoveOne(b, i, m);
    }
  }

  lemma MonthsPermute(a: seq<Cost>, b: seq<Cost>)
    requires multiset(a) == multiset(b)
    ensures Months(a) == Months(b)
  {
    forall m ensures m in Months(a) <==> m in Months(b) {
      if m in Months(a) {
        var i :| 0 <= i < |a| && a[i].period == m;
        assert a[i] in multiset(a) && a[i] in multiset(b);
        var j :| 0 <= j < |b| && b[j] == a[i];
      }
      if m in Months(b) {
        var i :| 0 <= i < |b| && b[i].period == m;
        assert b[i] in multiset(b) && b[i] in multiset(a);
        var j :| 0 <= j < |a| && a[j] == b[i];
      }
    }
  }

  function Keys(r: seq<Entry>): (k: seq<Month>)
    ensures |k| == |r| && forall i :: 0 <= i < |r| ==> k[i] == r[i].key
  {
    seq(|r|, i requires 0 <= i < |r| => r[i].key)
  }

  /** Aggregates are determined by the costs, whatever order they are listed in - and hence so
      is every forecast computed from them. */
  lemma AggregationIsOrderFree(a: seq<Cost>, b: seq<Cost>, ra: seq<Entry>, rb: seq<Entry>)
    requires multiset(a) == multiset(b)
    requires IsAggregate(a, ra) && IsAggregate(b, rb)
    ensures ra == rb
  {
    MonthsPermute(a, b);
    forall k ensures k in Keys(ra) <==> k in Keys(rb) {
      assert k in Months(a) <==> k in Keys(ra) by { KeyIn(a, ra, k); }
      assert k in Months(b) <==> k in Keys(rb) by { KeyIn(b, rb, k); }
    }
    SortedIsUnique(Keys(ra), Keys(rb));
    assert |ra| == |rb|;
    forall i | 0 <= i < |ra| ensures ra[i] == rb[i] {
      assert Keys(ra)[i] == Keys(rb)[i];
      TotalsPermute(a, b, ra[i].key);
    }
  }

  lemma KeyIn(costs: seq<Cost>, r: seq<Entry>, k: Month)
    requires IsAggregate(costs, r)
    ensures k in Months(costs) <==> k in Keys(r)
  {
  }

  // ----- the straight line through monthly totals, at x = 0, 1, 2, ...

  function SumX(n: nat): real { if n == 0 then 0.0 else SumX(n - 1) + (n - 1) as real }

  function SumY(ys: seq<real>): real { if ys == [] then 0.0 else SumY(ys[..|ys| - 1]) + ys[|ys| - 1] }

  /** Sum of (x - mx) * (y - my). */
  function Cross(ys: seq<real>, mx: real, my: real): real {
    if ys == [] then 0.0
    else Cross(ys[..|ys| - 1], mx, my) + ((|ys| - 1) as real - mx) * (ys[|ys| - 1] - my)
  }

  /** Sum of (x - mx) squared. */
  function Spread(n: nat, mx: real): real {
    if n == 0 then 0.0 else Spread(n - 1, mx) + ((n - 1) as real - mx) * ((n - 1) as real - mx)
  }

  datatype Line = Line(intercept: real, slope: real)

  /** The fitted line as the code computes it. */
  function Fit(ys: seq<real>): Line
    requires ys != []
  {
    var n := |ys| as real;
    var mx, my := SumX(|ys|) / n, SumY(ys) / n;
    var slope := if Spread(|ys|, mx) != 0.0 then Cross(ys, mx, my) / Spread(|ys|, mx) else 0.0;
    Line(my - slope * mx, slope)
  }

  /** Sum of squared residuals of a line. */
  function Residuals(ys: seq<real>, l: Line): real {
    if ys == [] then 0.0
    else
      var r := ys[|ys| - 1] - l.intercept - l.slope * (|ys| - 1) as real;
      Residuals(ys[..|ys| - 1], l) + r * r
  }

  // ----- everything above as a polynomial in six moments of the data

  datatype Moments = Moments(n: real, x: real, xx: real, y: real, xy: real, yy: real)

  const NO_POINTS := Moments(0.0, 0.0, 0.0, 0.0, 0.0, 0.0)

  function WithPoint(m: Moments, k: real, v: real): Moments {
    Moments(m.n + 1.0, m.x + k, m.xx + k * k, m.y + v, m.xy + k * v, m.yy + v * v)
  }

  function MomentsOf(ys: seq<real>): Moments {
    if ys == [] then NO_POINTS
    else WithPoint(MomentsOf(ys[..|ys| - 1]), (|ys| - 1) as real, ys[|ys| - 1])
  }

  function SpreadBy(m: Moments, mx: real): real { m.xx - 2.0 * mx * m.x + m.n * (mx * mx) }

  function CrossBy(m: Moments, mx: real, my: real): real { m.xy - mx * m.y - my * m.x + m.n * (mx * my) }

  /** Sum of squared residuals of the line a + b * x. */
  function ResidualsBy(m: Moments, a: real, b: real): real {
    m.yy - 2.0 * a * m.y - 2.0 * b * m.xy + m.n * (a * a) + 2.0 * a * b * m.x + m.xx * (b * b)
  }

  /** What moving a line by p + q * x adds to the residuals of the best line. */
  function Excess(m: Moments, p: real, q: real): real {
    m.n * (p * p) + 2.0 * p * q * m.x + m.xx * (q * q)
  }

  lemma NothingSumsToZero(a: real, b: real)
    ensures SpreadBy(NO_POINTS, a) == CrossBy(NO_POINTS, a, b) == ResidualsBy(NO_POINTS, a, b) == 0.0
  {
  }

  lemma SpreadStep(m: Moments, k: real, v: real, mx: real)
    ensures SpreadBy(WithPoint(m, k, v), mx) == SpreadBy(m, mx) + (k - mx) * (k - mx)
  {
  }

  lemma CrossStep(m: Moments, k: real, v: real, mx: real, my: real)
    ensures CrossBy(WithPoint(m, k, v), mx, my) == CrossBy(m, mx, my) + (k - mx) * (v - my)
  {
  }

  lemma ResidualStep(m: Moments, k: real, v: real, a: real, b: real)
    ensures ResidualsBy(WithPoint(m, k, v), a, b) == ResidualsBy(m, a, b) + (v - a - b * k) * (v - a - b * k)
  {
  }

  lemma {:induction false} SumsByMoments(ys: seq<real>)
    ensures MomentsOf(ys).n == |ys| as real
    ensures MomentsOf(ys).x == SumX(|ys|)
    ensures MomentsOf(ys).y == SumY(ys)
  {
    if ys != [] { SumsByMoments(ys[..|ys| - 1]); }
  }

  lemma {:induction false} SpreadByMoments(ys: seq<real>, mx: real)
    ensures Spread(|ys|, mx) == SpreadBy(MomentsOf(ys), mx)
  {
    hide SpreadBy, WithPoint;
    if ys == [] {
      NothingSumsToZero(mx, mx);
    } else {
      SpreadByMoments(ys[..|ys| - 1], mx);
      SpreadStep(MomentsOf(ys[..|ys| - 1]), (|ys| - 1) as real, ys[|ys| - 1], mx);
    }
  }

  lemma {:induction false} CrossByMoments(ys: seq<real>, mx: real, my: real)
    ensures Cross(ys, mx, my) == CrossBy(MomentsOf(ys), mx, my)
  {
    hide CrossBy, WithPoint;
    if ys == [] {
      NothingSumsToZero(mx, my);
    } else {
      CrossByMoments(ys[..|ys| - 1], mx, my);
      CrossStep(MomentsOf(ys[..|ys| - 1]), (|ys| - 1) as real, ys[|ys| - 1], mx, my);
    }
  }

  lemma {:induction false} ResidualsByMoments(ys: seq<real>, l: Line)
    ensures Residuals(ys, l) == ResidualsBy(MomentsOf(ys), l.intercept, l.slope)
  {
    hide ResidualsBy, WithPoint;
    if ys == [] {
      NothingSumsToZero(l.intercept, l.slope);
    } else {
      ResidualsByMoments(ys[..|ys| - 1], l);
      ResidualStep(MomentsOf(ys[..|ys| - 1]), (|ys| - 1) as real, ys[|ys| - 1], l.intercept, l.slope);
    }
  }

  // ----- closed forms

  lemma {:induction false} SumXClosed(n: nat)
    ensures 2.0 * SumX(n) == n as real * (n as real - 1.0)
  {
    if n > 0 {
      SumXClosed(n - 1);
      var m := (n - 1) as real;
      assert n as real == m + 1.0;
      assert m * (m - 1.0) + 2.0 * m == (m + 1.0) * (m + 1.0 - 1.0);
    }
  }

  /** Six times the sum of (x - mx) squared over x = 0 .. k-1. */
  function SixSpread(k: real, mx: real): real {
    (k - 1.0) * k * (2.0 * k - 1.0) - 6.0 * mx * k * (k - 1.0) + 6.0 * k * mx * mx
  }

  lemma SixSpreadStep(m: real, mx: real)
    ensures SixSpread(m + 1.0, mx) == SixSpread(m, mx) + 6.0 * ((m - mx) * (m - mx))
  {
  }

  lemma {:induction false} SpreadClosed(n: nat, mx: real)
    ensures 6.0 * Spread(n, mx) == SixSpread(n as real, mx)
  {
    if n > 0 {
      hide SixSpread;
      SpreadClosed(n - 1, mx);
      SixSpreadStep((n - 1) as real, mx);
      assert n as real == (n - 1) as real + 1.0;
    }
  }

  lemma Quotient(k: real, q: real, x: real)
    requires k > 0.0 && x == k * q
    ensures x / k == q
  {
  }

  lemma ProductPositive(k: real)
    requires k >= 2.0
    ensures k * (k * k - 1.0) > 0.0
  {
  }

  lemma SixSpreadAtMean(k: real)
    ensures 2.0 * SixSpread(k, (k - 1.0) / 2.0) == k * (k * k - 1.0)
  {
  }

  /** The denominator of the slope: n(n^2 - 1)/12, positive from two months on. */
  lemma DenominatorClosed(n: nat)
    requires n >= 1
    ensures 12.0 * Spread(n, SumX(n) / n as real) == n as real * (n as real * n as real - 1.0)
    ensures n >= 2 ==> Spread(n, SumX(n) / n as real) > 0.0
  {
    var k := n as real;
    SumXClosed(n);
    assert SumX(n) == k * ((k - 1.0) / 2.0);
    Quotient(k, (k - 1.0) / 2.0, SumX(n));
    SpreadClosed(n, (k - 1.0) / 2.0);
    SixSpreadAtMean(k);
    if n >= 2 { ProductPositive(k); }
  }

  // ----- the normal equations and optimality

  /** n times the sum of squared distances of x from its mean. */
  function Variance(m: Moments): real { m.n * m.xx - m.x * m.x }

  /** The line solves the two normal equations, which are not degenerate. */
  predicate SolvesNormalEquations(m: Moments, l: Line) {
    m.n > 0.0 && Variance(m) > 0.0 &&
    m.n * l.intercept + m.x * l.slope == m.y && m.x * l.intercept + m.xx * l.slope == m.xy
  }

  lemma FitByMoments(ys: seq<real>) returns (mx: real, my: real)
    requires |ys| >= 2
    ensures MomentsOf(ys).n >= 2.0 && SpreadBy(MomentsOf(ys), mx) > 0.0
    ensures MomentsOf(ys).n * mx == MomentsOf(ys).x && MomentsOf(ys).n * my == MomentsOf(ys).y
    ensures Fit(ys).slope * SpreadBy(MomentsOf(ys), mx) == CrossBy(MomentsOf(ys), mx, my)
    ensures Fit(ys).intercept == my - Fit(ys).slope * mx
  {
    hide SpreadBy, CrossBy, MomentsOf, Spread, Cross, SumX, SumY;
    var n := |ys| as real;
    mx, my := SumX(|ys|) / n, SumY(ys) / n;
    Undivided(n, SumX(|ys|));
    Undivided(n, SumY(ys));
    SumsByMoments(ys);
    SpreadByMoments(ys, mx);
    CrossByMoments(ys, mx, my);
    DenominatorClosed(|ys|);
    Undivided(Spread(|ys|, mx), Cross(ys, mx, my));
  }

  lemma Undivided(n: real, x: real)
    requires n > 0.0
    ensures n * (x / n) == x && (x / n) * n == x
  {
  }

  lemma FitSolvesNormalEquations(ys: seq<real>)
    requires |ys| >= 2
    ensures SolvesNormalEquations(MomentsOf(ys), Fit(ys))
  {
    hide MomentsOf, Fit, SpreadBy, CrossBy, SolvesNormalEquations;
    var mx, my := FitByMoments(ys);
    Uncentred(MomentsOf(ys), Fit(ys), mx, my);
  }

  lemma Uncentred(m: Moments, f: Line, mx: real, my: real)
    requires m.n >= 2.0 && m.n * mx == m.x && m.n * my == m.y && SpreadBy(m, mx) > 0.0
    requires f.slope * SpreadBy(m, mx) == CrossBy(m, mx, my) && f.intercept == my - f.slope * mx
    ensures SolvesNormalEquations(m, f)
  {
  }

  lemma MovedLine(m: Moments, a: real, b: real, p: real, q: real)
    ensures ResidualsBy(m, a + p, b + q) ==
      ResidualsBy(m, a, b) + Excess(m, p, q) -
      2.0 * (p * (m.y - m.n * a - m.x * b)) - 2.0 * (q * (m.xy - m.x * a - m.xx * b))
  {
  }

  lemma ExcessSquares(m: Moments, p: real, q: real)
    ensures m.n * Excess(m, p, q) ==
      (m.n * p + m.x * q) * (m.n * p + m.x * q) + Variance(m) * (q * q)
  {
  }

  lemma PositiveProduct(a: real, b: real) returns (r: real)
    requires a > 0.0 && b >= 0.0
    ensures r == a * b && r >= 0.0
    ensures b > 0.0 ==> r > 0.0
  {
    r := a * b;
  }

  lemma Square(x: real) returns (r: real)
    ensures r == x * x && r >= 0.0
    ensures x != 0.0 ==> r > 0.0
  {
    r := x * x;
    if x > 0.0 { r := PositiveProduct(x, x); }
    if x < 0.0 { r := PositiveProduct(-x, -x); }
  }

  lemma SignOfFactor(n: real, e: real, a: real)
    requires n > 0.0 && n * e == a
    ensures a >= 0.0 ==> e >= 0.0
    ensures a > 0.0 ==> e > 0.0
  {
  }

  lemma SumOfSquares(n: real, e: real, s: real, v: real, q: real)
    requires n > 0.0 && v > 0.0 && n * e == s * s + v * (q * q)
    ensures e >= 0.0
    ensures s != 0.0 || q != 0.0 ==> e > 0.0
  {
    var a := Square(s);
    var b := Square(q);
    var w := PositiveProduct(v, b);
    SignOfFactor(n, e, a + w);
  }

  lemma NonZeroSum(n: real, p: real, x: real, q: real)
    requires n > 0.0 && p != 0.0 && q == 0.0
    ensures n * p + x * q != 0.0
  {
  }

  /** Moving away from the best line always costs something. */
  lemma ExcessPositive(m: Moments, p: real, q: real)
    requires m.n > 0.0 && Variance(m) > 0.0
    ensures Excess(m, p, q) >= 0.0
    ensures p != 0.0 || q != 0.0 ==> Excess(m, p, q) > 0.0
  {
    hide Excess, Variance;
    ExcessSquares(m, p, q);
    if q == 0.0 && p != 0.0 { NonZeroSum(m.n, p, m.x, q); }
    SumOfSquares(m.n, Excess(m, p, q), m.n * p + m.x * q, Variance(m), q);
  }

  lemma OptimalByMoments(m: Moments, f: Line, l: Line)
    requires SolvesNormalEquations(m, f)
    ensures ResidualsBy(m, l.intercept, l.slope) >= ResidualsBy(m, f.intercept, f.slope)
    ensures l != f ==> ResidualsBy(m, l.intercept, l.slope) > ResidualsBy(m, f.intercept, f.slope)
  {
    hide ResidualsBy, Excess, Variance;
    var p, q := l.intercept - f.intercept, l.slope - f.slope;
    MovedLine(m, f.intercept, f.slope, p, q);
    assert f.intercept + p == l.intercept && f.slope + q == l.slope;
    assert m.y - m.n * f.intercept - m.x * f.slope == 0.0;
    assert m.xy - m.x * f.intercept - m.xx * f.slope == 0.0;
    ExcessPositive(m, p, q);
  }

  /** Least squares: from two months on, no line has a smaller sum of squared residuals than the
      fitted one, and the fitted one is the only line that attains it. */
  lemma FitIsOptimal(ys: seq<real>, l: Line)
    requires |ys| >= 2
    ensures Residuals(ys, l) >= Residuals(ys, Fit(ys))
    ensures Residuals(ys, l) == Residuals(ys, Fit(ys)) ==> l == Fit(ys)
  {
    hide MomentsOf, Fit, Residuals, ResidualsBy, SolvesNormalEquations;
    FitSolvesNormalEquations(ys);
    ResidualsByMoments(ys, l);
    ResidualsByMoments(ys, Fit(ys));
    OptimalByMoments(MomentsOf(ys), Fit(ys), l);
  }

  lemma {:induction false} ExactLineHasNoResiduals(ys: seq<real>, l: Line)
    requires forall i :: 0 <= i < |ys| ==> ys[i] == l.intercept + l.slope * i as real
    ensures Residuals(ys, l) == 0.0
  {
    if ys != [] {
      var n := |ys| - 1;
      ExactLineHasNoResiduals(ys[..n], l);
      assert ys[n] - l.intercept - l.slope * n as real == 0.0;
    }
  }

  lemma {:induction false} ResidualsNonNegative(ys: seq<real>, l: Line)
    ensures Residuals(ys, l) >= 0.0
  {
    if ys != [] {
      ResidualsNonNegative(ys[..|ys| - 1], l);
      var q := Square(ys[|ys| - 1] - l.intercept - l.slope * (|ys| - 1) as real);
      assert Residuals(ys, l) == Residuals(ys[..|ys| - 1], l) + q;
    }
  }

  /** Spending that grows along a straight line is fitted, and so extrapolated, exactly. */
  lemma LinearDataIsExtrapolated(ys: seq<real>, l: Line)
    requires |ys| >= 2
    requires forall i :: 0 <= i < |ys| ==> ys[i] == l.intercept + l.slope * i as real
    ensures Fit(ys) == l
    ensures Predicted(ys) == NonNegative(l.intercept + l.slope * |ys| as real)
  {
    hide Fit, Residuals;
    ExactLineHasNoResiduals(ys, l);
    FitIsOptimal(ys, l);
    ResidualsNonNegative(ys, Fit(ys));
  }

  function NonNegative(x: real): real { if x < 0.0 then 0.0 else x }

  /** The fitted line one month ahead; a cost cannot be negative. */
  function Predicted(ys: seq<real>): real
    requires ys != []
  {
    NonNegative(Fit(ys).intercept + Fit(ys).slope * |ys| as real)
  }

  // ----- the forecast

  datatype Method = LinearRegression | NaiveLastPeriod

  datatype Forecast = Forecast(predicted: real, how: Method, periods: nat, slope: Option<real>)

  function Totals(r: seq<Entry>): (ys: seq<real>)
    ensures |ys| == |r| && forall i :: 0 <= i < |r| ==> ys[i] == r[i].total
  {
    seq(|r|, i requires 0 <= i < |r| => r[i].total)
  }

  function ForecastOf(r: seq<Entry>): Forecast
    requires r != []
  {
    if |r| == 1 then Forecast(Round(r[0].total, 100), NaiveLastPeriod, 1, None)
    else Forecast(Round(Predicted(Totals(r)), 100), LinearRegression, |r|, Some(Round(Fit(Totals(r)).slope, 100)))
  }

  /** A line fits the points best: no line has a smaller sum of squared residuals. */
  ghost predicate BestLine(ys: seq<real>, l: Line) {
    forall other :: Residuals(ys, l) <= Residuals(ys, other)
  }

  /** The forecast holds the slope of a line and its next value, which is not let fall below zero,
      both rounded to cents. */
  ghost predicate Holds(f: Forecast, slope: real, next: real) {
    f.how.LinearRegression? && f.slope.Some? && IsRounding(slope, 100, f.slope.value) &&
    IsRounding(if next < 0.0 then 0.0 else next, 100, f.predicted)
  }

  /** The forecast continues the best line through the totals by one month. */
  ghost predicate Continues(f: Forecast, ys: seq<real>) {
    exists l :: BestLine(ys, l) && Holds(f, l.slope, l.intercept + l.slope * |ys| as real)
  }

  /** What the forecast of a history is: with a single month its total, otherwise the continuation
      of the line through the monthly totals. */
  ghost predicate Forecasts(f: Forecast, costs: seq<Cost>) {
    f.periods == |Months(costs)| &&
    if f.periods == 1 then
      f.how.NaiveLastPeriod? && f.slope.None? && IsRounding(Total(costs), 100, f.predicted)
    else
      exists r :: IsAggregate(costs, r) && Continues(f, Totals(r))
  }

  lemma {:induction false} DistinctCount(keys: seq<Month>, months: set<Month>)
    requires Increasing(keys) && forall m :: m in months <==> m in keys
    ensures |months| == |keys|
  {
    if keys == [] {
      assert months == {};
    } else {
      var last := keys[|keys| - 1];
      assert keys == keys[..|keys| - 1] + [last];
      assert last !in keys[..|keys| - 1];
      DistinctCount(keys[..|keys| - 1], months - {last});
    }
  }

  lemma AggregateLength(costs: seq<Cost>, r: seq<Entry>)
    requires IsAggregate(costs, r)
    ensures |r| == |Months(costs)|
  {
    forall m ensures m in Months(costs) <==> m in Keys(r) {
      if m in Months(costs) {
        var i :| 0 <= i < |r| && r[i].key == m;
        assert Keys(r)[i] == m;
      }
    }
    DistinctCount(Keys(r), Months(costs));
  }

  lemma ForecastMeans(costs: seq<Cost>, r: seq<Entry>)
    requires IsAggregate(costs, r) && r != []
    ensures Forecasts(ForecastOf(r), costs)
  {
    hide Totals, Continues, IsAggregate, Round, IsRounding;
    AggregateLength(costs, r);
    if |r| == 1 {
      AggregationConserves(costs, r);
      assert SumOf(r[..0]) == 0.0;
    } else {
      FitContinues(r);
    }
  }

  lemma FitContinues(r: seq<Entry>)
    requires |r| >= 2
    ensures Continues(ForecastOf(r), Totals(r))
  {
    hide BestLine, Holds, Fit, Continues, Predicted, Round, Totals;
    FitIsBest(Totals(r));
    var next := NextValue(Totals(r));
    RoundedHolds(ForecastOf(r), Fit(Totals(r)).slope, next);
    ContinuesBy(ForecastOf(r), Totals(r), Fit(Totals(r)), next);
  }

  lemma NextValue(ys: seq<real>) returns (next: real)
    requires ys != []
    ensures next == Fit(ys).intercept + Fit(ys).slope * |ys| as real && Predicted(ys) == NonNegative(next)
  {
    hide Fit;
    next := Fit(ys).intercept + Fit(ys).slope * |ys| as real;
  }

  lemma ContinuesBy(f: Forecast, ys: seq<real>, l: Line, next: real)
    requires BestLine(ys, l) && Holds(f, l.slope, next) && next == l.intercept + l.slope * |ys| as real
    ensures Continues(f, ys)
  {
    hide BestLine, Holds;
  }

  lemma FitIsBest(ys: seq<real>)
    requires |ys| >= 2
    ensures BestLine(ys, Fit(ys))
  {
    hide Fit, Residuals;
    forall l ensures Residuals(ys, Fit(ys)) <= Residuals(ys, l) { FitIsOptimal(ys, l); }
  }

  lemma RoundedHolds(f: Forecast, slope: real, next: real)
    requires f.how.LinearRegression? && f.slope == Some(Round(slope, 100))
    requires f.predicted == Round(NonNegative(next), 100)
    ensures Holds(f, slope, next)
  {
    hide Round;
    RoundIs(slope);
    RoundIs(NonNegative(next));
  }

  lemma RoundIs(x: real)
    ensures IsRounding(x, 100, Round(x, 100))
  {
  }

  /** Forecast of next month's cost with the currency label of the first row; an empty history
      is an error. */
  method ForecastNextMonth(costs: seq<Cost>) returns (f: Option<(Forecast, string)>)
    ensures f.None? <==> costs == []
    ensures f.Some? ==> f.value.1 == costs[0].currency && Forecasts(f.value.0, costs)
    ensures f.Some? ==> exists r :: IsAggregate(costs, r) && r != [] && f.value.0 == ForecastOf(r)
  {
    if costs == [] { return None; }
    var monthly := AggregateByMonth(costs);
    SomeMonth(costs, monthly);
    ForecastMeans(costs, monthly);
    hide Forecasts;
    if |monthly| == 1 {
      return Some((Forecast(Round(monthly[0].total, 100), NaiveLastPeriod, 1, None), costs[0].currency));
    }
    hide Fit, Predicted, Round, IsAggregate;
    var ys := Totals(monthly);
    var line, predicted := Fit(ys), Predicted(ys);
    f := Some((Forecast(Round(predicted, 100), LinearRegression, |ys|, Some(Round(line.slope, 100))),
               costs[0].currency));
  }

  lemma SomeMonth(costs: seq<Cost>, r: seq<Entry>)
    requires costs != [] && IsAggregate(costs, r)
    ensures r != []
  {
    assert costs[0].period in Months(costs);
  }

  /** The forecast is the same for every order of the cost rows; only the currency label
      follows whichever row comes first. */
  lemma ForecastIsOrderFree(a: seq<Cost>, b: seq<Cost>, ra: seq<Entry>, rb: seq<Entry>)
    requires multiset(a) == multiset(b) && a != []
    requires IsAggregate(a, ra) && IsAggregate(b, rb)
    ensures ra != [] && rb != [] && ForecastOf(ra) == ForecastOf(rb)
  {
    AggregationIsOrderFree(a, b, ra, rb);
    SomeMonth(a, ra);
  }
}
