/** Synchronising fetched billing data into the table of costs, and what that can do to a budget. */
module CostSync {
  import opened Common
  import opened Calendar
  import opened CostFetchers

  datatype Row = Row(project: nat, provider: string, entry: Entry)

  /** What must not be stored twice. */
  datatype Key = Key(project: nat, provider: string, service: string, start: Date)

  function KeyOf(r: Row): Key { Key(r.project, r.provider, r.entry.service, r.entry.start) }

  predicate Known(rows: seq<Row>, k: Key) {
    exists i :: 0 <= i < |rows| && KeyOf(rows[i]) == k
  }

  /** The rows that a synchronisation adds: in order, every entry whose key is not stored yet. */
  function Added(rows: seq<Row>, project: nat, provider: string, entries: seq<Entry>): seq<Row> {
    if entries == [] then []
    else
      var before := Added(rows, project, provider, entries[..|entries| - 1]);
      var row := Row(project, provider, entries[|entries| - 1]);
      if Known(rows + before, KeyOf(row)) then before else before + [row]
  }

  class CostTable {
    var rows: seq<Row>

    constructor ()
      ensures rows == []
    {
      rows := [];
    }

    method GetExisting(k: Key) returns (found: Option<Row>)
      ensures found.Some? <==> Known(rows, k)
      ensures found.Some? ==> found.value in rows && KeyOf(found.value) == k
    {
      for i := 0 to |rows|
        invariant forall j :: 0 <= j < i ==> KeyOf(rows[j]) != k
      {
        if KeyOf(rows[i]) == k { return Some(rows[i]); }
      }
      found := None;
    }

    method Sync(project: nat, provider: string, entries: seq<Entry>) returns (created: seq<Row>)
      modifies this
      ensures forall x :: x in created <==>
        exists i :: 0 <= i < |entries| && IsNew(old(rows), project, provider, entries, i) &&
                    x == Row(project, provider, entries[i])
      ensures created == Added(old(rows), project, provider, entries)
      ensures rows == old(rows) + created
    {
      hide IsNew;
      forall x { CreatedIff(old(rows), project, provider, entries, x); }
      created := [];
      for i := 0 to |entries|
        invariant created == Added(old(rows), project, provider, entries[..i])
        invariant rows == old(rows) + created
      {
        var row := Row(project, provider, entries[i]);
        assert entries[..i + 1][..i] == entries[..i];
        var existing := GetExisting(KeyOf(row));
        if existing.None? {
          rows := rows + [row];
          created := created + [row];
        }
      }
      assert entries[..|entries|] == entries;
    }
  }

  // ----- keys

  lemma KnownAppend(rows: seq<Row>, r: Row, k: Key)
    ensures Known(rows + [r], k) <==> Known(rows, k) || KeyOf(r) == k
  {
    var all := rows + [r];
    if Known(rows, k) {
      var i :| 0 <= i < |rows| && KeyOf(rows[i]) == k;
      assert KeyOf(all[i]) == k;
    }
    if KeyOf(r) == k { assert KeyOf(all[|rows|]) == k; }
    if Known(all, k) && KeyOf(r) != k {
      var i :| 0 <= i < |all| && KeyOf(all[i]) == k;
      assert KeyOf(rows[i]) == k;
    }
  }

  ghost predicate DistinctKeys(rows: seq<Row>) {
    forall i, j :: 0 <= i < j < |rows| ==> KeyOf(rows[i]) != KeyOf(rows[j])
  }

  function RowAt(project: nat, provider: string, e: Entry): Row { Row(project, provider, e) }

  predicate Offered(entries: seq<Entry>, project: nat, provider: string, k: Key) {
    exists i :: 0 <= i < |entries| && KeyOf(RowAt(project, provider, entries[i])) == k
  }

  lemma OfferedSplit(entries: seq<Entry>, project: nat, provider: string, k: Key)
    requires entries != []
    ensures Offered(entries, project, provider, k) <==>
      Offered(entries[..|entries| - 1], project, provider, k) ||
      KeyOf(RowAt(project, provider, entries[|entries| - 1])) == k
  {
  }

  /** After a synchronisation exactly the old keys and the fetched keys are known; each created
      row has a key that no older row and no other created row has. */
  lemma {:induction false} KeysAfter(rows: seq<Row>, project: nat, provider: string, entries: seq<Entry>, k: Key)
    ensures var created := Added(rows, project, provider, entries);
      Known(rows + created, k) <==> Known(rows, k) || Offered(entries, project, provider, k)
  {
    if entries == [] {
      assert rows + [] == rows;
    } else {
      var n := |entries| - 1;
      var before, row := Added(rows, project, provider, entries[..n]), Row(project, provider, entries[n]);
      KeysAfter(rows, project, provider, entries[..n], k);
      OfferedSplit(entries, project, provider, k);
      KnownAppend(rows + before, row, k);
      assert rows + (before + [row]) == rows + before + [row];
    }
  }

  /** Entry number i is the first one of its service and month, and the project has no charge of the
      provider for that service and month yet. */
  ghost predicate IsNew(rows: seq<Row>, project: nat, provider: string, entries: seq<Entry>, i: nat)
    requires i < |entries|
  {
    (forall j :: 0 <= j < |rows| ==>
      rows[j].project != project || rows[j].provider != provider ||
      rows[j].entry.service != entries[i].service || rows[j].entry.start != entries[i].start) &&
    (forall j :: 0 <= j < i ==> entries[j].service != entries[i].service || entries[j].start != entries[i].start)
  }

  lemma IsNewIff(rows: seq<Row>, project: nat, provider: string, entries: seq<Entry>)
    requires entries != []
    ensures var n := |entries| - 1;
      var row := Row(project, provider, entries[n]);
      IsNew(rows, project, provider, entries, n) <==>
      !Known(rows + Added(rows, project, provider, entries[..n]), KeyOf(row))
  {
    hide Added;
    var n := |entries| - 1;
    var k := KeyOf(Row(project, provider, entries[n]));
    KeysAfter(rows, project, provider, entries[..n], k);
    if j :| 0 <= j < n && entries[j].service == entries[n].service && entries[j].start == entries[n].start {
      assert KeyOf(RowAt(project, provider, entries[..n][j])) == k;
    }
    if j :| 0 <= j < |rows| && rows[j].project == project && rows[j].provider == provider &&
            rows[j].entry.service == entries[n].service && rows[j].entry.start == entries[n].start {
      assert KeyOf(rows[j]) == k;
    }
  }

  /** A row is created exactly for each entry that is new. */
  lemma {:induction false} CreatedIff(rows: seq<Row>, project: nat, provider: string, entries: seq<Entry>, x: Row)
    ensures x in Added(rows, project, provider, entries) <==>
      exists i :: 0 <= i < |entries| && IsNew(rows, project, provider, entries, i) &&
                  x == Row(project, provider, entries[i])
  {
    if entries != [] {
      hide IsNew, Known;
      var n := |entries| - 1;
      var front := entries[..n];
      CreatedIff(rows, project, provider, front, x);
      IsNewIff(rows, project, provider, entries);
      if i :| 0 <= i < n && IsNew(rows, project, provider, front, i) && x == Row(project, provider, front[i]) {
        StillNew(rows, project, provider, entries, n, i);
      }
      if i :| 0 <= i < n && IsNew(rows, project, provider, entries, i) && x == Row(project, provider, entries[i]) {
        StillNew(rows, project, provider, entries, n, i);
        assert front[i] == entries[i];
      }
    }
  }

  lemma StillNew(rows: seq<Row>, project: nat, provider: string, entries: seq<Entry>, n: nat, i: nat)
    requires i < n <= |entries|
    ensures IsNew(rows, project, provider, entries, i) <==> IsNew(rows, project, provider, entries[..n], i)
  {
  }

  lemma {:induction false} CreatedKeysAreNew(rows: seq<Row>, project: nat, provider: string, entries: seq<Entry>)
    ensures DistinctKeys(Added(rows, project, provider, entries))
    ensures forall i :: 0 <= i < |Added(rows, project, provider, entries)| ==>
                        !Known(rows, KeyOf(Added(rows, project, provider, entries)[i]))
  {
    if entries != [] {
      var n := |entries| - 1;
      var before, row := Added(rows, project, provider, entries[..n]), Row(project, provider, entries[n]);
      CreatedKeysAreNew(rows, project, provider, entries[..n]);
      KnownEither(rows, before, KeyOf(row));
    }
  }

  lemma KnownEither(a: seq<Row>, b: seq<Row>, k: Key)
    ensures Known(a + b, k) <==> Known(a, k) || Known(b, k)
  {
    var all := a + b;
    if Known(a, k) {
      var i :| 0 <= i < |a| && KeyOf(a[i]) == k;
      assert KeyOf(all[i]) == k;
    }
    if Known(b, k) {
      var i :| 0 <= i < |b| && KeyOf(b[i]) == k;
      assert KeyOf(all[|a| + i]) == k;
    }
    if Known(all, k) {
      var i :| 0 <= i < |all| && KeyOf(all[i]) == k;
      assert if i < |a| then KeyOf(a[i]) == k else KeyOf(b[i - |a|]) == k;
    }
  }

  lemma {:induction false} NothingToAdd(rows: seq<Row>, project: nat, provider: string, entries: seq<Entry>)
    requires forall i :: 0 <= i < |entries| ==> Known(rows, KeyOf(RowAt(project, provider, entries[i])))
    ensures Added(rows, project, provider, entries) == []
  {
    if entries != [] {
      NothingToAdd(rows, project, provider, entries[..|entries| - 1]);
      assert rows + [] == rows;
      assert Known(rows, KeyOf(RowAt(project, provider, entries[|entries| - 1])));
    }
  }

  /** Synchronising again creates nothing, also when the second fetch has other amounts for the
      same services and months: what is stored is never corrected. */
  lemma SyncIsIdempotent(rows: seq<Row>, project: nat, provider: string, first: seq<Entry>, second: seq<Entry>)
    requires forall i :: 0 <= i < |second| ==>
                         Offered(first, project, provider, KeyOf(RowAt(project, provider, second[i])))
    ensures Added(rows + Added(rows, project, provider, first), project, provider, second) == []
  {
    var after := rows + Added(rows, project, provider, first);
    forall i | 0 <= i < |second| ensures Known(after, KeyOf(RowAt(project, provider, second[i]))) {
      KeysAfter(rows, project, provider, first, KeyOf(RowAt(project, provider, second[i])));
    }
    NothingToAdd(after, project, provider, second);
  }

  // ----- amounts

  function Stored(rows: seq<Row>): real {
    if rows == [] then 0.0 else Stored(rows[..|rows| - 1]) + rows[|rows| - 1].entry.amount
  }

  /** No key is fetched twice and none is stored already. */
  ghost predicate AllNew(rows: seq<Row>, project: nat, provider: string, entries: seq<Entry>) {
    (forall i :: 0 <= i < |entries| ==> !Known(rows, KeyOf(RowAt(project, provider, entries[i])))) &&
    (forall i, j :: 0 <= i < j < |entries| ==>
      KeyOf(RowAt(project, provider, entries[i])) != KeyOf(RowAt(project, provider, entries[j])))
  }

  lemma AllNewSplit(rows: seq<Row>, project: nat, provider: string, entries: seq<Entry>)
    requires entries != []
    ensures var n := |entries| - 1; var k := KeyOf(RowAt(project, provider, entries[n]));
      AllNew(rows, project, provider, entries) <==>
      AllNew(rows, project, provider, entries[..n]) && !Known(rows, k) && !Offered(entries[..n], project, provider, k)
  {
  }

  /** A synchronisation never stores more than was fetched, and stores all of it exactly when all
      keys are new: a second entry for the same service and month is dropped. */
  lemma {:induction false} StoredIsFetchedIff(rows: seq<Row>, project: nat, provider: string, entries: seq<Entry>)
    requires forall i :: 0 <= i < |entries| ==> entries[i].amount > 0.0
    ensures Stored(Added(rows, project, provider, entries)) <= Sum(entries)
    ensures Stored(Added(rows, project, provider, entries)) == Sum(entries) <==>
      AllNew(rows, project, provider, entries)
  {
    if entries != [] {
      var n := |entries| - 1;
      var k := KeyOf(RowAt(project, provider, entries[n]));
      var before := Added(rows, project, provider, entries[..n]);
      StoredIsFetchedIff(rows, project, provider, entries[..n]);
      AllNewSplit(rows, project, provider, entries);
      KeysAfter(rows, project, provider, entries[..n], k);
      assert (before + [Row(project, provider, entries[n])])[..|before|] == before;
    }
  }

  // ----- the budget of the current month

  /** Spending of a project in the month of a date, as the budget check adds it up. */
  function Spend(rows: seq<Row>, project: nat, today: Date): real
    requires BudgetWindow(today).Some?
  {
    if rows == [] then 0.0
    else
      var r := rows[|rows| - 1];
      Spend(rows[..|rows| - 1], project, today) +
      if r.project == project && InBudgetWindow(r.entry.start, today) then r.entry.amount else 0.0
  }

  predicate Counts(rows: seq<Row>, project: nat, today: Date)
    requires BudgetWindow(today).Some?
  {
    exists i :: 0 <= i < |rows| && rows[i].project == project && InBudgetWindow(rows[i].entry.start, today)
  }

  lemma {:induction false} SpendGrows(rows: seq<Row>, more: seq<Row>, project: nat, today: Date)
    requires BudgetWindow(today).Some? && forall i :: 0 <= i < |more| ==> more[i].entry.amount > 0.0
    ensures Spend(rows + more, project, today) >= Spend(rows, project, today)
    ensures Spend(rows + more, project, today) == Spend(rows, project, today) <==> !Counts(more, project, today)
  {
    if more == [] {
      assert rows + more == rows;
    } else {
      hide InBudgetWindow;
      var n := |more| - 1;
      SpendGrows(rows, more[..n], project, today);
      assert (rows + more)[..|rows + more| - 1] == rows + more[..n];
      CountsSplit(more, project, today);
    }
  }

  lemma CountsSplit(rows: seq<Row>, project: nat, today: Date)
    requires BudgetWindow(today).Some? && rows != []
    ensures var r := rows[|rows| - 1];
      Counts(rows, project, today) <==>
      Counts(rows[..|rows| - 1], project, today) || (r.project == project && InBudgetWindow(r.entry.start, today))
  {
  }

  /** A synchronisation leaves the current month's spending - hence its budget tier - exactly as
      it was if and only if no created row starts in the current month; other projects are never
      affected. */
  lemma BudgetUnchangedIff(rows: seq<Row>, project: nat, provider: string, entries: seq<Entry>, other: nat, today: Date)
    requires BudgetWindow(today).Some? && forall i :: 0 <= i < |entries| ==> entries[i].amount > 0.0
    ensures var created := Added(rows, project, provider, entries);
      (Spend(rows + created, project, today) == Spend(rows, project, today) <==> !Counts(created, project, today)) &&
      (other != project ==> Spend(rows + created, other, today) == Spend(rows, other, today))
  {
    var created := Added(rows, project, provider, entries);
    AddedFromEntries(rows, project, provider, entries);
    forall i | 0 <= i < |created| ensures created[i].entry.amount > 0.0 {
      assert created[i].entry in entries;
    }
    SpendGrows(rows, created, project, today);
    if other != project { assert !Counts(created, other, today); }
    SpendGrows(rows, created, other, today);
  }

  lemma {:induction false} AddedFromEntries(rows: seq<Row>, project: nat, provider: string, entries: seq<Entry>)
    ensures forall r :: r in Added(rows, project, provider, entries) ==>
                        r.project == project && r.provider == provider && r.entry in entries
  {
    if entries != [] {
      var n := |entries| - 1;
      AddedFromEntries(rows, project, provider, entries[..n]);
      assert forall e :: e in entries[..n] ==> e in entries;
    }
  }

  lemma FetchedInListedMonth(today: Date, months: nat, usage: string -> Usage, e: Entry)
    requires Valid(today) && Fetched(today, months, usage, months).Some?
    requires e in Fetched(today, months, usage, months).value
    ensures e.amount > 0.0 && Valid(e.start) && e.start.year >= 1000
    ensures Index(today) - months <= Index(e.start) < Index(today)
  {
    hide Fetched, Reported, DayBefore;
    FetchedIff(today, months, usage, months, e);
  }

  /** Synchronising the closed months of the local calendar leaves the spending of the UTC month
      as it was. */
  ghost predicate LeavesBudget(rows: seq<Row>, project: nat, provider: string, usage: string -> Usage, months: nat,
                               local: Date, utc: Date)
    requires BudgetWindow(utc).Some?
  {
    var fetched := Fetched(local, months, usage, months);
    fetched.Some? ==>
      Spend(rows + Added(rows, project, provider, fetched.value), project, utc) == Spend(rows, project, utc)
  }

  /** It does so whatever is stored already and whatever the provider answers. */
  ghost predicate BudgetAlwaysLeft(months: nat, local: Date, utc: Date)
    requires BudgetWindow(utc).Some?
  {
    forall rows, project, provider, usage :: LeavesBudget(rows, project, provider, usage, months, local, utc)
  }

  /** The UTC month is among the months that the local calendar considers closed. */
  predicate ListedAsClosed(months: nat, local: Date, utc: Date) {
    Index(local) - months <= Index(utc) < Index(local) && utc.year >= 1000
  }

  lemma UnlistedMonthUntouched(rows: seq<Row>, project: nat, provider: string, usage: string -> Usage, months: nat,
                               local: Date, utc: Date)
    requires Valid(local) && Valid(utc) && BudgetWindow(utc).Some? && !ListedAsClosed(months, local, utc)
    ensures LeavesBudget(rows, project, provider, usage, months, local, utc)
  {
    hide Spend, InBudgetWindow, Fetched, Added, Valid, BudgetWindow;
    var fetched := Fetched(local, months, usage, months);
    if fetched.Some? {
      var entries := fetched.value;
      var created := Added(rows, project, provider, entries);
      AddedFromEntries(rows, project, provider, entries);
      forall r | r in created ensures r.entry.amount > 0.0 && !InBudgetWindow(r.entry.start, utc) {
        FetchedInListedMonth(local, months, usage, r.entry);
        WindowIsTheMonth(utc, r.entry.start);
        if Index(r.entry.start) == Index(utc) { SameMonth(r.entry.start, utc); }
      }
      assert forall i :: 0 <= i < |created| ==> created[i] in created;
      SpendGrows(rows, created, project, utc);
    }
  }

  lemma SameMonth(d: Date, e: Date)
    requires Valid(d) && Valid(e) && Index(d) == Index(e)
    ensures d.year == e.year && d.month == e.month
  {
  }

  /** A provider that has a report for one month only, with one charge of one unit. */
  function OneCharge(i: int): string -> Usage {
    period => if period == MonthTextAt(i) then Report("USD", [Resource(Some("compute"), None, Some(1.0))]) else NoReport
  }

  lemma {:induction false} OneChargeFetched(today: Date, months: int, i: int, k: nat)
    requires k <= months && PeriodBounds(MonthTextAt(i)).Some?
    ensures Fetched(today, months, OneCharge(i), k).Some?
  {
    hide PeriodBounds, MonthTextAt, ReportEntries;
    if k > 0 { OneChargeFetched(today, months, i, k - 1); }
  }

  function Charge(i: int): Entry
    requires PeriodBounds(MonthTextAt(i)).Some?
  {
    Entry("compute", 1.0, "USD", PeriodBounds(MonthTextAt(i)).value.0, PeriodBounds(MonthTextAt(i)).value.1)
  }

  lemma ChargeIsFetched(today: Date, months: nat, i: int)
    requires Valid(today) && Index(today) - months <= i < Index(today) && PeriodBounds(MonthTextAt(i)).Some?
    ensures var fetched := Fetched(today, months, OneCharge(i), months);
      fetched.Some? && Charge(i) in fetched.value
  {
    IndexBound(today);
    hide Fetched, MonthTextAt, PeriodBounds, Bounds, Valid;
    PeriodBoundsIff(i);
    OneChargeFetched(today, months, i, months);
    FetchedIff(today, months, OneCharge(i), months, Charge(i));
    var resources := [Resource(Some("compute"), None, Some(1.0))];
    assert resources[0] in resources && Reported(Charge(i), Report("USD", resources));
  }

  lemma ListedMonthTouched(project: nat, provider: string, months: nat, local: Date, utc: Date)
    requires Valid(local) && Valid(utc) && BudgetWindow(utc).Some? && ListedAsClosed(months, local, utc)
    ensures !LeavesBudget([], project, provider, OneCharge(Index(utc)), months, local, utc)
  {
    var i := Index(utc);
    WindowReadable(utc);
    ChargeIsFetched(local, months, i);
    hide Fetched, MonthTextAt, PeriodBounds, Bounds, Spend, Added, InBudgetWindow, Valid;
    PeriodBoundsIff(i);
    var entries := Fetched(local, months, OneCharge(i), months).value;
    forall e | e in entries ensures e.amount > 0.0 { FetchedInListedMonth(local, months, OneCharge(i), e); }
    WindowIsTheMonth(utc, Charge(i).start);
    FetchedIsKnown(entries, project, provider, Charge(i), utc);
    BudgetUnchangedIff([], project, provider, entries, project, utc);
  }

  lemma WindowReadable(d: Date)
    requires Valid(d) && BudgetWindow(d).Some? && d.year >= 1000
    ensures PeriodBounds(MonthTextAt(Index(d))).Some?
  {
    hide PeriodBounds, MonthTextAt;
    PeriodBoundsIff(Index(d));
    MonthComputationsAgree(d);
  }

  /** A fetched entry of the window makes its key count, whichever entry is stored under it. */
  lemma FetchedIsKnown(entries: seq<Entry>, project: nat, provider: string, e: Entry, today: Date)
    requires BudgetWindow(today).Some? && e in entries && InBudgetWindow(e.start, today)
    ensures Counts(Added([], project, provider, entries), project, today)
  {
    hide InBudgetWindow;
    var k := KeyOf(RowAt(project, provider, e));
    var created := Added([], project, provider, entries);
    KeysAfter([], project, provider, entries, k);
    assert [] + created == created;
    var i :| 0 <= i < |entries| && entries[i] == e;
    assert KeyOf(RowAt(project, provider, entries[i])) == k;
    var j :| 0 <= j < |created| && KeyOf(created[j]) == k;
  }

  /** Synchronising closed months never changes the current spending, whatever is stored and
      whatever the provider answers, if and only if the budget month - by the UTC date - is not
      among the months that are closed by the local date. */
  lemma ClosedMonthsLeaveBudgetIff(months: nat, local: Date, utc: Date)
    requires Valid(local) && Valid(utc) && BudgetWindow(utc).Some?
    ensures BudgetAlwaysLeft(months, local, utc) <==> !ListedAsClosed(months, local, utc)
  {
    hide LeavesBudget;
    if ListedAsClosed(months, local, utc) {
      ListedMonthTouched(0, "ibm", months, local, utc);
    } else {
      forall rows, project, provider, usage
        ensures LeavesBudget(rows, project, provider, usage, months, local, utc)
      {
        UnlistedMonthUntouched(rows, project, provider, usage, months, local, utc);
      }
    }
  }

  /** East of Greenwich the first hours of 1 February are still 31 January in UTC: January counts
      as closed, is fetched, and raises the spending of the month whose budget is being watched. */
  lemma FirstHoursOfFebruary(year: int, months: nat)
    requires 1000 <= year <= MAX_YEAR && months >= 1
    ensures var local, utc := Date(year, 2, 1), Date(year, 1, 31);
      Valid(local) && Valid(utc) && BudgetWindow(utc).Some? &&
      !LeavesBudget([], 0, "ibm", OneCharge(Index(utc)), months, local, utc)
  {
    hide LeavesBudget;
    ListedMonthTouched(0, "ibm", months, Date(year, 2, 1), Date(year, 1, 31));
  }

  // ----- when a whole fetch is stored

  ghost predicate NoneStored(rows: seq<Row>, project: nat, provider: string, entries: seq<Entry>) {
    forall i :: 0 <= i < |entries| ==> !Known(rows, KeyOf(RowAt(project, provider, entries[i])))
  }

  lemma AllNewIffDistinct(rows: seq<Row>, project: nat, provider: string, entries: seq<Entry>)
    requires NoneStored(rows, project, provider, entries)
    ensures AllNew(rows, project, provider, entries) <==> DistinctEntries(entries)
  {
    hide Known;
    forall i, j | 0 <= i < j < |entries|
      ensures KeyOf(RowAt(project, provider, entries[i])) == KeyOf(RowAt(project, provider, entries[j])) <==>
              SameKey(entries[i], entries[j])
    {
    }
  }

  /** A synchronisation with IBM stores everything it fetched, given that nothing of it was stored
      before, if and only if no monthly report charges two resources under one name. */
  lemma ReportsStoredIff(rows: seq<Row>, project: nat, provider: string, today: Date, months: nat,
                         usage: string -> Usage)
    requires Valid(today)
    ensures var fetched := Fetched(today, months, usage, months);
      fetched.Some? && NoneStored(rows, project, provider, fetched.value) ==>
        (Stored(Added(rows, project, provider, fetched.value)) == Sum(fetched.value) <==>
         forall m :: 0 <= m < months ==> MonthClean(today, months, usage, m))
  {
    hide Fetched, MonthClean, NoneStored, AllNew, Valid, Stored, Sum, Added;
    var fetched := Fetched(today, months, usage, months);
    if fetched.Some? && NoneStored(rows, project, provider, fetched.value) {
      forall i | 0 <= i < |fetched.value| ensures fetched.value[i].amount > 0.0 {
        FetchedInListedMonth(today, months, usage, fetched.value[i]);
      }
      StoredIsFetchedIff(rows, project, provider, fetched.value);
      AllNewIffDistinct(rows, project, provider, fetched.value);
      FetchedDistinctIff(today, months, usage, months);
    }
  }

  /** A synchronisation with DigitalOcean stores everything it fetched, given that nothing of it
      was stored before, if and only if no two invoices of one month share a product. */
  lemma InvoicesStoredIff(rows: seq<Row>, project: nat, provider: string, invoices: seq<Invoice>,
                          groups: seq<seq<Entry>>)
    requires Grouped(invoices, groups) && NoneStored(rows, project, provider, Flat(groups))
    ensures Stored(Added(rows, project, provider, Flat(groups))) == Sum(Flat(groups)) <==>
            forall i, j :: 0 <= i < j < |invoices| ==> !ShareProduct(invoices[i], invoices[j])
  {
    hide ShareProduct, NoneStored, AllNew, Stored, Sum, Added;
    FlatPositive(invoices, groups);
    StoredIsFetchedIff(rows, project, provider, Flat(groups));
    AllNewIffDistinct(rows, project, provider, Flat(groups));
    InvoicesDistinctIff(invoices, groups);
  }

  lemma {:induction false} FlatPositive(invoices: seq<Invoice>, groups: seq<seq<Entry>>)
    requires Grouped(invoices, groups)
    ensures forall i :: 0 <= i < |Flat(groups)| ==> Flat(groups)[i].amount > 0.0
  {
    if groups != [] {
      var n := |groups| - 1;
      FlatPositive(invoices[..n], groups[..n]);
      assert IsGroup(groups[n], invoices[n]);
      forall i | 0 <= i < |groups[n]| ensures groups[n][i].amount > 0.0 { assert groups[n][i] in groups[n]; }
    }
  }

  /** Two resources of one name in one report: the charge of the second is lost. */
  lemma SecondChargeIsLost(project: nat, provider: string, name: string, a: real, b: real, bounds: (Date, Date))
    requires name != "" && a > 0.0 && b > 0.0
    ensures var report := Report("USD", [Resource(Some(name), None, Some(a)), Resource(Some(name), None, Some(b))]);
      var entries := ReportEntries(report, bounds, 2);
      Sum(entries) == a + b && Stored(Added([], project, provider, entries)) == a
  {
    var first, second := Resource(Some(name), None, Some(a)), Resource(Some(name), None, Some(b));
    var u := Report("USD", [first, second]);
    var e, f := Entry(name, a, "USD", bounds.0, bounds.1), Entry(name, b, "USD", bounds.0, bounds.1);
    assert ReportEntries(u, bounds, 1) == [e];
    assert ReportEntries(u, bounds, 2) == [e] + [f];
    TwoOfOneKey(project, provider, e, f);
  }

  lemma TwoOfOneKey(project: nat, provider: string, e: Entry, f: Entry)
    requires SameKey(e, f)
    ensures Sum([e] + [f]) == e.amount + f.amount && Stored(Added([], project, provider, [e] + [f])) == e.amount
  {
    var both, row := [e] + [f], RowAt(project, provider, e);
    assert both[..1] == [e] && [e][..0] == [] && Sum([]) == 0.0;
    assert Sum([e]) == e.amount;
    assert [] + Added([], project, provider, []) == [];
    assert Added([], project, provider, [e]) == [row];
    assert KeyOf(([] + [row])[0]) == KeyOf(RowAt(project, provider, f));
    assert Added([], project, provider, both) == [row];
    assert [row][..0] == [];
  }
}
