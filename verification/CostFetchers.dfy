/** How the providers' billing answers become cost entries: skipping, accumulating and dating. */
module CostFetchers {
  import opened Common
  import opened Calendar

  /** One month of spending on one service, as every provider reports it. */
  datatype Entry = Entry(service: string, amount: real, currency: string, start: Date, end: Date)

  function Sum(entries: seq<Entry>): real {
    if entries == [] then 0.0 else Sum(entries[..|entries| - 1]) + entries[|entries| - 1].amount
  }

  function Text(o: Option<string>): string { if o.Some? then o.value else "" }

  // ----- DigitalOcean: items of an invoice added up by product

  datatype Item = Item(product: Option<string>, group: Option<string>, description: Option<string>,
                       amount: Option<real>)

  function Amount(i: Item): real { if i.amount.Some? then i.amount.value else 0.0 }

  /** The first of several texts that is not blank. */
  ghost predicate FirstFilled(texts: seq<string>, t: string) {
    exists k :: 0 <= k < |texts| && texts[k] == t && t != "" && forall j :: 0 <= j < k ==> texts[j] == ""
  }

  function Label(i: Item): (name: string)
    ensures FirstFilled([Text(i.product), Text(i.group), Text(i.description), "unknown"], name)
  {
    var texts := [Text(i.product), Text(i.group), Text(i.description), "unknown"];
    assert texts[0] == Text(i.product) && texts[1] == Text(i.group) && texts[2] == Text(i.description);
    assert texts[3] == "unknown";
    if Text(i.product) != "" then Text(i.product)
    else if Text(i.group) != "" then Text(i.group)
    else if Text(i.description) != "" then Text(i.description)
    else "unknown"
  }

  /** Real spending of the items: what is not positive does not count. */
  function Spent(items: seq<Item>): real {
    if items == [] then 0.0
    else Spent(items[..|items| - 1]) + if Amount(items[|items| - 1]) > 0.0 then Amount(items[|items| - 1]) else 0.0
  }

  function SpentOn(items: seq<Item>, product: string): real {
    if items == [] then 0.0
    else
      var i := items[|items| - 1];
      SpentOn(items[..|items| - 1], product) + if Buys(i, product) then Amount(i) else 0.0
  }

  predicate Buys(i: Item, product: string) { Amount(i) > 0.0 && Label(i) == product }

  predicate Bought(items: seq<Item>, product: string) {
    exists k :: 0 <= k < |items| && Buys(items[k], product)
  }

  function TotalOf(products: seq<string>, totals: map<string, real>): real
    requires forall p :: p in products ==> p in totals
  {
    if products == [] then 0.0
    else TotalOf(products[..|products| - 1], totals) + totals[products[|products| - 1]]
  }

  lemma {:induction false} TotalWithout(products: seq<string>, totals: map<string, real>, p: string, v: real)
    requires forall q :: q in products ==> q in totals
    requires p !in products
    ensures TotalOf(products, totals[p := v]) == TotalOf(products, totals)
  {
    if products != [] { TotalWithout(products[..|products| - 1], totals, p, v); }
  }

  /** Adding to the total of one listed product adds to the whole. */
  lemma {:induction false} TotalAdds(products: seq<string>, totals: map<string, real>, p: string, v: real)
    requires Distinct(products) && p in products && forall q :: q in products ==> q in totals
    ensures TotalOf(products, totals[p := totals[p] + v]) == TotalOf(products, totals) + v
  {
    var n := |products| - 1;
    if products[n] == p {
      TotalWithout(products[..n], totals, p, totals[p] + v);
    } else {
      TotalAdds(products[..n], totals, p, v);
    }
  }

  /** The accumulated totals: the products with real spending, none twice, each with what was
      spent on it. */
  ghost predicate Totalled(items: seq<Item>, products: seq<string>, totals: map<string, real>) {
    Distinct(products) && (forall p :: p in products <==> p in totals) &&
    (forall p :: p in totals <==> Bought(items, p)) &&
    (forall p :: p in totals ==> totals[p] == SpentOn(items, p) && totals[p] > 0.0)
  }

  /** The totals of the items, which together are exactly what was spent. */
  ghost predicate Accumulated(items: seq<Item>, products: seq<string>, totals: map<string, real>) {
    Totalled(items, products, totals) && TotalOf(products, totals) == Spent(items)
  }

  method TotalsByProduct(items: seq<Item>) returns (products: seq<string>, totals: map<string, real>)
    ensures Accumulated(items, products, totals)
  {
    hide Accumulated, Amount, Label;
    products, totals := [], map[];
    NothingBought();
    assert items[..0] == [];
    for k := 0 to |items|
      invariant Accumulated(items[..k], products, totals)
    {
      var amount, product := Amount(items[k]), Label(items[k]);
      AddItem(items, k, products, totals);
      if amount > 0.0 {
        products := if product in totals then products else products + [product];
        totals := totals[product := (if product in totals then totals[product] else 0.0) + amount];
      }
    }
    assert items[..|items|] == items;
  }

  lemma NothingBought()
    ensures Accumulated([], [], map[])
  {
  }

  lemma AddItem(items: seq<Item>, k: nat, products: seq<string>, totals: map<string, real>)
    requires k < |items| && Accumulated(items[..k], products, totals)
    ensures Amount(items[k]) <= 0.0 ==> Accumulated(items[..k + 1], products, totals)
    ensures Amount(items[k]) > 0.0 ==>
      var p := Label(items[k]);
      Accumulated(items[..k + 1], if p in totals then products else products + [p],
                  totals[p := (if p in totals then totals[p] else 0.0) + Amount(items[k])])
  {
    hide Totalled, TotalOf, Amount, Label, Spent;
    SpentStep(items, k);
    if Amount(items[k]) <= 0.0 {
      StillTotalled(items, k, products, totals);
    } else if Label(items[k]) in totals {
      AddToKnown(items, k, products, totals);
    } else {
      AddNew(items, k, products, totals);
    }
  }

  lemma SpentStep(items: seq<Item>, k: nat)
    requires k < |items|
    ensures Spent(items[..k + 1]) == Spent(items[..k]) + if Amount(items[k]) > 0.0 then Amount(items[k]) else 0.0
  {
    assert items[..k + 1][..k] == items[..k];
  }

  lemma SpentOnStep(items: seq<Item>, k: nat, p: string)
    requires k < |items|
    ensures SpentOn(items[..k + 1], p) == SpentOn(items[..k], p) + if Buys(items[k], p) then Amount(items[k]) else 0.0
  {
    assert items[..k + 1][..k] == items[..k];
  }

  lemma StillTotalled(items: seq<Item>, k: nat, products: seq<string>, totals: map<string, real>)
    requires k < |items| && Totalled(items[..k], products, totals) && Amount(items[k]) <= 0.0
    ensures Totalled(items[..k + 1], products, totals)
  {
    BoughtStep(items, k);
    hide Amount, Label, Bought, SpentOn;
    forall p ensures SpentOn(items[..k + 1], p) == SpentOn(items[..k], p) { SpentOnStep(items, k, p); }
  }

  lemma AddToKnown(items: seq<Item>, k: nat, products: seq<string>, totals: map<string, real>)
    requires k < |items| && Totalled(items[..k], products, totals)
    requires Amount(items[k]) > 0.0 && Label(items[k]) in totals
    ensures var p := Label(items[k]); var totals' := totals[p := totals[p] + Amount(items[k])];
      Totalled(items[..k + 1], products, totals') &&
      TotalOf(products, totals') == TotalOf(products, totals) + Amount(items[k])
  {
    hide Bought, SpentOn, TotalOf, Amount, Label;
    TotalAdds(products, totals, Label(items[k]), Amount(items[k]));
    BoughtStep(items, k);
    forall p ensures SpentOn(items[..k + 1], p) ==
                     SpentOn(items[..k], p) + if Buys(items[k], p) then Amount(items[k]) else 0.0
    {
      SpentOnStep(items, k, p);
    }
  }

  lemma AddNew(items: seq<Item>, k: nat, products: seq<string>, totals: map<string, real>)
    requires k < |items| && Totalled(items[..k], products, totals)
    requires Amount(items[k]) > 0.0 && Label(items[k]) !in totals
    ensures var p := Label(items[k]); var totals' := totals[p := 0.0 + Amount(items[k])];
      Totalled(items[..k + 1], products + [p], totals') &&
      TotalOf(products + [p], totals') == TotalOf(products, totals) + Amount(items[k])
  {
    hide Bought, SpentOn, TotalOf, Amount, Label;
    var p := Label(items[k]);
    NewTotal(products, totals, p, Amount(items[k]));
    NotBought(items[..k], p);
    BoughtStep(items, k);
    forall q ensures SpentOn(items[..k + 1], q) ==
                     SpentOn(items[..k], q) + if Buys(items[k], q) then Amount(items[k]) else 0.0
    {
      SpentOnStep(items, k, q);
    }
  }

  lemma NewTotal(products: seq<string>, totals: map<string, real>, p: string, v: real)
    requires p !in products && forall q :: q in products ==> q in totals
    ensures TotalOf(products + [p], totals[p := 0.0 + v]) == TotalOf(products, totals) + v
  {
    TotalWithout(products, totals, p, v);
    assert (products + [p])[..|products|] == products;
  }

  lemma BoughtStep(items: seq<Item>, k: nat)
    requires k < |items|
    ensures forall p :: Bought(items[..k + 1], p) <==>
                        Bought(items[..k], p) || Buys(items[k], p)
  {
  }

  lemma {:induction false} NotBought(items: seq<Item>, p: string)
    requires !Bought(items, p)
    ensures SpentOn(items, p) == 0.0
  {
    if items != [] {
      var n := |items| - 1;
      BoughtStep(items, n);
      assert items[..n + 1] == items;
      NotBought(items[..n], p);
    }
  }

  // ----- DigitalOcean: invoices of the last months

  /** Missing and blank periods and ids are alike; without items the provider refused the invoice. */
  datatype Invoice = Invoice(period: string, uuid: string, items: Option<seq<Item>>)

  predicate Skipped(v: Invoice) { v.period == "" || v.uuid == "" }

  /** The entries of an invoice: one for each product with real spending, with what was spent on
      it, dated with the bounds of the invoice's month. */
  ghost predicate InvoiceEntries(es: seq<Entry>, items: seq<Item>, bounds: (Date, Date)) {
    (forall i, j :: 0 <= i < j < |es| ==> es[i].service != es[j].service) &&
    (forall e :: e in es ==> Bought(items, e.service) && e.amount > 0.0) &&
    (forall e :: e in es ==> e == Entry(e.service, SpentOn(items, e.service), "USD", bounds.0, bounds.1)) &&
    (forall p :: Bought(items, p) ==> exists e :: e in es && e.service == p)
  }

  ghost predicate IsGroup(es: seq<Entry>, v: Invoice) {
    if Skipped(v) then es == []
    else
      v.items.Some? && PeriodBounds(v.period).Some? &&
      InvoiceEntries(es, v.items.value, PeriodBounds(v.period).value)
  }

  function Flat(groups: seq<seq<Entry>>): seq<Entry> {
    if groups == [] then [] else Flat(groups[..|groups| - 1]) + groups[|groups| - 1]
  }

  ghost predicate Grouped(invoices: seq<Invoice>, groups: seq<seq<Entry>>) {
    |groups| == |invoices| && forall i :: 0 <= i < |groups| ==> IsGroup(groups[i], invoices[i])
  }

  method InvoiceLines(items: seq<Item>, bounds: (Date, Date)) returns (es: seq<Entry>)
    ensures InvoiceEntries(es, items, bounds)
  {
    var products, totals := TotalsByProduct(items);
    hide Bought, SpentOn;
    es := [];
    for i := 0 to |products|
      invariant |es| == i
      invariant forall j :: 0 <= j < i ==> es[j] == Entry(products[j], totals[products[j]], "USD", bounds.0, bounds.1)
    {
      es := es + [Entry(products[i], totals[products[i]], "USD", bounds.0, bounds.1)];
    }
    forall p | Bought(items, p) ensures exists e :: e in es && e.service == p {
      assert p in products;
      var i :| 0 <= i < |products| && products[i] == p;
      assert es[i] in es;
    }
  }

  /** The entries of the newest invoices, invoice by invoice; nothing after an error. */
  method FetchInvoices(invoices: seq<Invoice>, months: nat)
    returns (r: Option<seq<Entry>>, ghost groups: seq<seq<Entry>>)
    ensures r.Some? ==> Grouped(Newest(invoices, months), groups) && r.value == Flat(groups)
    ensures r.None? <==> exists i :: 0 <= i < |Newest(invoices, months)| && Unreadable(Newest(invoices, months)[i])
  {
    hide InvoiceEntries, PeriodBounds;
    var newest := Newest(invoices, months);
    var results: seq<Entry> := [];
    groups := [];
    for k := 0 to |newest|
      invariant |groups| == k && Grouped(newest[..k], groups) && results == Flat(groups)
      invariant forall i :: 0 <= i < k ==> !Unreadable(newest[i])
    {
      var v, es := newest[k], [];
      if !Skipped(v) {
        var bounds := PeriodBounds(v.period);
        if bounds.None? || v.items.None? {
          assert Unreadable(newest[k]);
          return None, groups;
        }
        es := InvoiceLines(v.items.value, bounds.value);
      }
      assert (groups + [es])[..k] == groups;
      groups, results := groups + [es], results + es;
    }
    assert newest[..|newest|] == newest;
    r := Some(results);
  }

  /** Invoices are listed newest first. */
  function Newest(invoices: seq<Invoice>, months: nat): (newest: seq<Invoice>)
    ensures newest <= invoices && |newest| == if months < |invoices| then months else |invoices|
  {
    if |invoices| <= months then invoices else invoices[..months]
  }

  predicate Unreadable(v: Invoice) {
    !Skipped(v) && (v.items.None? || PeriodBounds(v.period).None?)
  }

  // ----- entries with one key

  /** Entries that would be stored under one key. */
  predicate SameKey(a: Entry, b: Entry) { a.service == b.service && a.start == b.start }

  ghost predicate DistinctEntries(es: seq<Entry>) {
    forall i, j :: 0 <= i < j < |es| ==> !SameKey(es[i], es[j])
  }

  ghost predicate NoneShared(a: seq<Entry>, b: seq<Entry>) {
    forall i, j :: 0 <= i < |a| && 0 <= j < |b| ==> !SameKey(a[i], b[j])
  }

  lemma DistinctConcat(a: seq<Entry>, b: seq<Entry>)
    ensures DistinctEntries(a + b) <==> DistinctEntries(a) && DistinctEntries(b) && NoneShared(a, b)
  {
    hide SameKey;
    var c := a + b;
    if DistinctEntries(c) {
      forall i, j | 0 <= i < j < |a| ensures !SameKey(a[i], a[j]) { assert c[i] == a[i] && c[j] == a[j]; }
      forall i, j | 0 <= i < j < |b| ensures !SameKey(b[i], b[j]) {
        assert c[|a| + i] == b[i] && c[|a| + j] == b[j];
      }
      forall i, j | 0 <= i < |a| && 0 <= j < |b| ensures !SameKey(a[i], b[j]) {
        assert c[i] == a[i] && c[|a| + j] == b[j];
      }
    }
  }

  /** Two invoices of one month with spending on the same product. */
  ghost predicate ShareProduct(v: Invoice, w: Invoice) {
    !Unreadable(v) && !Unreadable(w) && !Skipped(v) && !Skipped(w) &&
    PeriodBounds(v.period).value.0 == PeriodBounds(w.period).value.0 &&
    exists p :: Bought(v.items.value, p) && Bought(w.items.value, p)
  }

  lemma GroupsShareIff(a: seq<Entry>, b: seq<Entry>, v: Invoice, w: Invoice)
    requires IsGroup(a, v) && IsGroup(b, w)
    ensures NoneShared(a, b) <==> !ShareProduct(v, w)
  {
    hide PeriodBounds, Bought, SpentOn;
    if ShareProduct(v, w) {
      var p :| Bought(v.items.value, p) && Bought(w.items.value, p);
      var e :| e in a && e.service == p;
      var f :| f in b && f.service == p;
      var i :| 0 <= i < |a| && a[i] == e;
      var j :| 0 <= j < |b| && b[j] == f;
      assert SameKey(a[i], b[j]);
    }
    if i, j :| 0 <= i < |a| && 0 <= j < |b| && SameKey(a[i], b[j]) {
      assert a[i] in a && b[j] in b;
      assert Bought(v.items.value, a[i].service) && Bought(w.items.value, a[i].service);
    }
  }

  lemma {:induction false} SharedWithFlat(groups: seq<seq<Entry>>, b: seq<Entry>)
    ensures NoneShared(Flat(groups), b) <==> forall i :: 0 <= i < |groups| ==> NoneShared(groups[i], b)
  {
    if groups != [] {
      var n := |groups| - 1;
      SharedWithFlat(groups[..n], b);
      NoneSharedConcat(Flat(groups[..n]), groups[n], b);
      forall i | 0 <= i < n ensures groups[..n][i] == groups[i] {}
    }
  }

  lemma NoneSharedConcat(a: seq<Entry>, a': seq<Entry>, b: seq<Entry>)
    ensures NoneShared(a + a', b) <==> NoneShared(a, b) && NoneShared(a', b)
  {
    hide SameKey;
    var c := a + a';
    if NoneShared(c, b) {
      forall i, j | 0 <= i < |a| && 0 <= j < |b| ensures !SameKey(a[i], b[j]) { assert c[i] == a[i]; }
      forall i, j | 0 <= i < |a'| && 0 <= j < |b| ensures !SameKey(a'[i], b[j]) { assert c[|a| + i] == a'[i]; }
    }
  }

  /** Entries of fetched invoices have different keys exactly when no two invoices of one month
      share a product; within one invoice they always do. */
  lemma {:induction false} InvoicesDistinctIff(invoices: seq<Invoice>, groups: seq<seq<Entry>>)
    requires Grouped(invoices, groups)
    ensures DistinctEntries(Flat(groups)) <==>
            forall i, j :: 0 <= i < j < |invoices| ==> !ShareProduct(invoices[i], invoices[j])
  {
    hide ShareProduct, IsGroup, SameKey;
    if groups != [] {
      var n := |groups| - 1;
      InvoicesDistinctIff(invoices[..n], groups[..n]);
      DistinctConcat(Flat(groups[..n]), groups[n]);
      SharedWithFlat(groups[..n], groups[n]);
      GroupDistinct(groups[n], invoices[n]);
      forall i | 0 <= i < n ensures NoneShared(groups[..n][i], groups[n]) <==> !ShareProduct(invoices[i], invoices[n]) {
        GroupsShareIff(groups[i], groups[n], invoices[i], invoices[n]);
      }
      FrontPairs(invoices);
    }
  }

  lemma GroupDistinct(es: seq<Entry>, v: Invoice)
    requires IsGroup(es, v)
    ensures DistinctEntries(es)
  {
  }

  lemma FrontPairs(invoices: seq<Invoice>)
    requires invoices != []
    ensures var n := |invoices| - 1;
      (forall i, j :: 0 <= i < j < |invoices| ==> !ShareProduct(invoices[i], invoices[j])) <==>
      (forall i, j :: 0 <= i < j < n ==> !ShareProduct(invoices[..n][i], invoices[..n][j])) &&
      (forall i :: 0 <= i < n ==> !ShareProduct(invoices[i], invoices[n]))
  {
    hide ShareProduct;
    var n := |invoices| - 1;
    forall i | 0 <= i < n ensures invoices[..n][i] == invoices[i] {}
  }

  // ----- IBM: one report for each closed month

  datatype Resource = Resource(name: Option<string>, id: Option<string>, cost: Option<real>)

  /** A month without a report yet is skipped; any other error ends the fetch. */
  datatype Usage = NoReport | Rejected | Report(currency: string, resources: seq<Resource>)

  function Cost(r: Resource): real { if r.cost.Some? then r.cost.value else 0.0 }

  function ServiceName(r: Resource): (name: string)
    ensures r.id != Some("") ==> FirstFilled([Text(r.name), Text(r.id), "unknown"], name)
  {
    var texts := [Text(r.name), Text(r.id), "unknown"];
    assert texts[0] == Text(r.name) && texts[1] == Text(r.id) && texts[2] == "unknown";
    if Text(r.name) != "" then Text(r.name) else if r.id.Some? then r.id.value else "unknown"
  }

  function ReportEntries(u: Usage, bounds: (Date, Date), k: nat): seq<Entry>
    requires u.Report? && k <= |u.resources|
  {
    if k == 0 then []
    else
      var r := u.resources[k - 1];
      ReportEntries(u, bounds, k - 1) +
      if Cost(r) > 0.0 then [Entry(ServiceName(r), Cost(r), u.currency, bounds.0, bounds.1)] else []
  }

  /** What the first k of the closed months contribute; nothing at all after an error. */
  function Fetched(today: Date, months: int, usage: string -> Usage, k: nat): Option<seq<Entry>> {
    if k == 0 then Some([])
    else
      var before := Fetched(today, months, usage, k - 1);
      var period := MonthTextAt(Index(today) - months + k - 1);
      var u, bounds := usage(period), PeriodBounds(period);
      if before.None? || u.NoReport? then before
      else if u.Rejected? || bounds.None? then None
      else Some(before.value + ReportEntries(u, bounds.value, |u.resources|))
  }

  /** The charges of one report that are real spending. */
  method ReadReport(u: Usage, bounds: (Date, Date)) returns (entries: seq<Entry>)
    requires u.Report?
    ensures entries == ReportEntries(u, bounds, |u.resources|)
  {
    entries := [];
    for j := 0 to |u.resources|
      invariant entries == ReportEntries(u, bounds, j)
    {
      var r := u.resources[j];
      if Cost(r) > 0.0 {
        entries := entries + [Entry(ServiceName(r), Cost(r), u.currency, bounds.0, bounds.1)];
      }
    }
  }

  method Fetch(today: Date, months: int, usage: string -> Usage) returns (r: Option<seq<Entry>>)
    requires Valid(today)
    ensures r == Fetched(today, months, usage, if months > 0 then months else 0)
  {
    hide MonthTextAt, PeriodBounds, ReportEntries;
    var periods := LastBillingMonths(today, months);
    var results: seq<Entry> := [];
    for k := 0 to |periods|
      invariant Some(results) == Fetched(today, months, usage, k)
    {
      var u := usage(periods[k]);
      if u.Rejected? {
        StaysFailed(today, months, usage, k + 1, |periods|);
        return None;
      }
      if u.Report? {
        var bounds := PeriodBounds(periods[k]);
        if bounds.None? {
          StaysFailed(today, months, usage, k + 1, |periods|);
          return None;
        }
        var entries := ReadReport(u, bounds.value);
        results := results + entries;
      }
    }
    r := Some(results);
  }

  lemma {:induction false} StaysFailed(today: Date, months: int, usage: string -> Usage, k: nat, n: nat)
    requires k <= n && Fetched(today, months, usage, k).None?
    ensures Fetched(today, months, usage, n).None?
  {
    hide PeriodBounds, MonthTextAt, ReportEntries;
    if k < n { StaysFailed(today, months, usage, k, n - 1); }
  }

  ghost predicate Reported(e: Entry, u: Usage) {
    u.Report? && e.currency == u.currency &&
    exists r :: r in u.resources && Cost(r) == e.amount && ServiceName(r) == e.service
  }

  /** The entry comes from the report of the month in which it starts: one of the first k listed
      and of a year with four digits, since others cannot be read back. */
  ghost predicate FromClosedMonth(e: Entry, today: Date, months: int, usage: string -> Usage, k: nat) {
    e.amount > 0.0 && e.start.year >= 1000 &&
    Index(today) - months <= Index(e.start) < Index(today) - months + k &&
    e.start == First(Index(e.start)) && Bounds(e.start.year, e.start.month) == Some((e.start, e.end)) &&
    Reported(e, usage(MonthTextAt(Index(e.start))))
  }

  lemma {:induction false} EntriesOf(u: Usage, bounds: (Date, Date), k: nat, e: Entry)
    requires u.Report? && k <= |u.resources|
    ensures e in ReportEntries(u, bounds, k) <==>
      e.start == bounds.0 && e.end == bounds.1 && e.amount > 0.0 && e.currency == u.currency &&
      exists r :: r in u.resources[..k] && Cost(r) == e.amount && ServiceName(r) == e.service
  {
    if k > 0 {
      EntriesOf(u, bounds, k - 1, e);
      assert u.resources[..k] == u.resources[..k - 1] + [u.resources[k - 1]];
    }
  }

  /** A successful fetch returns exactly the positive charges of the reports of the closed months,
      dated with the bounds of their month. */
  lemma {:induction false} FetchedIff(today: Date, months: int, usage: string -> Usage, k: nat, e: Entry)
    requires Valid(today) && k <= months && Fetched(today, months, usage, k).Some?
    ensures e in Fetched(today, months, usage, k).value <==> FromClosedMonth(e, today, months, usage, k)
  {
    hide MonthTextAt, PeriodBounds, Bounds, First, Reported, Valid, ReportEntries;
    if k > 0 {
      FetchedIff(today, months, usage, k - 1, e);
      FetchedStep(today, months, usage, k, e);
    }
  }

  lemma FetchedStep(today: Date, months: int, usage: string -> Usage, k: nat, e: Entry)
    requires Valid(today) && 0 < k <= months && Fetched(today, months, usage, k).Some?
    ensures Fetched(today, months, usage, k - 1).Some?
    ensures e in Fetched(today, months, usage, k).value <==>
      e in Fetched(today, months, usage, k - 1).value ||
      (FromClosedMonth(e, today, months, usage, k) && Index(e.start) == Index(today) - months + k - 1)
  {
    var i := Index(today) - months + k - 1;
    var u := usage(MonthTextAt(i));
    if u.Report? {
      PeriodBoundsIff(i);
      var bounds := PeriodBounds(MonthTextAt(i)).value;
      EntriesOf(u, bounds, |u.resources|, e);
      assert u.resources[..|u.resources|] == u.resources;
      hide MonthTextAt, PeriodBounds, Bounds, Valid, ReportEntries;
      if Index(e.start) == i && e.start == First(i) { assert e.start == bounds.0; }
    }
  }

  // ----- IBM: when a fetch repeats a key

  ghost predicate DistinctServices(u: Usage, k: nat)
    requires u.Report? && k <= |u.resources|
  {
    forall i, j :: 0 <= i < j < k && Cost(u.resources[i]) > 0.0 && Cost(u.resources[j]) > 0.0 ==>
      ServiceName(u.resources[i]) != ServiceName(u.resources[j])
  }

  lemma {:induction false} ReportDistinctIff(u: Usage, bounds: (Date, Date), k: nat)
    requires u.Report? && k <= |u.resources|
    ensures DistinctEntries(ReportEntries(u, bounds, k)) <==> DistinctServices(u, k)
  {
    if k > 0 {
      hide Cost, ServiceName;
      ReportDistinctIff(u, bounds, k - 1);
      var r, before := u.resources[k - 1], ReportEntries(u, bounds, k - 1);
      if Cost(r) > 0.0 {
        var e := Entry(ServiceName(r), Cost(r), u.currency, bounds.0, bounds.1);
        assert ReportEntries(u, bounds, k) == before + [e];
        DistinctConcat(before, [e]);
        assert DistinctEntries([e]);
        RepeatedIff(u, bounds, k - 1, e);
      } else {
        assert ReportEntries(u, bounds, k) == before;
      }
    }
  }

  lemma RepeatedIff(u: Usage, bounds: (Date, Date), k: nat, e: Entry)
    requires u.Report? && k <= |u.resources| && e.start == bounds.0
    ensures NoneShared(ReportEntries(u, bounds, k), [e]) <==>
      forall i :: 0 <= i < k && Cost(u.resources[i]) > 0.0 ==> ServiceName(u.resources[i]) != e.service
  {
    hide Cost, ServiceName;
    var es := ReportEntries(u, bounds, k);
    if i: nat :| i < k && Cost(u.resources[i]) > 0.0 && ServiceName(u.resources[i]) == e.service {
      var same := Entry(e.service, Cost(u.resources[i]), u.currency, bounds.0, bounds.1);
      assert u.resources[..k][i] == u.resources[i];
      EntriesOf(u, bounds, k, same);
      var j :| 0 <= j < |es| && es[j] == same;
      assert SameKey(es[j], [e][0]);
    }
    if j :| 0 <= j < |es| && SameKey(es[j], e) {
      EntriesOf(u, bounds, k, es[j]);
      var r :| r in u.resources[..k] && Cost(r) == es[j].amount && ServiceName(r) == es[j].service;
      var i :| 0 <= i < k && u.resources[i] == r;
    }
  }

  /** The report of the m-th closed month, if there is one, charges no service twice. */
  ghost predicate MonthClean(today: Date, months: int, usage: string -> Usage, m: nat) {
    var u := usage(MonthTextAt(Index(today) - months + m));
    u.Report? ==> DistinctServices(u, |u.resources|)
  }

  /** A fetch has no two entries for one service and month exactly when no report charges a
      service twice. */
  lemma {:induction false} FetchedDistinctIff(today: Date, months: int, usage: string -> Usage, k: nat)
    requires Valid(today) && k <= months && Fetched(today, months, usage, k).Some?
    ensures DistinctEntries(Fetched(today, months, usage, k).value) <==>
            forall m :: 0 <= m < k ==> MonthClean(today, months, usage, m)
  {
    hide MonthClean, PeriodBounds, MonthTextAt, ReportEntries, Valid, DistinctEntries;
    if k == 0 {
      NothingDistinct();
    } else {
      FetchedSome(today, months, usage, k);
      FetchedDistinctIff(today, months, usage, k - 1);
      NextMonthDistinct(today, months, usage, k);
    }
  }

  lemma NothingDistinct()
    ensures DistinctEntries([])
  {
  }

  lemma FetchedSome(today: Date, months: int, usage: string -> Usage, k: nat)
    requires k > 0 && Fetched(today, months, usage, k).Some?
    ensures Fetched(today, months, usage, k - 1).Some?
  {
  }

  lemma FetchedNext(today: Date, months: int, usage: string -> Usage, k: nat, i: int)
    requires k > 0 && Fetched(today, months, usage, k).Some? && i == Index(today) - months + k - 1
    ensures var before, u := Fetched(today, months, usage, k - 1), usage(MonthTextAt(i));
      before.Some? && (u.Report? ==> PeriodBounds(MonthTextAt(i)).Some?) &&
      Fetched(today, months, usage, k).value == before.value +
        if u.Report? then ReportEntries(u, PeriodBounds(MonthTextAt(i)).value, |u.resources|) else []
  {
    hide MonthTextAt, PeriodBounds, ReportEntries;
  }

  lemma NextMonthDistinct(today: Date, months: int, usage: string -> Usage, k: nat)
    requires Valid(today) && 0 < k <= months
    requires Fetched(today, months, usage, k).Some? && Fetched(today, months, usage, k - 1).Some?
    ensures DistinctEntries(Fetched(today, months, usage, k).value) <==>
      DistinctEntries(Fetched(today, months, usage, k - 1).value) && MonthClean(today, months, usage, k - 1)
  {
    hide Fetched, Valid, DistinctEntries, DistinctServices, ReportEntries, MonthTextAt, PeriodBounds, Index;
    IndexBound(today);
    var i := Index(today) - months + k - 1;
    FetchedNext(today, months, usage, k, i);
    var before, u := Fetched(today, months, usage, k - 1).value, usage(MonthTextAt(i));
    if u.Report? {
      var bounds := PeriodBounds(MonthTextAt(i)).value;
      EarlierMonths(today, months, usage, k - 1, i);
      ReportAppended(before, u, bounds);
    } else {
      assert before + [] == before;
    }
  }

  lemma IndexBound(d: Date)
    requires Valid(d)
    ensures Index(d) < 12 * (MAX_YEAR + 1)
  {
  }

  lemma EarlierMonths(today: Date, months: int, usage: string -> Usage, k: nat, i: int)
    requires Valid(today) && k <= months && i == Index(today) - months + k < 12 * (MAX_YEAR + 1)
    requires Fetched(today, months, usage, k).Some? && PeriodBounds(MonthTextAt(i)).Some?
    ensures forall e :: e in Fetched(today, months, usage, k).value ==> e.start != PeriodBounds(MonthTextAt(i)).value.0
  {
    hide Fetched, Valid, MonthTextAt, PeriodBounds, Bounds;
    PeriodBoundsIff(i);
    forall e | e in Fetched(today, months, usage, k).value ensures e.start != PeriodBounds(MonthTextAt(i)).value.0 {
      EarlierMonth(today, months, usage, k, e);
    }
  }

  lemma ReportAppended(before: seq<Entry>, u: Usage, bounds: (Date, Date))
    requires u.Report? && forall e :: e in before ==> e.start != bounds.0
    ensures DistinctEntries(before + ReportEntries(u, bounds, |u.resources|)) <==>
            DistinctEntries(before) && DistinctServices(u, |u.resources|)
  {
    hide DistinctEntries, DistinctServices, ReportEntries;
    ReportDistinctIff(u, bounds, |u.resources|);
    DistinctConcat(before, ReportEntries(u, bounds, |u.resources|));
    OtherMonthShared(before, u, bounds);
  }

  lemma EarlierMonth(today: Date, months: int, usage: string -> Usage, k: nat, e: Entry)
    requires Valid(today) && k <= months && Fetched(today, months, usage, k).Some?
    requires e in Fetched(today, months, usage, k).value
    ensures Index(e.start) < Index(today) - months + k
  {
    hide Fetched, Valid;
    FetchedIff(today, months, usage, k, e);
  }

  lemma OtherMonthShared(before: seq<Entry>, u: Usage, bounds: (Date, Date))
    requires u.Report? && forall e :: e in before ==> e.start != bounds.0
    ensures NoneShared(before, ReportEntries(u, bounds, |u.resources|))
  {
    var es := ReportEntries(u, bounds, |u.resources|);
    forall j | 0 <= j < |es| ensures es[j].start == bounds.0 { EntriesOf(u, bounds, |u.resources|, es[j]); }
    forall i | 0 <= i < |before| ensures before[i].start != bounds.0 { assert before[i] in before; }
  }

  // ----- Azure: columns found by name

  function LowerChar(c: char): char {
    if 'A' <= c <= 'Z' then c - 'A' + 'a' else c
  }

  function Lower(s: string): (r: string)
    ensures |r| == |s|
  {
    seq(|s|, i requires 0 <= i < |s| => LowerChar(s[i]))
  }

  predicate Named(column: Option<string>, name: string) {
    Text(column) != "" && Lower(Text(column)) == Lower(name)
  }

  /** First column with a name, ignoring case. */
  ghost predicate IsColumn(columns: seq<Option<string>>, name: string, index: Option<nat>) {
    match index
    case Some(i) => i < |columns| && Named(columns[i], name) && forall j :: 0 <= j < i ==> !Named(columns[j], name)
    case None => forall j :: 0 <= j < |columns| ==> !Named(columns[j], name)
  }

  method ColumnIndex(columns: seq<Option<string>>, name: string) returns (index: Option<nat>)
    ensures IsColumn(columns, name, index)
  {
    for i := 0 to |columns|
      invariant forall j :: 0 <= j < i ==> !Named(columns[j], name)
    {
      if Named(columns[i], name) { return Some(i); }
    }
    index := None;
  }

  /** The billing month cannot date an answer when no column has that name or the first one does:
      position 0 counts as absent. */
  predicate BillingMonthUnusable(columns: seq<Option<string>>) {
    (columns != [] && Named(columns[0], "BillingMonth")) ||
    forall i :: 0 <= i < |columns| ==> !Named(columns[i], "BillingMonth")
  }

  /** What it means that a column dates an answer, and that none does. */
  ghost predicate DatedBy(columns: seq<Option<string>>, index: Option<nat>) {
    (index.None? <==> BillingMonthUnusable(columns) && IsColumn(columns, "UsageDate", None)) &&
    (index.Some? && BillingMonthUnusable(columns) ==> IsColumn(columns, "UsageDate", index)) &&
    (index.Some? && !BillingMonthUnusable(columns) ==> index.value > 0 && IsColumn(columns, "BillingMonth", index))
  }

  /** The column that dates an answer; None for an answer that is rejected. */
  method DateColumn(columns: seq<Option<string>>) returns (index: Option<nat>)
    ensures DatedBy(columns, index)
  {
    var month := ColumnIndex(columns, "BillingMonth");
    var usage := ColumnIndex(columns, "UsageDate");
    index := if month.Some? && month.value != 0 then month else usage;
  }

  /** An answer with a billing month is dated by it exactly when that is not its first column; an
      answer whose first column is the billing month and that has no usage date is rejected. */
  lemma BillingMonthUsedIff(columns: seq<Option<string>>, index: Option<nat>, month: nat)
    requires DatedBy(columns, index) && IsColumn(columns, "BillingMonth", Some(month))
    ensures index == Some(month) <==> !Named(columns[0], "BillingMonth")
    ensures index.None? <==> Named(columns[0], "BillingMonth") && IsColumn(columns, "UsageDate", None)
  {
    assert |Lower("BillingMonth")| == 12 && |Lower("UsageDate")| == 9;
  }
}
