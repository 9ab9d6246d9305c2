/** Reconciliation of the persisted resource index with what the cloud provider reports. */
module Discovery {
  import opened Common

  // ----- the persisted index

  /** One listing call: an account, a resource type and a region. */
  datatype Scope = Scope(account: nat, kind: string, region: string)

  /** The columns every sighting overwrites. The generic categories leave the optional ones empty. */
  datatype Details = Details(name: string, status: string, zone: Option<string>, instanceType: Option<string>,
                             publicIp: Option<string>, privateIp: Option<string>, tags: Option<string>)

  datatype Item = Item(externalId: string, details: Details)

  datatype Row = Row(scope: Scope, externalId: string, details: Details, firstSeen: int, lastSeen: int, isActive: bool)

  /** The primary key of a row is its position. */
  type Table = seq<Row>

  predicate Matches(r: Row, s: Scope, e: string) {
    r.scope == s && r.externalId == e
  }

  /** Position of the first row with an identity; the length of the table when there is none. */
  function Position(rows: Table, s: Scope, e: string): (p: nat)
    ensures p <= |rows|
    ensures p < |rows| ==> Matches(rows[p], s, e)
    ensures forall i :: 0 <= i < p ==> !Matches(rows[i], s, e)
  {
    if rows == [] then 0
    else
      var p := Position(rows[..|rows| - 1], s, e);
      if p < |rows| - 1 || Matches(rows[|rows| - 1], s, e) then p else |rows|
  }

  /** The unique constraint on (account, type, region, external id). */
  ghost predicate Unique(rows: Table) {
    forall i, j :: 0 <= i < j < |rows| ==> !Matches(rows[j], rows[i].scope, rows[i].externalId)
  }

  function Upserted(rows: Table, s: Scope, item: Item, at: int): Table {
    var p := Position(rows, s, item.externalId);
    if p == |rows| then rows + [Row(s, item.externalId, item.details, at, at, true)]
    else rows[p := rows[p].(details := item.details, lastSeen := at, isActive := true)]
  }

  function UpsertedAll(rows: Table, s: Scope, items: seq<Item>, at: int): Table {
    if items == [] then rows
    else Upserted(UpsertedAll(rows, s, items[..|items| - 1], at), s, items[|items| - 1], at)
  }

  function Names(items: seq<Item>): set<string> {
    set i | 0 <= i < |items| :: items[i].externalId
  }

  /** A row of the scope that the listing did not contain has disappeared. */
  function Kept(r: Row, s: Scope, names: set<string>): Row {
    if r.scope == s && r.externalId !in names then r.(isActive := false) else r
  }

  function Reconciled(rows: Table, s: Scope, names: set<string>): (r: Table)
    ensures |r| == |rows|
    ensures forall i :: 0 <= i < |rows| ==> r[i] == Kept(rows[i], s, names)
  {
    seq(|rows|, i requires 0 <= i < |rows| => Kept(rows[i], s, names))
  }

  // ----- passes over one scope

  /** How a listing call ends. `Crashed` is any error that is not a validation error, raised by
      the call itself or after some items were already stored. */
  datatype Outcome = Listed(items: seq<Item>) | NotYetSupported | Failed(message: string) | Crashed(stored: seq<Item>)

  datatype Pass = Pass(scope: Scope, outcome: Outcome, at: int)

  function Stored(o: Outcome): seq<Item> {
    match o
    case Listed(items) => items
    case Crashed(stored) => stored
    case _ => []
  }

  function Apply(rows: Table, p: Pass): Table {
    var stored := UpsertedAll(rows, p.scope, Stored(p.outcome), p.at);
    if p.outcome.Listed? then Reconciled(stored, p.scope, Names(p.outcome.items)) else stored
  }

  function Run(rows: Table, passes: seq<Pass>): Table {
    if passes == [] then rows else Apply(Run(rows, passes[..|passes| - 1]), passes[|passes| - 1])
  }

  // ----- the life of one identity, independent of the table

  datatype Life = Unknown | Known(details: Details, firstSeen: int, lastSeen: int, isActive: bool)

  function LifeIn(rows: Table, s: Scope, e: string): Life {
    var p := Position(rows, s, e);
    if p == |rows| then Unknown else Known(rows[p].details, rows[p].firstSeen, rows[p].lastSeen, rows[p].isActive)
  }

  function Sighted(l: Life, d: Details, at: int): Life {
    Known(d, if l.Known? then l.firstSeen else at, at, true)
  }

  function LifeAfterItems(l: Life, items: seq<Item>, e: string, at: int): Life {
    if items == [] then l
    else
      var before := LifeAfterItems(l, items[..|items| - 1], e, at);
      var last := items[|items| - 1];
      if last.externalId == e then Sighted(before, last.details, at) else before
  }

  function LifeAfterPass(l: Life, p: Pass, s: Scope, e: string): Life {
    if p.scope != s then l
    else
      var seen := LifeAfterItems(l, Stored(p.outcome), e, p.at);
      if p.outcome.Listed? && e !in Names(p.outcome.items) && seen.Known? then seen.(isActive := false) else seen
  }

  function LifeAfter(passes: seq<Pass>, s: Scope, e: string): Life {
    if passes == [] then Unknown
    else LifeAfterPass(LifeAfter(passes[..|passes| - 1], s, e), passes[|passes| - 1], s, e)
  }

  // ----- the table simulates the lives of all identities

  /** Positions are determined by the identities in the table. */
  lemma PositionIs(rows: Table, s: Scope, e: string, p: nat)
    requires p <= |rows| && (forall i :: 0 <= i < p ==> !Matches(rows[i], s, e))
    requires p < |rows| ==> Matches(rows[p], s, e)
    ensures Position(rows, s, e) == p
  {
  }

  lemma UpsertedPosition(rows: Table, s: Scope, item: Item, at: int, s': Scope, e: string)
    ensures var rows' := Upserted(rows, s, item, at);
      Position(rows', s', e) ==
      if Position(rows, s', e) == |rows| && !(s == s' && item.externalId == e) then |rows'| else Position(rows, s', e)
  {
    var rows', p := Upserted(rows, s, item, at), Position(rows, s', e);
    if p == |rows| && !(s == s' && item.externalId == e) {
      PositionIs(rows', s', e, |rows'|);
    } else {
      PositionIs(rows', s', e, p);
    }
  }

  lemma UpsertedLife(rows: Table, s: Scope, item: Item, at: int, s': Scope, e: string)
    ensures LifeIn(Upserted(rows, s, item, at), s', e) ==
      if s == s' && item.externalId == e then Sighted(LifeIn(rows, s', e), item.details, at) else LifeIn(rows, s', e)
  {
    UpsertedPosition(rows, s, item, at, s', e);
  }

  lemma {:induction false} UpsertedAllLife(rows: Table, s: Scope, items: seq<Item>, at: int, s': Scope, e: string)
    ensures LifeIn(UpsertedAll(rows, s, items, at), s', e) ==
      if s == s' then LifeAfterItems(LifeIn(rows, s', e), items, e, at) else LifeIn(rows, s', e)
  {
    if items != [] {
      var n := |items| - 1;
      UpsertedAllLife(rows, s, items[..n], at, s', e);
      UpsertedLife(UpsertedAll(rows, s, items[..n], at), s, items[n], at, s', e);
    }
  }

  lemma ReconciledLife(rows: Table, s: Scope, names: set<string>, s': Scope, e: string)
    ensures LifeIn(Reconciled(rows, s, names), s', e) ==
      var l := LifeIn(rows, s', e);
      if s == s' && e !in names && l.Known? then l.(isActive := false) else l
  {
  }

  lemma ApplyLife(rows: Table, p: Pass, s: Scope, e: string)
    ensures LifeIn(Apply(rows, p), s, e) == LifeAfterPass(LifeIn(rows, s, e), p, s, e)
  {
    hide UpsertedAll, Position, LifeAfterItems, LifeIn;
    var stored := UpsertedAll(rows, p.scope, Stored(p.outcome), p.at);
    UpsertedAllLife(rows, p.scope, Stored(p.outcome), p.at, s, e);
    if p.outcome.Listed? { ReconciledLife(stored, p.scope, Names(p.outcome.items), s, e); }
  }

  /** After any run of passes over any scopes, with failures, crashes and duplicated items, what
      the table says about an identity depends only on the passes over its own scope. */
  lemma {:induction false} RunLife(passes: seq<Pass>, s: Scope, e: string)
    ensures LifeIn(Run([], passes), s, e) == LifeAfter(passes, s, e)
  {
    hide Apply, LifeAfterPass;
    if passes == [] {
      assert LifeIn([], s, e) == Unknown;
    } else {
      var n := |passes| - 1;
      RunLife(passes[..n], s, e);
      ApplyLife(Run([], passes[..n]), passes[n], s, e);
    }
  }

  // ----- what a life says about the passes

  /** Pass i stored an item with the identity. */
  predicate Saw(passes: seq<Pass>, i: int, s: Scope, e: string) {
    0 <= i < |passes| && passes[i].scope == s && e in Names(Stored(passes[i].outcome))
  }

  /** Pass i listed the scope completely, and the identity was not there. */
  predicate Missed(passes: seq<Pass>, i: int, s: Scope, e: string) {
    0 <= i < |passes| && passes[i].scope == s && passes[i].outcome.Listed? && e !in Names(passes[i].outcome.items)
  }

  /** Some pass saw the identity, and no complete listing since then has missed it. */
  ghost predicate Alive(passes: seq<Pass>, s: Scope, e: string) {
    exists i :: Saw(passes, i, s, e) && forall j :: i < j < |passes| ==> !Missed(passes, j, s, e)
  }

  /** The last item of a listing that carries the external id. */
  function LastItem(items: seq<Item>, e: string): Item
    requires e in Names(items)
  {
    if items[|items| - 1].externalId == e then items[|items| - 1]
    else NamesSplit(items, e); LastItem(items[..|items| - 1], e)
  }

  lemma NamesSplit(items: seq<Item>, e: string)
    requires items != []
    ensures e in Names(items) <==> e in Names(items[..|items| - 1]) || items[|items| - 1].externalId == e
  {
  }

  /** Duplicates in one listing collapse into one sighting with the details of the last of them. */
  lemma {:induction false} ItemsCollapse(l: Life, items: seq<Item>, e: string, at: int)
    ensures LifeAfterItems(l, items, e, at) ==
      if e in Names(items) then Sighted(l, LastItem(items, e).details, at) else l
  {
    if items != [] {
      NamesSplit(items, e);
      ItemsCollapse(l, items[..|items| - 1], e, at);
    }
  }

  lemma PassEffect(l: Life, p: Pass, s: Scope, e: string)
    ensures LifeAfterPass(l, p, s, e) ==
      if Saw([p], 0, s, e) then Sighted(l, LastItem(Stored(p.outcome), e).details, p.at)
      else if Missed([p], 0, s, e) && l.Known? then l.(isActive := false)
      else l
  {
    ItemsCollapse(l, Stored(p.outcome), e, p.at);
  }

  /** First and last passes that saw the identity. */
  ghost predicate FirstSaw(passes: seq<Pass>, i: int, s: Scope, e: string) {
    Saw(passes, i, s, e) && forall j :: 0 <= j < i ==> !Saw(passes, j, s, e)
  }

  ghost predicate LastSaw(passes: seq<Pass>, i: int, s: Scope, e: string) {
    Saw(passes, i, s, e) && forall j :: i < j < |passes| ==> !Saw(passes, j, s, e)
  }

  /** What happens in a front of the passes happens in the passes; the last pass decides alone. */
  lemma LastPass(passes: seq<Pass>, s: Scope, e: string)
    requires passes != []
    ensures var n := |passes| - 1; var p := passes[n];
      (forall i :: 0 <= i < n ==> Saw(passes, i, s, e) == Saw(passes[..n], i, s, e)) &&
      (forall i :: 0 <= i < n ==> Missed(passes, i, s, e) == Missed(passes[..n], i, s, e)) &&
      LifeAfter(passes, s, e) == var l := LifeAfter(passes[..n], s, e);
        if Saw(passes, n, s, e) then Sighted(l, LastItem(Stored(p.outcome), e).details, p.at)
        else if Missed(passes, n, s, e) && l.Known? then l.(isActive := false) else l
  {
    var n := |passes| - 1;
    PassEffect(LifeAfter(passes[..n], s, e), passes[n], s, e);
  }

  lemma {:induction false} KnownIffSeen(passes: seq<Pass>, s: Scope, e: string)
    ensures LifeAfter(passes, s, e).Known? <==> exists i :: Saw(passes, i, s, e)
  {
    if passes != [] {
      var n := |passes| - 1;
      KnownIffSeen(passes[..n], s, e);
      LastPass(passes, s, e);
      if i :| Saw(passes[..n], i, s, e) { assert Saw(passes, i, s, e); }
      if i :| Saw(passes, i, s, e) { assert i < n ==> Saw(passes[..n], i, s, e); }
    }
  }

  lemma AliveStep(passes: seq<Pass>, s: Scope, e: string)
    requires passes != []
    ensures var n := |passes| - 1;
      Alive(passes, s, e) <==> Saw(passes, n, s, e) || (Alive(passes[..n], s, e) && !Missed(passes, n, s, e))
  {
    var n := |passes| - 1;
    var front := passes[..n];
    if Saw(passes, n, s, e) {
      assert forall j :: n < j < |passes| ==> !Missed(passes, j, s, e);
    } else {
      if Alive(front, s, e) && !Missed(passes, n, s, e) {
        var i :| Saw(front, i, s, e) && forall j :: i < j < n ==> !Missed(front, j, s, e);
        assert Saw(passes, i, s, e);
        forall j | i < j < |passes| ensures !Missed(passes, j, s, e) {
          assert j < n ==> !Missed(front, j, s, e);
        }
      }
      if Alive(passes, s, e) {
        var i :| Saw(passes, i, s, e) && forall j :: i < j < |passes| ==> !Missed(passes, j, s, e);
        assert Saw(front, i, s, e);
        forall j | i < j < n ensures !Missed(front, j, s, e) {
          assert !Missed(passes, j, s, e);
        }
        assert !Missed(passes, n, s, e);
      }
    }
  }

  /** The index mirrors reality: an identity is active exactly when some pass saw it and no
      complete listing of its scope since then has missed it. */
  lemma {:induction false} ActiveIffAlive(passes: seq<Pass>, s: Scope, e: string)
    ensures LifeAfter(passes, s, e).Known? && LifeAfter(passes, s, e).isActive <==> Alive(passes, s, e)
  {
    if passes != [] {
      hide Alive, Saw, Missed, LastItem;
      ActiveIffAlive(passes[..|passes| - 1], s, e);
      LastPass(passes, s, e);
      AliveStep(passes, s, e);
    }
  }

  /** A row keeps for ever the time of the first pass that saw it. */
  lemma {:induction false} FirstSightingIsKept(passes: seq<Pass>, s: Scope, e: string, i: nat)
    requires FirstSaw(passes, i, s, e)
    ensures LifeAfter(passes, s, e).Known? && LifeAfter(passes, s, e).firstSeen == passes[i].at
  {
    var n := |passes| - 1;
    LastPass(passes, s, e);
    if i < n {
      assert FirstSaw(passes[..n], i, s, e);
      FirstSightingIsKept(passes[..n], s, e, i);
    } else {
      KnownIffSeen(passes[..n], s, e);
    }
  }

  /** A row carries the time and the details of the last pass that saw it. */
  lemma {:induction false} LastSightingIsCurrent(passes: seq<Pass>, s: Scope, e: string, i: nat)
    requires LastSaw(passes, i, s, e)
    ensures var l := LifeAfter(passes, s, e);
      l.Known? && l.lastSeen == passes[i].at && l.details == LastItem(Stored(passes[i].outcome), e).details
  {
    var n := |passes| - 1;
    LastPass(passes, s, e);
    if i < n {
      assert LastSaw(passes[..n], i, s, e) by {
        forall j | i < j < n ensures !Saw(passes[..n], j, s, e) { assert !Saw(passes, j, s, e); }
      }
      LastSightingIsCurrent(passes[..n], s, e, i);
    }
  }

  /** The last complete listing of a scope; -1 when there is none. */
  function LastListing(passes: seq<Pass>, s: Scope): (k: int)
    ensures -1 <= k < |passes|
    ensures k >= 0 ==> passes[k].scope == s && passes[k].outcome.Listed?
    ensures forall j :: k < j < |passes| ==> !(passes[j].scope == s && passes[j].outcome.Listed?)
  {
    if passes == [] then -1
    else
      var p := passes[|passes| - 1];
      if p.scope == s && p.outcome.Listed? then |passes| - 1 else LastListing(passes[..|passes| - 1], s)
  }

  ghost predicate CrashStored(passes: seq<Pass>, k: int, s: Scope, e: string) {
    exists i :: k < i < |passes| && Saw(passes, i, s, e)
  }

  /** Which ids are active: those of the last complete listing of the scope, and those that a
      later crashed pass had already stored. Failed passes change nothing. */
  lemma LastListingDecides(passes: seq<Pass>, s: Scope, e: string)
    ensures var k, l := LastListing(passes, s), LifeIn(Run([], passes), s, e);
      l.Known? && l.isActive <==>
      (k >= 0 && e in Names(passes[k].outcome.items)) || CrashStored(passes, k, s, e)
  {
    hide Run, LifeIn, LifeAfter;
    RunLife(passes, s, e);
    ActiveIffAlive(passes, s, e);
    var k := LastListing(passes, s);
    if k >= 0 && e in Names(passes[k].outcome.items) {
      assert Saw(passes, k, s, e);
    }
    if CrashStored(passes, k, s, e) {
      var i :| k < i < |passes| && Saw(passes, i, s, e);
      assert forall j :: i < j < |passes| ==> !Missed(passes, j, s, e);
    }
    if Alive(passes, s, e) {
      var i :| Saw(passes, i, s, e) && forall j :: i < j < |passes| ==> !Missed(passes, j, s, e);
      assert i < k ==> !Missed(passes, k, s, e);
    }
  }

  // ----- what never changes

  /** Rows are never removed, keep identity and first sighting, and - while the clock does not go
      back - never look older than before. */
  ghost predicate Grown(before: Table, after: Table) {
    |before| <= |after| &&
    forall i :: 0 <= i < |before| ==>
      after[i].scope == before[i].scope && after[i].externalId == before[i].externalId &&
      after[i].firstSeen == before[i].firstSeen
  }

  lemma UpsertedKeeps(rows: Table, s: Scope, item: Item, at: int)
    requires Unique(rows)
    ensures Unique(Upserted(rows, s, item, at)) && Grown(rows, Upserted(rows, s, item, at))
  {
  }

  lemma {:induction false} UpsertedAllKeeps(rows: Table, s: Scope, items: seq<Item>, at: int)
    requires Unique(rows)
    ensures Unique(UpsertedAll(rows, s, items, at)) && Grown(rows, UpsertedAll(rows, s, items, at))
  {
    if items != [] {
      hide Upserted, Unique;
      var n := |items| - 1;
      UpsertedAllKeeps(rows, s, items[..n], at);
      UpsertedKeeps(UpsertedAll(rows, s, items[..n], at), s, items[n], at);
    }
  }

  lemma ApplyKeeps(rows: Table, p: Pass)
    requires Unique(rows)
    ensures Unique(Apply(rows, p)) && Grown(rows, Apply(rows, p))
  {
    UpsertedAllKeeps(rows, p.scope, Stored(p.outcome), p.at);
  }

  lemma {:induction false} RunKeeps(rows: Table, passes: seq<Pass>)
    requires Unique(rows)
    ensures Unique(Run(rows, passes)) && Grown(rows, Run(rows, passes))
  {
    if passes != [] {
      hide Apply, Unique;
      RunKeeps(rows, passes[..|passes| - 1]);
      ApplyKeeps(Run(rows, passes[..|passes| - 1]), passes[|passes| - 1]);
    }
  }

  ghost predicate NoneAfter(rows: Table, now: int) {
    forall i :: 0 <= i < |rows| ==> rows[i].firstSeen <= rows[i].lastSeen <= now
  }

  ghost predicate NeverOlder(before: Table, after: Table) {
    |before| <= |after| && forall i :: 0 <= i < |before| ==> before[i].lastSeen <= after[i].lastSeen
  }

  lemma {:induction false} StoredLater(rows: Table, s: Scope, items: seq<Item>, at: int)
    requires NoneAfter(rows, at)
    ensures var rows' := UpsertedAll(rows, s, items, at); NoneAfter(rows', at) && NeverOlder(rows, rows')
  {
    if items != [] { StoredLater(rows, s, items[..|items| - 1], at); }
  }

  /** `last_seen_at` never decreases while passes carry non-decreasing times. */
  lemma {:induction false} LastSeenNeverDecreases(rows: Table, passes: seq<Pass>, start: int)
    requires NoneAfter(rows, start)
    requires forall i :: 0 <= i < |passes| ==> start <= passes[i].at
    requires forall i, j :: 0 <= i < j < |passes| ==> passes[i].at <= passes[j].at
    ensures NeverOlder(rows, Run(rows, passes))
    ensures NoneAfter(Run(rows, passes), if passes == [] then start else passes[|passes| - 1].at)
  {
    if passes != [] {
      var n := |passes| - 1;
      LastSeenNeverDecreases(rows, passes[..n], start);
      StoredLater(Run(rows, passes[..n]), passes[n].scope, Stored(passes[n].outcome), passes[n].at);
    }
  }
}
