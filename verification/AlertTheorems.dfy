/** Conservation, frames, exact idempotence and safety over whole runs of the alert steps. */
module AlertTheorems {
  import opened Common
  import opened AlertTypes
  import opened Conditions
  import opened Alerts
  import opened Ownership
  import opened Dispatcher
  import opened AlertLifecycle

  // ----- conservation

  function CountActive(rows: seq<Alert>): nat {
    if rows == [] then 0 else CountActive(rows[..|rows| - 1]) + if rows[|rows| - 1].status.Active? then 1 else 0
  }

  lemma CountActiveUpdate(rows: seq<Alert>, k: nat, a: Alert)
    requires k < |rows| && rows[k].status.Active? && !a.status.Active?
    ensures CountActive(rows[k := a]) == CountActive(rows) - 1
  {
    var n := |rows| - 1;
    if k == n { assert rows[k := a][..n] == rows[..n]; }
    else {
      assert rows[k := a][..n] == rows[..n][k := a];
      CountActiveUpdate(rows[..n], k, a);
    }
  }

  lemma {:induction false} SweptConserves(rows: seq<Alert>, d: Domain, cs: seq<Condition>, now: int)
    ensures CountActive(Swept(rows, d, cs, now)) + CountStale(rows, d, cs) == CountActive(rows)
  {
    if rows != [] {
      var n := |rows| - 1;
      SweptConserves(rows[..n], d, cs, now);
      assert Swept(rows, d, cs, now)[..n] == Swept(rows[..n], d, cs, now);
    }
  }

  /** The bookkeeping identity: what the counters report is what happened to the tables. */
  ghost predicate Accounts(before: Db, r: Result) {
    CountActive(r.db.rows) + r.resolved == CountActive(before.rows) + r.created &&
    |r.db.rows| == |before.rows| + r.created &&
    |r.db.notes| == |before.notes| + r.notified
  }

  lemma OpenAccounts(db: Db, w: World, s: Scope, c: Condition, now: int)
    ensures Accounts(db, Open(db, w, s, c, now))
  {
  }

  lemma RaiseAccounts(db: Db, w: World, s: Scope, c: Condition, bySeverity: bool, now: int)
    ensures Accounts(db, Raise(db, w, s, c, bySeverity, now))
  {
    var found := FindActive(db.rows, s, c.alertType);
    if found.Some? && bySeverity && db.rows[found.value].severity != c.severity {
      var k := found.value;
      CountActiveUpdate(db.rows, k, Closed(db.rows[k], now));
      OpenAccounts(Db(db.rows[k := Closed(db.rows[k], now)], db.notes), w, s, c, now);
    } else {
      OpenAccounts(db, w, s, c, now);
    }
  }

  lemma {:induction false} RaiseUpToAccounts(db: Db, w: World, t: Task, n: nat, now: int)
    requires n <= |t.conditions|
    ensures Accounts(db, RaiseUpTo(db, w, t, n, now))
  {
    hide Raise;
    if n > 0 {
      RaiseUpToAccounts(db, w, t, n - 1, now);
      RaiseAccounts(RaiseUpTo(db, w, t, n - 1, now).db, w, DomainScope(t.domain), t.conditions[n - 1], t.bySeverity,
                    now);
    }
  }

  lemma EvaluateAccounts(db: Db, w: World, t: Task, now: int)
    ensures Accounts(db, Evaluate(db, w, t, now))
  {
    SweptConserves(db.rows, t.domain, t.conditions, now);
    RaiseUpToAccounts(Db(Swept(db.rows, t.domain, t.conditions, now), db.notes), w, t, |t.conditions|, now);
  }

  /** Over a whole batch: active alerts afterwards are those before, plus created, minus
      resolved; and the reported notifications are the rows added. */
  lemma {:induction false} BatchAccounts(db: Db, w: World, ts: seq<Task>, n: nat, now: int)
    requires n <= |ts|
    ensures Accounts(db, EvaluateUpTo(db, w, ts, n, now))
  {
    hide Evaluate;
    if n > 0 {
      BatchAccounts(db, w, ts, n - 1, now);
      EvaluateAccounts(EvaluateUpTo(db, w, ts, n - 1, now).db, w, ts[n - 1], now);
    }
  }

  // ----- rows only move forward

  function StatusRank(s: Status): nat {
    match s case Active => 0 case Acknowledged => 1 case Resolved => 2
  }

  /** What may ever happen to a row: its history is immutable, its status only moves
      forward, and once resolved it is frozen. */
  ghost predicate Advances(a: Alert, b: Alert) {
    b == a.(status := b.status, resolvedAt := b.resolvedAt) &&
    StatusRank(a.status) <= StatusRank(b.status) &&
    (a.status == b.status ==> a == b) &&
    (RowOk(a) ==> RowOk(b))
  }

  /** Tables are append-only and every row advances. */
  ghost predicate Follows(before: Db, after: Db) {
    |before.rows| <= |after.rows| && before.notes <= after.notes &&
    forall i :: 0 <= i < |before.rows| ==> Advances(before.rows[i], after.rows[i])
  }

  /** Rows outside a domain are untouched, and new rows lie inside it. */
  ghost predicate Within(before: Db, after: Db, d: Domain) {
    Follows(before, after) &&
    (forall i :: 0 <= i < |before.rows| && !InDomain(before.rows[i], d) ==> after.rows[i] == before.rows[i]) &&
    (forall i :: |before.rows| <= i < |after.rows| ==> InDomain(after.rows[i], d) && RowOk(after.rows[i]))
  }

  lemma FollowsTransitive(a: Db, b: Db, c: Db)
    requires Follows(a, b) && Follows(b, c)
    ensures Follows(a, c)
  {
  }

  lemma WithinTransitive(a: Db, b: Db, c: Db, d: Domain)
    requires Within(a, b, d) && Within(b, c, d)
    ensures Within(a, c, d)
  {
  }

  lemma RaiseWithin(db: Db, w: World, d: Domain, c: Condition, bySeverity: bool, now: int)
    requires Covers(d, c.alertType) && SeverityFits(c.alertType, c.severity)
    ensures Within(db, Raise(db, w, DomainScope(d), c, bySeverity, now).db, d)
  {
    hide Sent;
    var found := FindActive(db.rows, DomainScope(d), c.alertType);
    if found.Some? && bySeverity && db.rows[found.value].severity != c.severity {
      var closed := Db(db.rows[found.value := Closed(db.rows[found.value], now)], db.notes);
      assert Within(db, closed, d);
      OpenWithin(closed, w, d, c, now);
      WithinTransitive(db, closed, Open(closed, w, DomainScope(d), c, now).db, d);
    } else {
      OpenWithin(db, w, d, c, now);
    }
  }

  lemma OpenWithin(db: Db, w: World, d: Domain, c: Condition, now: int)
    requires Covers(d, c.alertType) && SeverityFits(c.alertType, c.severity)
    ensures Within(db, Open(db, w, DomainScope(d), c, now).db, d)
  {
    hide Sent;
  }

  lemma {:induction false} RaiseUpToWithin(db: Db, w: World, t: Task, n: nat, now: int)
    requires WellFormed(t) && n <= |t.conditions|
    ensures Within(db, RaiseUpTo(db, w, t, n, now).db, t.domain)
  {
    hide Raise;
    if n > 0 {
      RaiseUpToWithin(db, w, t, n - 1, now);
      var mid := RaiseUpTo(db, w, t, n - 1, now).db;
      RaiseWithin(mid, w, t.domain, t.conditions[n - 1], t.bySeverity, now);
      WithinTransitive(db, mid, RaiseUpTo(db, w, t, n, now).db, t.domain);
    }
  }

  /** An evaluator touches its own domain and nothing else. */
  lemma EvaluateWithin(db: Db, w: World, t: Task, now: int)
    requires WellFormed(t)
    ensures Within(db, Evaluate(db, w, t, now).db, t.domain)
  {
    var swept := Db(Swept(db.rows, t.domain, t.conditions, now), db.notes);
    assert Within(db, swept, t.domain);
    RaiseUpToWithin(swept, w, t, |t.conditions|, now);
    WithinTransitive(db, swept, Evaluate(db, w, t, now).db, t.domain);
  }

  // ----- quiescence

  lemma {:induction false} NothingStale(rows: seq<Alert>, d: Domain, cs: seq<Condition>, now: int)
    requires forall i :: 0 <= i < |rows| ==> !Stale(rows[i], d, cs)
    ensures Swept(rows, d, cs, now) == rows && CountStale(rows, d, cs) == 0
  {
    if rows != [] { NothingStale(rows[..|rows| - 1], d, cs, now); }
  }

  lemma {:induction false} NothingToRaise(db: Db, w: World, t: Task, n: nat, now: int)
    requires Good(db.rows) && WellFormed(t) && Settled(db.rows, t) && n <= |t.conditions|
    ensures RaiseUpTo(db, w, t, n, now) == Result(db, 0, 0, 0)
  {
    hide Raise, Good, Settled, WellFormed;
    if n > 0 {
      NothingToRaise(db, w, t, n - 1, now);
      StillRaised(db, w, t, n - 1, now);
    }
  }

  /** A condition of a settled domain is already alerting. */
  lemma StillRaised(db: Db, w: World, t: Task, n: nat, now: int)
    requires Good(db.rows) && WellFormed(t) && Settled(db.rows, t) && n < |t.conditions|
    ensures Raise(db, w, DomainScope(t.domain), t.conditions[n], t.bySeverity, now) == Result(db, 0, 0, 0)
  {
    hide Good, Open;
    var c := t.conditions[n];
    assert (c.alertType, c.severity) in Desired(t.conditions);
    var i :| 0 <= i < |db.rows| && Live(db.rows[i], t.domain) &&
             (db.rows[i].alertType, db.rows[i].severity) == (c.alertType, c.severity);
    var found := FindActive(db.rows, DomainScope(t.domain), c.alertType);
    assert found.Some?;
    OnlyOneActive(db.rows, DomainScope(t.domain), c.alertType, i, found.value);
  }

  /** An evaluation does nothing at all - no row, no counter, no notification - if and only
      if its domain already agrees with what is desired. */
  lemma IdleIffSettled(db: Db, w: World, t: Task, now: int)
    requires Good(db.rows) && WellFormed(t)
    ensures Evaluate(db, w, t, now) == Result(db, 0, 0, 0) <==> Settled(db.rows, t)
  {
    hide Good, WellFormed, RaiseUpTo;
    EvaluateSettles(db, w, t, now);
    if Settled(db.rows, t) {
      forall i | 0 <= i < |db.rows| ensures !Stale(db.rows[i], t.domain, t.conditions) {
        if Live(db.rows[i], t.domain) {
          assert (db.rows[i].alertType, db.rows[i].severity) in Alerting(db.rows, t.domain);
          var j :| 0 <= j < |t.conditions| &&
            (db.rows[i].alertType, db.rows[i].severity) == (t.conditions[j].alertType, t.conditions[j].severity);
        }
      }
      NothingStale(db.rows, t.domain, t.conditions, now);
      NothingToRaise(db, w, t, |t.conditions|, now);
    }
  }

  // ----- batches

  predicate TypesApart(a: Domain, b: Domain) {
    match (a, b)
    case (Http, Only(_, kind)) => !kind.Tiered?
    case (Only(_, kind), Http) => !kind.Tiered?
    case (Only(_, k1), Only(_, k2)) => k1 != k2
    case _ => false
  }

  predicate Apart(a: Domain, b: Domain) {
    DomainScope(a) != DomainScope(b) || TypesApart(a, b)
  }

  lemma AlertingUnaffected(before: Db, after: Db, d1: Domain, d2: Domain)
    requires Good(before.rows) && Within(before, after, d1) && Apart(d1, d2)
    ensures Alerting(after.rows, d2) == Alerting(before.rows, d2)
  {
  }

  /** A batch whose tasks do not contradict each other. */
  ghost predicate Consistent(ts: seq<Task>) {
    (forall i :: 0 <= i < |ts| ==> WellFormed(ts[i])) &&
    (forall i, j :: 0 <= i < j < |ts| ==> ts[i] == ts[j] || Apart(ts[i].domain, ts[j].domain))
  }

  lemma {:induction false} BatchGood(db: Db, w: World, ts: seq<Task>, n: nat, now: int)
    requires Good(db.rows) && Consistent(ts) && n <= |ts|
    ensures Good(EvaluateUpTo(db, w, ts, n, now).db.rows)
  {
    hide Evaluate;
    if n > 0 {
      BatchGood(db, w, ts, n - 1, now);
      EvaluateSettles(EvaluateUpTo(db, w, ts, n - 1, now).db, w, ts[n - 1], now);
    }
  }

  /** After a batch every one of its domains agrees with what was desired for it: later
      evaluators do not disturb earlier ones. */
  lemma {:induction false} BatchSettles(db: Db, w: World, ts: seq<Task>, i: nat, n: nat, now: int)
    requires Good(db.rows) && Consistent(ts) && i < n <= |ts|
    ensures Settled(EvaluateUpTo(db, w, ts, n, now).db.rows, ts[i])
  {
    hide Evaluate;
    BatchGood(db, w, ts, n - 1, now);
    if i < n - 1 {
      BatchSettles(db, w, ts, i, n - 1, now);
    }
    NextSettles(EvaluateUpTo(db, w, ts, n - 1, now), w, ts[i], ts[n - 1], i == n - 1, now);
  }

  lemma NextSettles(before: Result, w: World, t: Task, next: Task, same: bool, now: int)
    requires Good(before.db.rows) && WellFormed(t) && WellFormed(next)
    requires if same then t == next else Settled(before.db.rows, t) && (t == next || Apart(t.domain, next.domain))
    ensures Settled(Then(before, Evaluate(before.db, w, next, now)).db.rows, t)
  {
    if same { EvaluateSettles(before.db, w, next, now); }
    else { StaysSettled(before.db, w, t, next, now); }
  }

  lemma StaysSettled(db: Db, w: World, t: Task, next: Task, now: int)
    requires Good(db.rows) && WellFormed(t) && WellFormed(next) && Settled(db.rows, t)
    requires t == next || Apart(t.domain, next.domain)
    ensures Settled(Evaluate(db, w, next, now).db.rows, t)
  {
    if t == next {
      EvaluateSettles(db, w, next, now);
    } else {
      EvaluateWithin(db, w, next, now);
      AlertingUnaffected(db, Evaluate(db, w, next, now).db, next.domain, t.domain);
    }
  }

  lemma {:induction false} BatchIdle(db: Db, w: World, ts: seq<Task>, n: nat, now: int)
    requires Good(db.rows) && n <= |ts|
    requires forall i :: 0 <= i < |ts| ==> WellFormed(ts[i]) && Settled(db.rows, ts[i])
    ensures EvaluateUpTo(db, w, ts, n, now) == Result(db, 0, 0, 0)
  {
    hide Evaluate;
    if n > 0 {
      BatchIdle(db, w, ts, n - 1, now);
      IdleIffSettled(db, w, ts[n - 1], now);
    }
  }

  /** Evaluating the same readings twice: the second batch, at any later time and in any
      order of the same tasks, creates, resolves and sends nothing. */
  lemma BatchIdempotent(db: Db, w: World, w': World, ts: seq<Task>, ts': seq<Task>, now: int, now': int)
    requires Good(db.rows) && Consistent(ts)
    requires forall i :: 0 <= i < |ts'| ==> ts'[i] in ts
    ensures var after := EvaluateUpTo(db, w, ts, |ts|, now).db;
      EvaluateUpTo(after, w', ts', |ts'|, now') == Result(after, 0, 0, 0)
  {
    BatchGood(db, w, ts, |ts|, now);
    forall i | 0 <= i < |ts| ensures Settled(EvaluateUpTo(db, w, ts, |ts|, now).db.rows, ts[i]) {
      BatchSettles(db, w, ts, i, |ts|, now);
    }
    BatchIdle(EvaluateUpTo(db, w, ts, |ts|, now).db, w', ts', |ts'|, now');
  }

  // ----- acknowledgement

  /** Acknowledging hides an alert from the evaluators: from a settled domain, once any of its
      active alerts has been acknowledged, the next evaluation raises exactly one new alert -
      of the same type and severity - and resolves nothing. */
  lemma AcknowledgedIsRaisedAgain(db: Db, w: World, t: Task, k: nat, now: int)
    requires Good(db.rows) && WellFormed(t) && Settled(db.rows, t)
    requires k < |db.rows| && Live(db.rows[k], t.domain)
    ensures var acked := Db(db.rows[k := db.rows[k].(status := Acknowledged)], db.notes);
      var r := Evaluate(acked, w, t, now);
      r.created == 1 && r.resolved == 0 && |r.db.rows| == |db.rows| + 1 &&
      r.db.rows[..|db.rows|] == acked.rows &&
      r.db.rows[|db.rows|].alertType == db.rows[k].alertType &&
      r.db.rows[|db.rows|].severity == db.rows[k].severity
  {
    hide RaiseUpTo, Good, WellFormed, Sent, Settled, Live, Swept, CountStale, Lost;
    var acked := Db(db.rows[k := db.rows[k].(status := Acknowledged)], db.notes);
    var m := LostCondition(db, acked, t, k, now);
    QuietAfter(db, acked, w, t, k, m, |t.conditions|, now);
  }

  /** The condition behind an acknowledged alert; nothing is stale after the acknowledgement. */
  lemma LostCondition(db: Db, acked: Db, t: Task, k: nat, now: int) returns (m: nat)
    requires Good(db.rows) && WellFormed(t) && Settled(db.rows, t)
    requires k < |db.rows| && Live(db.rows[k], t.domain)
    requires acked == Db(db.rows[k := db.rows[k].(status := Acknowledged)], db.notes)
    ensures Lost(db, acked, t, k, m) && m < |t.conditions|
    ensures t.conditions[m].alertType == db.rows[k].alertType && t.conditions[m].severity == db.rows[k].severity
    ensures Swept(acked.rows, t.domain, t.conditions, now) == acked.rows
    ensures CountStale(acked.rows, t.domain, t.conditions) == 0
  {
    hide Good, WellFormed;
    var cs := t.conditions;
    forall i | 0 <= i < |db.rows| && Live(db.rows[i], t.domain) ensures Mentions(cs, db.rows[i].alertType) {
      assert (db.rows[i].alertType, db.rows[i].severity) in Alerting(db.rows, t.domain);
      var j :| 0 <= j < |cs| && (db.rows[i].alertType, db.rows[i].severity) == (cs[j].alertType, cs[j].severity);
    }
    NothingStale(acked.rows, t.domain, cs, now);
    assert (db.rows[k].alertType, db.rows[k].severity) in Alerting(db.rows, t.domain);
    m :| 0 <= m < |cs| && (db.rows[k].alertType, db.rows[k].severity) == (cs[m].alertType, cs[m].severity);
  }

  /** A condition other than the acknowledged one still finds its alert. */
  lemma OthersStillFound(db: Db, mid: Db, w: World, t: Task, k: nat, j: nat, now: int)
    requires Good(db.rows) && WellFormed(t) && Settled(db.rows, t) && j < |t.conditions|
    requires k < |db.rows| <= |mid.rows| && !mid.rows[k].status.Active?
    requires forall i :: 0 <= i < |db.rows| && i != k ==> mid.rows[i] == db.rows[i]
    requires forall i :: |db.rows| <= i < |mid.rows| ==> mid.rows[i].alertType != t.conditions[j].alertType
    requires db.rows[k].alertType != t.conditions[j].alertType
    ensures Raise(mid, w, DomainScope(t.domain), t.conditions[j], t.bySeverity, now) == Result(mid, 0, 0, 0)
  {
    var c, s := t.conditions[j], DomainScope(t.domain);
    assert (c.alertType, c.severity) in Desired(t.conditions);
    var i :| 0 <= i < |db.rows| && Live(db.rows[i], t.domain) &&
             (db.rows[i].alertType, db.rows[i].severity) == (c.alertType, c.severity);
    var found := FindActive(mid.rows, s, c.alertType);
    assert mid.rows[i] == db.rows[i];
    assert found.Some?;
    OnlyOneActive(db.rows, s, c.alertType, i, found.value);
  }

  lemma RaiseAcknowledged(db: Db, acked: Db, w: World, t: Task, k: nat, m: nat, now: int)
    requires Good(db.rows) && WellFormed(t) && m < |t.conditions|
    requires k < |db.rows| && Live(db.rows[k], t.domain)
    requires t.conditions[m].alertType == db.rows[k].alertType
    requires acked == Db(db.rows[k := db.rows[k].(status := Acknowledged)], db.notes)
    ensures Raise(acked, w, DomainScope(t.domain), t.conditions[m], t.bySeverity, now) ==
            Open(acked, w, DomainScope(t.domain), t.conditions[m], now)
  {
  }

  /** Condition k of the settled domain db lost its alert to acknowledgement. */
  ghost predicate Lost(db: Db, acked: Db, t: Task, k: nat, m: nat) {
    Good(db.rows) && WellFormed(t) && Settled(db.rows, t) &&
    k < |db.rows| && Live(db.rows[k], t.domain) && m < |t.conditions| &&
    t.conditions[m].alertType == db.rows[k].alertType &&
    acked == Db(db.rows[k := db.rows[k].(status := Acknowledged)], db.notes)
  }

  lemma {:induction false} QuietUntil(db: Db, acked: Db, w: World, t: Task, k: nat, m: nat, n: nat, now: int)
    requires Lost(db, acked, t, k, m) && n <= m
    ensures RaiseUpTo(acked, w, t, n, now) == Result(acked, 0, 0, 0)
  {
    hide Raise, Open;
    if n > 0 {
      QuietUntil(db, acked, w, t, k, m, n - 1, now);
      assert Family(t.conditions[n - 1].alertType) != Family(t.conditions[m].alertType);
      OthersStillFound(db, acked, w, t, k, n - 1, now);
    }
  }

  lemma {:induction false} QuietAfter(db: Db, acked: Db, w: World, t: Task, k: nat, m: nat, n: nat, now: int)
    requires Lost(db, acked, t, k, m) && m < n <= |t.conditions|
    ensures RaiseUpTo(acked, w, t, n, now) == Open(acked, w, DomainScope(t.domain), t.conditions[m], now)
  {
    hide Raise, Open;
    if n == m + 1 {
      QuietUntil(db, acked, w, t, k, m, m, now);
      RaiseAcknowledged(db, acked, w, t, k, m, now);
    } else {
      QuietAfter(db, acked, w, t, k, m, n - 1, now);
      QuietOnceOpened(db, acked, w, t, k, m, n - 1, now);
    }
  }

  /** A later condition still finds its alert after the acknowledged one has been raised again. */
  lemma QuietOnceOpened(db: Db, acked: Db, w: World, t: Task, k: nat, m: nat, n: nat, now: int)
    requires Lost(db, acked, t, k, m) && m < n < |t.conditions|
    ensures var mid := Open(acked, w, DomainScope(t.domain), t.conditions[m], now).db;
      Raise(mid, w, DomainScope(t.domain), t.conditions[n], t.bySeverity, now) == Result(mid, 0, 0, 0)
  {
    hide Raise, Sent;
    assert Family(t.conditions[n].alertType) != Family(t.conditions[m].alertType);
    OthersStillFound(db, Open(acked, w, DomainScope(t.domain), t.conditions[m], now).db, w, t, k, n, now);
  }
}
