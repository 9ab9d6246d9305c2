/** The alerts table as a value, the atomic steps every writer performs on it, and what all
    of them keep. */
module AlertLifecycle {
  import opened Common
  import opened AlertTypes
  import opened Conditions
  import opened Alerts
  import opened Ownership
  import opened Dispatcher

  /** The two tables a step writes. */
  datatype Db = Db(rows: seq<Alert>, notes: seq<Notification>)

  /** Everything a notification depends on besides the alert. */
  datatype World = World(
    directory: Directory,
    setting: nat -> Setting,
    localTime: (nat, int) -> TimeOfDay,
    outcomes: nat -> Outcomes)

  datatype Result = Result(db: Db, created: nat, resolved: nat, notified: nat)

  function Profiles(w: World, users: seq<nat>, now: int): seq<Recipient> {
    seq(|users|, i requires 0 <= i < |users| => Recipient(users[i], w.setting(users[i]), w.localTime(users[i], now)))
  }

  /** The rows dispatching alert number id adds. */
  function Sent(w: World, id: nat, a: Alert, now: int): seq<Notification> {
    NaiveRows(Profiles(w, Recipients(w.directory, a), now), id, a.alertType, w.outcomes(id))
  }

  // ----- the part of the table one evaluator answers for

  datatype Domain =
    | All(scope: Scope)                      // every type of one scope
    | Http                                   // platform-wide api_latency_* and error_rate_*
    | Only(inScope: Scope, kind: AlertType)  // a single on/off type

  function DomainScope(d: Domain): Scope {
    match d
    case All(s) => s
    case Http => PlatformWide
    case Only(s, _) => s
  }

  predicate Covers(d: Domain, t: AlertType) {
    match d
    case All(_) => true
    case Http => IsHttp(t)
    case Only(_, kind) => t == kind
  }

  predicate InDomain(a: Alert, d: Domain) {
    InScope(a, DomainScope(d)) && Covers(d, a.alertType)
  }

  predicate Live(a: Alert, d: Domain) {
    a.status.Active? && InDomain(a, d)
  }

  predicate Mentions(cs: seq<Condition>, t: AlertType) {
    exists i :: 0 <= i < |cs| && cs[i].alertType == t
  }

  // ----- the two halves of an evaluation

  predicate Stale(a: Alert, d: Domain, cs: seq<Condition>) {
    Live(a, d) && !Mentions(cs, a.alertType)
  }

  /** Resolving what no longer holds. */
  function Swept(rows: seq<Alert>, d: Domain, cs: seq<Condition>, now: int): (r: seq<Alert>)
    ensures |r| == |rows|
    ensures forall i :: 0 <= i < |rows| ==> r[i] == if Stale(rows[i], d, cs) then Closed(rows[i], now) else rows[i]
  {
    if rows == [] then []
    else
      var last := rows[|rows| - 1];
      Swept(rows[..|rows| - 1], d, cs, now) + [if Stale(last, d, cs) then Closed(last, now) else last]
  }

  function CountStale(rows: seq<Alert>, d: Domain, cs: seq<Condition>): nat {
    if rows == [] then 0
    else CountStale(rows[..|rows| - 1], d, cs) + if Stale(rows[|rows| - 1], d, cs) then 1 else 0
  }

  /** The first active row of a type in a scope. */
  function FindActive(rows: seq<Alert>, s: Scope, t: AlertType): (r: Option<nat>)
    ensures r.Some? ==> r.value < |rows| && rows[r.value].status.Active? &&
                        InScope(rows[r.value], s) && rows[r.value].alertType == t
    ensures r.None? ==> forall i :: 0 <= i < |rows| && rows[i].status.Active? && InScope(rows[i], s) ==>
                        rows[i].alertType != t
  {
    if rows == [] then None
    else
      var n := |rows| - 1;
      var before := FindActive(rows[..n], s, t);
      if before.Some? then before
      else if rows[n].status.Active? && InScope(rows[n], s) && rows[n].alertType == t then Some(n)
      else None
  }

  /** A new alert and its notifications. */
  function Open(db: Db, w: World, s: Scope, c: Condition, now: int): Result {
    var a := Opened(s, c, now);
    var sent := Sent(w, |db.rows|, a, now);
    Result(Db(db.rows + [a], db.notes + sent), 1, 0, |sent|)
  }

  /** Raising one desired condition: nothing if it is already alerting; otherwise a new
      alert, after closing one of a different severity where severities are compared. */
  function Raise(db: Db, w: World, s: Scope, c: Condition, bySeverity: bool, now: int): Result {
    match FindActive(db.rows, s, c.alertType)
    case None => Open(db, w, s, c, now)
    case Some(i) =>
      if !bySeverity || db.rows[i].severity == c.severity then Result(db, 0, 0, 0)
      else Open(Db(db.rows[i := Closed(db.rows[i], now)], db.notes), w, s, c, now).(resolved := 1)
  }

  function Then(a: Result, b: Result): Result {
    Result(b.db, a.created + b.created, a.resolved + b.resolved, a.notified + b.notified)
  }

  /** What an evaluator does in one go: the conditions that should be alerting in a domain. */
  datatype Task = Task(domain: Domain, conditions: seq<Condition>, bySeverity: bool)

  function RaiseUpTo(db: Db, w: World, t: Task, n: nat, now: int): Result
    requires n <= |t.conditions|
  {
    if n == 0 then Result(db, 0, 0, 0)
    else
      var before := RaiseUpTo(db, w, t, n - 1, now);
      Then(before, Raise(before.db, w, DomainScope(t.domain), t.conditions[n - 1], t.bySeverity, now))
  }

  function Evaluate(db: Db, w: World, t: Task, now: int): Result {
    var swept := Db(Swept(db.rows, t.domain, t.conditions, now), db.notes);
    Then(Result(swept, 0, CountStale(db.rows, t.domain, t.conditions), 0),
         RaiseUpTo(swept, w, t, |t.conditions|, now))
  }

  function EvaluateUpTo(db: Db, w: World, ts: seq<Task>, n: nat, now: int): Result
    requires n <= |ts|
  {
    if n == 0 then Result(db, 0, 0, 0)
    else
      var before := EvaluateUpTo(db, w, ts, n - 1, now);
      Then(before, Evaluate(before.db, w, ts[n - 1], now))
  }

  /** Tasks that can be acted on. */
  ghost predicate WellFormed(t: Task) {
    Coherent(t.conditions) &&
    (forall i :: 0 <= i < |t.conditions| ==>
      Covers(t.domain, t.conditions[i].alertType) &&
      (t.bySeverity || FixedSeverity(t.conditions[i].alertType).Some?)) &&
    (t.domain.Only? ==> !t.domain.kind.Tiered?)
  }

  // ----- the table invariant

  ghost predicate RowOk(a: Alert) {
    AtMostOneScope(a) && (a.status.Resolved? <==> a.resolvedAt.Some?) && SeverityFits(a.alertType, a.severity)
  }

  /** Two rows that must not both be active: same scope and same family of types. The region
      notice is raised without looking, so it is outside the rule. */
  predicate Rivals(a: Alert, b: Alert) {
    a.status.Active? && b.status.Active? && ScopeOf(a) == ScopeOf(b) &&
    Family(a.alertType) == Family(b.alertType) && !a.alertType.NewCloudRegions?
  }

  ghost predicate Good(rows: seq<Alert>) {
    (forall i :: 0 <= i < |rows| ==> RowOk(rows[i])) &&
    (forall i, j :: 0 <= i < j < |rows| ==> !Rivals(rows[i], rows[j]))
  }

  lemma GoodAppend(rows: seq<Alert>, a: Alert)
    requires Good(rows) && RowOk(a)
    requires forall i :: 0 <= i < |rows| ==> !Rivals(rows[i], a)
    ensures Good(rows + [a])
  {
  }

  /** Closing rows, or leaving active, never creates rivals. */
  lemma GoodAdvance(rows: seq<Alert>, rows': seq<Alert>)
    requires Good(rows) && |rows'| == |rows|
    requires forall i :: 0 <= i < |rows| ==> rows'[i] == rows[i] || (RowOk(rows'[i]) && !rows'[i].status.Active?)
    ensures Good(rows')
  {
  }

  // ----- exact agreement

  /** The (type, severity) pairs currently alerting in a domain. */
  function Alerting(rows: seq<Alert>, d: Domain): set<(AlertType, Severity)> {
    set i | 0 <= i < |rows| && Live(rows[i], d) :: (rows[i].alertType, rows[i].severity)
  }

  function Desired(cs: seq<Condition>): set<(AlertType, Severity)> {
    set i | 0 <= i < |cs| :: (cs[i].alertType, cs[i].severity)
  }

  ghost predicate Settled(rows: seq<Alert>, t: Task) {
    Alerting(rows, t.domain) == Desired(t.conditions)
  }

  ghost predicate IsAlerting(rows: seq<Alert>, d: Domain, t: AlertType) {
    exists i :: 0 <= i < |rows| && Live(rows[i], d) && rows[i].alertType == t
  }

  ghost predicate AllAtSeverity(rows: seq<Alert>, d: Domain, c: Condition) {
    forall i :: 0 <= i < |rows| && Live(rows[i], d) && rows[i].alertType == c.alertType ==>
      rows[i].severity == c.severity
  }

  /** State of the table while the first n conditions have been dealt with. */
  ghost predicate Halfway(rows: seq<Alert>, t: Task, n: nat)
    requires n <= |t.conditions|
  {
    Good(rows) &&
    (forall i :: 0 <= i < |rows| && Live(rows[i], t.domain) ==> Mentions(t.conditions, rows[i].alertType)) &&
    (forall j :: 0 <= j < n ==> IsAlerting(rows, t.domain, t.conditions[j].alertType)) &&
    (forall j :: 0 <= j < n ==> AllAtSeverity(rows, t.domain, t.conditions[j]))
  }

  lemma HalfwaySettles(rows: seq<Alert>, t: Task)
    requires Halfway(rows, t, |t.conditions|)
    ensures Settled(rows, t)
  {
  }

  lemma SweptHalfway(rows: seq<Alert>, t: Task, now: int)
    requires Good(rows) && WellFormed(t)
    ensures Halfway(Swept(rows, t.domain, t.conditions, now), t, 0)
  {
  }

  /** A rival of a covered condition lies in the same domain and has the very same type. */
  lemma NoOtherRival(rows: seq<Alert>, t: Task, n: nat, i: nat)
    requires WellFormed(t) && n < |t.conditions| && Halfway(rows, t, n) && i < |rows|
    requires rows[i].status.Active? && InScope(rows[i], DomainScope(t.domain))
    requires Family(rows[i].alertType) == Family(t.conditions[n].alertType)
    ensures rows[i].alertType == t.conditions[n].alertType
  {
  }

  lemma OpenHalfway(rows: seq<Alert>, t: Task, n: nat, now: int)
    requires WellFormed(t) && n < |t.conditions| && Halfway(rows, t, n)
    requires FindActive(rows, DomainScope(t.domain), t.conditions[n].alertType).None?
    ensures Halfway(rows + [Opened(DomainScope(t.domain), t.conditions[n], now)], t, n + 1)
  {
    var c := t.conditions[n];
    var a := Opened(DomainScope(t.domain), c, now);
    var rows' := rows + [a];
    forall i | 0 <= i < |rows| ensures !Rivals(rows[i], a) {
      if Rivals(rows[i], a) {
        InScopeIsScopeOf(rows[i], DomainScope(t.domain));
        InScopeIsScopeOf(a, DomainScope(t.domain));
        NoOtherRival(rows, t, n, i);
      }
    }
    GoodAppend(rows, a);
    assert Live(rows'[|rows|], t.domain);
    forall j | 0 <= j < n + 1 ensures IsAlerting(rows', t.domain, t.conditions[j].alertType) {
      if j < n {
        var i :| 0 <= i < |rows| && Live(rows[i], t.domain) && rows[i].alertType == t.conditions[j].alertType;
        assert rows'[i] == rows[i];
      }
    }
    assert Mentions(t.conditions, c.alertType);
    forall j | 0 <= j < n ensures AllAtSeverity(rows', t.domain, t.conditions[j]) {
      assert Family(t.conditions[j].alertType) != Family(c.alertType);
      assert AllAtSeverity(rows, t.domain, t.conditions[j]);
    }
  }

  lemma CloseHalfway(rows: seq<Alert>, t: Task, n: nat, k: nat, now: int)
    requires WellFormed(t) && n < |t.conditions| && Halfway(rows, t, n) && k < |rows|
    requires Live(rows[k], t.domain) && rows[k].alertType == t.conditions[n].alertType
    ensures Halfway(rows[k := Closed(rows[k], now)], t, n)
    ensures FindActive(rows[k := Closed(rows[k], now)], DomainScope(t.domain), t.conditions[n].alertType).None?
  {
    var s := DomainScope(t.domain);
    var c := t.conditions[n];
    var rows' := rows[k := Closed(rows[k], now)];
    GoodAdvance(rows, rows');
    forall j | 0 <= j < n
      ensures IsAlerting(rows', t.domain, t.conditions[j].alertType)
      ensures AllAtSeverity(rows', t.domain, t.conditions[j])
    {
      var i :| 0 <= i < |rows| && Live(rows[i], t.domain) && rows[i].alertType == t.conditions[j].alertType;
      assert Family(t.conditions[j].alertType) != Family(c.alertType);
      assert rows'[i] == rows[i];
      assert AllAtSeverity(rows, t.domain, t.conditions[j]);
    }
    var found := FindActive(rows', s, c.alertType);
    if found.Some? {
      OnlyOneActive(rows, s, c.alertType, found.value, k);
    }
  }

  /** Lookups that take the first match cannot miss anything: there is at most one. */
  lemma OnlyOneActive(rows: seq<Alert>, s: Scope, t: AlertType, i: nat, j: nat)
    requires Good(rows) && i < |rows| && j < |rows| && !t.NewCloudRegions?
    requires rows[i].status.Active? && InScope(rows[i], s) && rows[i].alertType == t
    requires rows[j].status.Active? && InScope(rows[j], s) && rows[j].alertType == t
    ensures i == j
  {
  }

  lemma RaiseHalfway(db: Db, w: World, t: Task, n: nat, now: int)
    requires WellFormed(t) && n < |t.conditions| && Halfway(db.rows, t, n)
    ensures Halfway(Raise(db, w, DomainScope(t.domain), t.conditions[n], t.bySeverity, now).db.rows, t, n + 1)
  {
    var s, c := DomainScope(t.domain), t.conditions[n];
    match FindActive(db.rows, s, c.alertType)
    case None => OpenHalfway(db.rows, t, n, now);
    case Some(k) =>
      assert Live(db.rows[k], t.domain);
      if !t.bySeverity || db.rows[k].severity == c.severity {
        assert db.rows[k].severity == c.severity;
        forall i | 0 <= i < |db.rows| && Live(db.rows[i], t.domain) && db.rows[i].alertType == c.alertType
          ensures db.rows[i].severity == c.severity
        {
          OnlyOneActive(db.rows, s, c.alertType, i, k);
        }
      } else {
        CloseHalfway(db.rows, t, n, k, now);
        OpenHalfway(db.rows[k := Closed(db.rows[k], now)], t, n, now);
      }
  }

  lemma {:induction false} RaiseUpToHalfway(db: Db, w: World, t: Task, n: nat, now: int)
    requires WellFormed(t) && n <= |t.conditions| && Halfway(db.rows, t, 0)
    ensures Halfway(RaiseUpTo(db, w, t, n, now).db.rows, t, n)
  {
    hide Raise;
    if n > 0 {
      RaiseUpToHalfway(db, w, t, n - 1, now);
      RaiseHalfway(RaiseUpTo(db, w, t, n - 1, now).db, w, t, n - 1, now);
    }
  }

  /** After an evaluation the alerting types and severities of the domain are exactly the
      desired ones, and the table invariant holds. */
  lemma EvaluateSettles(db: Db, w: World, t: Task, now: int)
    requires Good(db.rows) && WellFormed(t)
    ensures Good(Evaluate(db, w, t, now).db.rows)
    ensures Settled(Evaluate(db, w, t, now).db.rows, t)
  {
    var swept := Db(Swept(db.rows, t.domain, t.conditions, now), db.notes);
    SweptHalfway(db.rows, t, now);
    RaiseUpToHalfway(swept, w, t, |t.conditions|, now);
    HalfwaySettles(RaiseUpTo(swept, w, t, |t.conditions|, now).db.rows, t);
  }
}
