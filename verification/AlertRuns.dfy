/** The concrete evaluators as tasks, and safety over every interleaving of evaluators,
    optimization sync, region notices and user actions. */
module AlertRuns {
  import opened Common
  import opened AlertTypes
  import opened Conditions
  import opened Alerts
  import opened AlertLifecycle
  import opened AlertTheorems

  // ----- the evaluators' tasks

  function DeploymentTask(d: nat, r: DeploymentReading, s: Settings): Task {
    Task(All(OfDeployment(d)), DesiredConditions(r, s), true)
  }

  datatype ProjectReading = ProjectReading(budget: Option<real>, spend: real, overrides: Overrides)

  function ProjectTask(p: nat, r: ProjectReading, s: Settings): Task {
    Task(All(OfProject(p)), AsSeq(ProjectCostCondition(r.budget, r.spend, r.overrides, s)), true)
  }

  function FailedLogins(counts: map<nat, nat>, user: nat): nat {
    if user in counts then counts[user] else 0
  }

  function SecurityTask(user: nat, counts: map<nat, nat>, s: Settings): Task {
    Task(All(OfUser(user)), AsSeq(TieredCondition(Security, FailedLogins(counts, user) as real, s.tiers(Security))),
         false)
  }

  function ReadingCondition(m: Metric, reading: Option<real>, s: Settings): Option<Condition> {
    if reading.None? then None else TieredCondition(m, reading.value, s.tiers(m))
  }

  /** A missing latency or error-rate reading desires nothing, so it resolves what was active. */
  function HttpTask(latency: Option<real>, errorRate: Option<real>, s: Settings): Task {
    Task(Http, AsSeq(ReadingCondition(ApiLatency, latency, s)) + AsSeq(ReadingCondition(ErrorRate, errorRate, s)),
         false)
  }

  function SwitchTask(scope: Scope, c: Condition, on: bool): Task {
    Task(Only(scope, c.alertType), if on then [c] else [], false)
  }

  const NODES := Condition(NodeFailure, Critical, None)
  const CONTAINERS := Condition(ContainerFailure, Critical, None)
  const OPTIMIZATION := Condition(ResourceOptimization, Warning, None)
  const REGIONS := Condition(NewCloudRegions, Info, None)

  predicate IsSwitch(c: Condition) {
    c == NODES || c == CONTAINERS || c == OPTIMIZATION
  }

  lemma HttpWellFormed(latency: Option<real>, errorRate: Option<real>, s: Settings)
    ensures WellFormed(HttpTask(latency, errorRate, s))
  {
  }

  lemma ProjectWellFormed(p: nat, r: ProjectReading, s: Settings)
    ensures WellFormed(ProjectTask(p, r, s))
  {
  }

  lemma SecurityWellFormed(u: nat, counts: map<nat, nat>, s: Settings)
    ensures WellFormed(SecurityTask(u, counts, s))
  {
  }

  /** An alert the optimization service raised does not survive the deployment's own
      evaluation: no deployment reading ever desires it, and whatever else is active goes. */
  lemma OptimizationAlertSwept(db: Db, w: World, d: nat, r: DeploymentReading, s: Settings, now: int)
    requires Good(db.rows)
    ensures var rows := Evaluate(db, w, DeploymentTask(d, r, s), now).db.rows;
      forall i :: 0 <= i < |rows| && rows[i].status.Active? && rows[i].deploymentId == Some(d) ==>
        !rows[i].alertType.ResourceOptimization?
  {
    var t := DeploymentTask(d, r, s);
    DesiredCoherent(r, s);
    EvaluateSettles(db, w, t, now);
    var rows := Evaluate(db, w, t, now).db.rows;
    forall i | 0 <= i < |rows| && rows[i].status.Active? && rows[i].deploymentId == Some(d)
      ensures !rows[i].alertType.ResourceOptimization?
    {
      assert Live(rows[i], t.domain);
      assert (rows[i].alertType, rows[i].severity) in Alerting(rows, t.domain);
      var j :| 0 <= j < |t.conditions| &&
        (rows[i].alertType, rows[i].severity) == (t.conditions[j].alertType, t.conditions[j].severity);
      ChecksCoherent(|DEPLOYMENT_FAMILIES|, r, s);
      assert t.conditions[j] in t.conditions;
      assert DEPLOYMENT_FAMILIES[..|DEPLOYMENT_FAMILIES|] == DEPLOYMENT_FAMILIES;
      OptimizationIsNoCheck();
    }
  }

  lemma OptimizationIsNoCheck()
    ensures ResourceOptimization !in DEPLOYMENT_FAMILIES
  {
  }

  lemma AlertingIffDesired(rows: seq<Alert>, t: Task, kind: AlertType, severity: Severity)
    requires Settled(rows, t)
    ensures (kind, severity) in Alerting(rows, t.domain) <==>
            exists c :: c in t.conditions && c.alertType == kind && c.severity == severity
  {
    if (kind, severity) in Desired(t.conditions) {
      var i :| 0 <= i < |t.conditions| && (kind, severity) == (t.conditions[i].alertType, t.conditions[i].severity);
      assert t.conditions[i] in t.conditions;
    }
    if c :| c in t.conditions && c.alertType == kind && c.severity == severity {
      var i :| 0 <= i < |t.conditions| && t.conditions[i] == c;
      assert (t.conditions[i].alertType, t.conditions[i].severity) in Desired(t.conditions);
    }
  }

  /** After any evaluation a deployment has an active storage alert exactly when it has an active
      disk alert of the same tier: the two types never tell anything apart. */
  lemma StorageMirrorsDisk(db: Db, w: World, d: nat, r: DeploymentReading, s: Settings, now: int, tier: Tier,
                           severity: Severity)
    requires Good(db.rows)
    ensures var alerting := Alerting(Evaluate(db, w, DeploymentTask(d, r, s), now).db.rows, All(OfDeployment(d)));
      (Tiered(Disk, tier), severity) in alerting <==> (Tiered(Storage, tier), severity) in alerting
  {
    var t := DeploymentTask(d, r, s);
    var rows := Evaluate(db, w, t, now).db.rows;
    DesiredCoherent(r, s);
    EvaluateSettles(db, w, t, now);
    hide Evaluate, Settled, Alerting, DesiredConditions;
    AlertingIffDesired(rows, t, Tiered(Disk, tier), severity);
    AlertingIffDesired(rows, t, Tiered(Storage, tier), severity);
    if c :| c in t.conditions && c.alertType == Tiered(Disk, tier) && c.severity == severity {
      StorageWithDisk(r, s, tier, severity, c.threshold);
      assert Condition(Tiered(Storage, tier), severity, c.threshold) in t.conditions;
    }
    if c :| c in t.conditions && c.alertType == Tiered(Storage, tier) && c.severity == severity {
      StorageWithDisk(r, s, tier, severity, c.threshold);
      assert Condition(Tiered(Disk, tier), severity, c.threshold) in t.conditions;
    }
  }

  // ----- on/off alerts as written in the source

  /** Look up one row; close it when off, open one when on and there is none. */
  function Switch(db: Db, w: World, s: Scope, c: Condition, on: bool, now: int): Result {
    var found := FindActive(db.rows, s, c.alertType);
    if !on then
      if found.Some? then
        Result(Db(db.rows[found.value := Closed(db.rows[found.value], now)], db.notes), 0, 1, 0)
      else Result(db, 0, 0, 0)
    else if found.Some? then Result(db, 0, 0, 0)
    else Open(db, w, s, c, now)
  }

  lemma {:induction false} OneStale(rows: seq<Alert>, d: Domain, cs: seq<Condition>, k: nat, now: int)
    requires k < |rows| && Stale(rows[k], d, cs)
    requires forall i :: 0 <= i < |rows| && i != k ==> !Stale(rows[i], d, cs)
    ensures Swept(rows, d, cs, now) == rows[k := Closed(rows[k], now)] && CountStale(rows, d, cs) == 1
  {
    hide Stale;
    var n := |rows| - 1;
    if k == n {
      NothingStale(rows[..n], d, cs, now);
    } else {
      OneStale(rows[..n], d, cs, k, now);
    }
  }

  /** The single-row shortcut does what the general resolve-and-raise evaluation would. */
  lemma SwitchIsEvaluation(db: Db, w: World, s: Scope, c: Condition, on: bool, now: int)
    requires Good(db.rows) && IsSwitch(c)
    ensures Switch(db, w, s, c, on, now) == Evaluate(db, w, SwitchTask(s, c, on), now)
  {
    var t := SwitchTask(s, c, on);
    var found := FindActive(db.rows, s, c.alertType);
    assert on ==> t.conditions[0].alertType == c.alertType;
    if found.Some? && !on {
      forall i | 0 <= i < |db.rows| && i != found.value ensures !Stale(db.rows[i], t.domain, []) {
        if Live(db.rows[i], t.domain) { OnlyOneActive(db.rows, s, c.alertType, i, found.value); }
      }
      OneStale(db.rows, t.domain, [], found.value, now);
    } else {
      forall i | 0 <= i < |db.rows| ensures !Stale(db.rows[i], t.domain, t.conditions) {
      }
      NothingStale(db.rows, t.domain, t.conditions, now);
      if on { assert RaiseUpTo(db, w, t, 0, now) == Result(db, 0, 0, 0); }
    }
  }

  // ----- the user's actions

  predicate MayMove(from: Status, to: Status) {
    (from.Active? && (to.Acknowledged? || to.Resolved?)) || (from.Acknowledged? && to.Resolved?)
  }

  /** A status change by a user who may see the alert; None is a refused transition. */
  function Moved(a: Alert, to: Status, now: int): Option<Alert> {
    if !MayMove(a.status, to) then None
    else Some(a.(status := to, resolvedAt := if to.Resolved? then Some(now) else a.resolvedAt))
  }

  // ----- runs

  datatype Event =
    | Evaluated(task: Task, now: int)
    | RegionsAnnounced(user: nat, now: int)
    | UserMoved(id: nat, to: Status, now: int)

  ghost predicate Admissible(e: Event) {
    e.Evaluated? ==> WellFormed(e.task)
  }

  function Apply(db: Db, w: World, e: Event): Db {
    match e
    case Evaluated(t, now) => Evaluate(db, w, t, now).db
    case RegionsAnnounced(u, now) => Open(db, w, OfUser(u), REGIONS, now).db
    case UserMoved(id, to, now) =>
      if id < |db.rows| && Moved(db.rows[id], to, now).Some?
      then Db(db.rows[id := Moved(db.rows[id], to, now).value], db.notes)
      else db
  }

  /** The first n events of a run; settings and directory may differ from event to event. */
  function Run(db: Db, ws: nat -> World, es: seq<Event>, n: nat): Db
    requires n <= |es|
  {
    if n == 0 then db else Apply(Run(db, ws, es, n - 1), ws(n - 1), es[n - 1])
  }

  lemma RegionsStep(db: Db, w: World, user: nat, now: int)
    requires Good(db.rows)
    ensures Good(Open(db, w, OfUser(user), REGIONS, now).db.rows) &&
      Follows(db, Open(db, w, OfUser(user), REGIONS, now).db)
  {
  }

  lemma UserStep(db: Db, id: nat, to: Status, now: int)
    requires Good(db.rows) && id < |db.rows| && Moved(db.rows[id], to, now).Some?
    ensures var db' := Db(db.rows[id := Moved(db.rows[id], to, now).value], db.notes);
      Good(db'.rows) && Follows(db, db')
  {
  }

  lemma StepSafe(db: Db, w: World, e: Event)
    requires Good(db.rows) && Admissible(e)
    ensures Good(Apply(db, w, e).rows) && Follows(db, Apply(db, w, e))
  {
    match e
    case Evaluated(t, now) =>
      EvaluateSettles(db, w, t, now);
      EvaluateWithin(db, w, t, now);
    case RegionsAnnounced(u, now) => RegionsStep(db, w, u, now);
    case UserMoved(id, to, now) =>
      if id < |db.rows| && Moved(db.rows[id], to, now).Some? { UserStep(db, id, to, now); }
  }

  lemma {:induction false} RunGood(db: Db, ws: nat -> World, es: seq<Event>, n: nat)
    requires Good(db.rows) && n <= |es| && forall i :: 0 <= i < |es| ==> Admissible(es[i])
    ensures Good(Run(db, ws, es, n).rows)
  {
    hide Apply;
    if n > 0 {
      RunGood(db, ws, es, n - 1);
      StepSafe(Run(db, ws, es, n - 1), ws(n - 1), es[n - 1]);
    }
  }

  predicate BothActive(a: Alert, b: Alert) {
    a.status.Active? && b.status.Active? && ScopeOf(a) == ScopeOf(b) && !a.alertType.NewCloudRegions?
  }

  predicate TiersOfOneMetric(s: AlertType, t: AlertType) {
    s.Tiered? && t.Tiered? && s.metric == t.metric
  }

  /** In every state any interleaving can reach from an empty table: at most one active alert
      per scope and type (region notices aside), at most one active tier per scope and metric,
      and exactly the resolved alerts carry a resolution time. */
  lemma ReachableStatesAreSafe(ws: nat -> World, es: seq<Event>, n: nat)
    requires n <= |es| && forall i :: 0 <= i < |es| ==> Admissible(es[i])
    ensures var rows := Run(Db([], []), ws, es, n).rows;
      (forall i, j | 0 <= i < j < |rows| && BothActive(rows[i], rows[j]) ::
        rows[i].alertType != rows[j].alertType && !TiersOfOneMetric(rows[i].alertType, rows[j].alertType)) &&
      (forall i :: 0 <= i < |rows| ==> (rows[i].status.Resolved? <==> rows[i].resolvedAt.Some?))
  {
    RunGood(Db([], []), ws, es, n);
    var rows := Run(Db([], []), ws, es, n).rows;
    assert forall i, j :: 0 <= i < j < |rows| ==> !Rivals(rows[i], rows[j]);
  }

  /** Along a run rows and notifications are only added, a row's history never changes, its
      status only moves active -> acknowledged -> resolved, and a resolved row is final. */
  lemma {:induction false} RunsMoveForward(db: Db, ws: nat -> World, es: seq<Event>, m: nat, n: nat)
    requires Good(db.rows) && m <= n <= |es| && forall i :: 0 <= i < |es| ==> Admissible(es[i])
    ensures Follows(Run(db, ws, es, m), Run(db, ws, es, n))
  {
    hide Apply, Good;
    if m < n {
      RunsMoveForward(db, ws, es, m, n - 1);
      RunGood(db, ws, es, n - 1);
      var mid := Run(db, ws, es, n - 1);
      StepSafe(mid, ws(n - 1), es[n - 1]);
      FollowsTransitive(Run(db, ws, es, m), mid, Run(db, ws, es, n));
    }
  }
}
