/** The mutable alerts table, its evaluators, and the full evaluation batch. */
module AlertEvaluation {
  import opened Common
  import opened AlertTypes
  import opened Conditions
  import opened Alerts
  import opened Ownership
  import opened Dispatcher
  import opened AlertLifecycle
  import opened AlertTheorems
  import opened AlertRuns
  import opened AlertMeaning

  class AlertStore {
    var rows: seq<Alert>
    var notes: seq<Notification>

    ghost predicate Valid()
      reads this
    {
      Good(rows)
    }

    ghost function Value(): Db
      reads this
    {
      Db(rows, notes)
    }

    constructor ()
      ensures Valid() && Value() == Db([], [])
    {
      rows, notes := [], [];
    }

    /** The repository's "active alert of this type in this scope" lookups. */
    method GetActive(s: Scope, t: AlertType) returns (found: Option<nat>)
      ensures found == FindActive(rows, s, t)
    {
      for i := 0 to |rows|
        invariant FindActive(rows[..i], s, t).None?
      {
        assert rows[..i + 1][..i] == rows[..i];
        if rows[i].status.Active? && InScope(rows[i], s) && rows[i].alertType == t {
          FoundStays(rows, i + 1, s, t);
          return Some(i);
        }
      }
      assert rows[..|rows|] == rows;
      return None;
    }

    /** Resolves every active row of the domain whose type is no longer desired. */
    method ResolveStale(d: Domain, cs: seq<Condition>, now: int) returns (resolved: nat)
      modifies this`rows
      ensures rows == Swept(old(rows), d, cs, now)
      ensures resolved == CountStale(old(rows), d, cs)
    {
      resolved := 0;
      for i := 0 to |rows|
        invariant |rows| == |old(rows)|
        invariant rows[..i] == Swept(old(rows)[..i], d, cs, now)
        invariant rows[i..] == old(rows)[i..]
        invariant resolved == CountStale(old(rows)[..i], d, cs)
      {
        assert old(rows)[..i + 1][..i] == old(rows)[..i];
        assert rows[i] == rows[i..][0] == old(rows)[i..][0] == old(rows)[i];
        ghost var done := rows[..i];
        if Stale(rows[i], d, cs) {
          rows := rows[i := Closed(rows[i], now)];
          resolved := resolved + 1;
        }
        assert rows[..i + 1] == done + [rows[i]];
        assert rows[i + 1..] == old(rows)[i..][1..];
      }
      assert rows[..|rows|] == rows && old(rows)[..|rows|] == old(rows);
    }

    /** Adds an alert and fans it out to its recipients. */
    method Create(w: World, s: Scope, c: Condition, now: int) returns (notified: nat)
      modifies this
      ensures Result(Value(), 1, 0, notified) == Open(old(Value()), w, s, c, now)
    {
      var a := Opened(s, c, now);
      var id := |rows|;
      rows := rows + [a];
      var sent, posts;
      sent, notified, posts := Dispatch(Profiles(w, Recipients(w.directory, a), now), id, a.alertType, w.outcomes(id));
      notes := notes + sent;
    }

    /** One desired condition. */
    method RaiseCondition(w: World, s: Scope, c: Condition, bySeverity: bool, now: int)
      returns (created: nat, resolved: nat, notified: nat)
      modifies this
      ensures Result(Value(), created, resolved, notified) == Raise(old(Value()), w, s, c, bySeverity, now)
    {
      created, resolved, notified := 0, 0, 0;
      var existing := GetActive(s, c.alertType);
      if existing.Some? && (!bySeverity || rows[existing.value].severity == c.severity) {
        return;
      }
      if existing.Some? {
        rows := rows[existing.value := Closed(rows[existing.value], now)];
        resolved := 1;
      }
      notified := Create(w, s, c, now);
      created := 1;
    }

    method RaiseDesired(w: World, t: Task, now: int) returns (created: nat, resolved: nat, notified: nat)
      modifies this
      ensures Result(Value(), created, resolved, notified) == RaiseUpTo(old(Value()), w, t, |t.conditions|, now)
    {
      hide Raise;
      created, resolved, notified := 0, 0, 0;
      for n := 0 to |t.conditions|
        invariant Result(Value(), created, resolved, notified) == RaiseUpTo(old(Value()), w, t, n, now)
      {
        var c, r, k := RaiseCondition(w, DomainScope(t.domain), t.conditions[n], t.bySeverity, now);
        created, resolved, notified := created + c, resolved + r, notified + k;
      }
    }

    /** The create/resolve lifecycle shared by the deployment, project, security and HTTP
        evaluators: sweep, then raise in order. */
    method SweepAndRaise(w: World, t: Task, now: int) returns (created: nat, resolved: nat, notified: nat)
      modifies this
      ensures Result(Value(), created, resolved, notified) == Evaluate(old(Value()), w, t, now)
    {
      var stale := ResolveStale(t.domain, t.conditions, now);
      created, resolved, notified := RaiseDesired(w, t, now);
      resolved := stale + resolved;
    }

    /** An evaluation, with what it leaves behind: the domain agrees with what is desired,
        nothing outside it changed, and the counters add up. */
    method EvaluateTask(w: World, t: Task, now: int) returns (created: nat, resolved: nat, notified: nat)
      requires Valid() && WellFormed(t)
      modifies this
      ensures Result(Value(), created, resolved, notified) == Evaluate(old(Value()), w, t, now)
      ensures Valid() && Settled(rows, t) && Within(old(Value()), Value(), t.domain)
      ensures Stamped(old(rows), rows, DomainScope(t.domain), t.conditions, now)
      ensures CountActive(rows) + resolved == CountActive(old(rows)) + created
    {
      hide Stamped;
      ghost var before := Value();
      EvaluateStamps(before, w, t, now);
      created, resolved, notified := SweepAndRaise(w, t, now);
      Consequences(before, Value(), w, t, created, resolved, notified, now);
    }

    /** The on/off evaluators: node and container failures, and the optimization notice. */
    method FlipSwitch(w: World, s: Scope, c: Condition, on: bool, now: int)
      returns (created: nat, resolved: nat, notified: nat)
      modifies this
      ensures Result(Value(), created, resolved, notified) == Switch(old(Value()), w, s, c, on, now)
    {
      created, resolved, notified := 0, 0, 0;
      var existing := GetActive(s, c.alertType);
      if !on {
        if existing.Some? {
          rows := rows[existing.value := Closed(rows[existing.value], now)];
          resolved := 1;
        }
        return;
      }
      if existing.Some? { return; }
      notified := Create(w, s, c, now);
      created := 1;
    }

    method EvaluateSwitch(w: World, s: Scope, c: Condition, on: bool, now: int)
      returns (created: nat, resolved: nat, notified: nat)
      requires Valid() && IsSwitch(c)
      modifies this
      ensures Result(Value(), created, resolved, notified) == Evaluate(old(Value()), w, SwitchTask(s, c, on), now)
      ensures Valid() && Settled(rows, SwitchTask(s, c, on)) && Within(old(Value()), Value(), Only(s, c.alertType))
      ensures CountActive(rows) + resolved == CountActive(old(rows)) + created
    {
      hide Evaluate, Switch, Settled, Within, Good, WellFormed;
      ghost var before := Value();
      SwitchWellFormed(s, c, on);
      SwitchIsEvaluation(before, w, s, c, on, now);
      created, resolved, notified := FlipSwitch(w, s, c, on, now);
      Consequences(before, Value(), w, SwitchTask(s, c, on), created, resolved, notified, now);
    }

    /** One more task of a batch that has got through plan so far. */
    method Continue(w: World, t: Task, now: int, ghost start: Db, ghost plan: seq<Task>,
                    created: nat, resolved: nat, notified: nat)
      returns (created': nat, resolved': nat, notified': nat)
      requires Valid() && WellFormed(t)
      requires Result(Value(), created, resolved, notified) == Batch(start, w, plan, now)
      modifies this
      ensures Valid() && Result(Value(), created', resolved', notified') == Batch(start, w, plan + [t], now)
    {
      hide Evaluate, EvaluateUpTo;
      BatchSnoc(start, w, plan, t, now);
      var c, r, k := EvaluateTask(w, t, now);
      created', resolved', notified' := created + c, resolved + r, notified + k;
    }

    method ContinueSwitch(w: World, c: Condition, reading: Option<bool>, now: int, ghost start: Db,
                          ghost plan: seq<Task>,
                          created: nat, resolved: nat, notified: nat)
      returns (created': nat, resolved': nat, notified': nat)
      requires Valid() && IsSwitch(c)
      requires Result(Value(), created, resolved, notified) == Batch(start, w, plan, now)
      modifies this
      ensures Valid() && Result(Value(), created', resolved', notified') ==
        Batch(start, w, plan + SwitchTasks(c, reading), now)
    {
      hide Evaluate, EvaluateUpTo;
      if reading.None? {
        assert plan + SwitchTasks(c, reading) == plan;
        return created, resolved, notified;
      }
      BatchSnoc(start, w, plan, SwitchTask(PlatformWide, c, reading.value), now);
      var n, r, k := EvaluateSwitch(w, PlatformWide, c, reading.value, now);
      created', resolved', notified' := created + n, resolved + r, notified + k;
    }

    /** Users to evaluate: those with failed logins in the window and those already alerting. */
    method SecurityUsers(counts: map<nat, nat>) returns (users: set<nat>)
      ensures users == UsersToCheck(rows, counts)
    {
      users := counts.Keys;
      for i := 0 to |rows|
        invariant users == UsersToCheck(rows[..i], counts)
      {
        TextTestsSelectMetrics(rows[i].alertType);
        UsersToCheckStep(rows, counts, i);
        if rows[i].status.Active? && LikeSecurity(Name(rows[i].alertType)) && rows[i].userId.Some? {
          users := users + {rows[i].userId.value};
        }
      }
      assert rows[..|rows|] == rows;
    }

    /** Failed-login alerts, user by user in an arbitrary order. */
    method EvaluateSecurity(w: World, settings: Settings, counts: map<nat, nat>, now: int)
      returns (created: nat, resolved: nat, notified: nat, ghost order: seq<nat>)
      requires Valid()
      modifies this
      ensures Valid()
      ensures forall u :: u in order <==> u in UsersToCheck(old(rows), counts)
      ensures Result(Value(), created, resolved, notified) ==
        Batch(old(Value()), w, SecurityTasks(order, counts, settings), now)
    {
      hide Evaluate, UsersToCheck;
      created, resolved, notified, order := 0, 0, 0, [];
      var todo := SecurityUsers(counts);
      ghost var start := Value();
      while todo != {}
        invariant Valid()
        invariant forall u :: u in UsersToCheck(start.rows, counts) <==> u in todo || u in order
        invariant Result(Value(), created, resolved, notified) ==
          Batch(start, w, SecurityTasks(order, counts, settings), now)
        decreases todo
      {
        var u :| u in todo;
        todo := todo - {u};
        SecurityWellFormed(u, counts, settings);
        created, resolved, notified := Continue(w, SecurityTask(u, counts, settings), now, start,
          SecurityTasks(order, counts, settings), created, resolved, notified);
        assert SecurityTasks(order + [u], counts, settings) ==
          SecurityTasks(order, counts, settings) + [SecurityTask(u, counts, settings)];
        order := order + [u];
      }
    }

    /** A user acknowledges or resolves an alert they may access. */
    method UpdateStatus(dir: Directory, viewer: Viewer, id: nat, to: Status, now: int) returns (answer: Answer)
      requires Valid()
      modifies this`rows
      ensures Valid()
      ensures answer.NotFound? <==> id >= |old(rows)|
      ensures answer.Forbidden? <==> id < |old(rows)| && !CanAccess(dir, old(rows)[id], viewer)
      ensures answer.Done? || answer.Conflict? ==>
        (answer.Done? <==> old(rows)[id].status != to && !to.Active? && !old(rows)[id].status.Resolved?)
      ensures answer.Done? ==> forall w :: Value() == Apply(old(Value()), w, UserMoved(id, to, now))
      ensures answer.Done? ==> rows == old(rows)[id := old(rows)[id].(
        status := to, resolvedAt := if to.Resolved? then Some(now) else old(rows)[id].resolvedAt)]
      ensures !answer.Done? ==> rows == old(rows)
    {
      if id >= |rows| { return NotFound; }
      if !CanAccess(dir, rows[id], viewer) { return Forbidden; }
      if !MayMove(rows[id].status, to) { return Conflict; }
      UserStep(Value(), id, to, now);
      var moved := rows[id].(status := to);
      if to.Resolved? { moved := moved.(resolvedAt := Some(now)); }
      rows := rows[id := moved];
      answer := Done;
    }

    /** A newly available region is announced without looking for an earlier notice. */
    method AnnounceRegions(w: World, user: nat, now: int)
      requires Valid()
      modifies this
      ensures rows == old(rows) + [Alert(None, None, Some(user), NewCloudRegions, Info, None, Active, now, None)]
      ensures Valid() && Value() == Apply(old(Value()), w, RegionsAnnounced(user, now))
    {
      RegionsStep(Value(), w, user, now);
      var notified := Create(w, OfUser(user), REGIONS, now);
    }

    method EvaluateDeployments(w: World, s: Settings, r: Readings, now: int)
      returns (created: nat, resolved: nat, notified: nat)
      requires Valid()
      modifies this
      ensures Valid()
      ensures Result(Value(), created, resolved, notified) ==
        Batch(old(Value()), w, DeploymentTasks(s, r, |r.deploymentIds|), now)
    {
      hide Evaluate;
      created, resolved, notified := 0, 0, 0;
      ghost var start := Value();
      for i := 0 to |r.deploymentIds|
        invariant Valid() && Result(Value(), created, resolved, notified) ==
          Batch(start, w, DeploymentTasks(s, r, i), now)
      {
        var d := r.deploymentIds[i];
        DesiredCoherent(r.deployment(d), s);
        created, resolved, notified := Continue(w, DeploymentTask(d, r.deployment(d), s), now, start,
          DeploymentTasks(s, r, i), created, resolved, notified);
      }
    }

    method EvaluateProjects(w: World, s: Settings, r: Readings, now: int)
      returns (created: nat, resolved: nat, notified: nat)
      requires Valid()
      modifies this
      ensures Valid()
      ensures Result(Value(), created, resolved, notified) ==
        Batch(old(Value()), w, ProjectTasks(s, r, |r.projectIds|), now)
    {
      hide Evaluate;
      created, resolved, notified := 0, 0, 0;
      ghost var start := Value();
      for i := 0 to |r.projectIds|
        invariant Valid() && Result(Value(), created, resolved, notified) == Batch(start, w, ProjectTasks(s, r, i), now)
      {
        var p := r.projectIds[i];
        ProjectWellFormed(p, r.project(p), s);
        created, resolved, notified := Continue(w, ProjectTask(p, r.project(p), s), now, start,
          ProjectTasks(s, r, i), created, resolved, notified);
      }
    }

    method EvaluatePlatform(w: World, s: Settings, r: Readings, now: int)
      returns (created: nat, resolved: nat, notified: nat)
      requires Valid()
      modifies this
      ensures Valid()
      ensures Result(Value(), created, resolved, notified) == Batch(old(Value()), w, PlatformTasks(s, r), now)
    {
      hide Evaluate;
      ghost var start := Value();
      ghost var plan: seq<Task> := [];
      HttpWellFormed(r.latency, r.errorRate, s);
      created, resolved, notified := Continue(w, HttpTask(r.latency, r.errorRate, s), now, start, plan, 0, 0, 0);
      plan := plan + [HttpTask(r.latency, r.errorRate, s)];
      created, resolved, notified :=
        ContinueSwitch(w, NODES, r.nodesUnhealthy, now, start, plan, created, resolved, notified);
      plan := plan + SwitchTasks(NODES, r.nodesUnhealthy);
      created, resolved, notified :=
        ContinueSwitch(w, CONTAINERS, r.containersUnhealthy, now, start, plan, created, resolved, notified);
      plan := plan + SwitchTasks(CONTAINERS, r.containersUnhealthy);
      assert plan == PlatformTasks(s, r);
    }

    method EvaluateScoped(w: World, s: Settings, r: Readings, now: int)
      returns (created: nat, resolved: nat, notified: nat)
      requires Valid()
      modifies this
      ensures Valid() && Result(Value(), created, resolved, notified) == Batch(old(Value()), w, Scoped(s, r), now)
    {
      ghost var start := Value();
      created, resolved, notified := EvaluateDeployments(w, s, r, now);
      ghost var so := Result(Value(), created, resolved, notified);
      var c, x, k := EvaluateProjects(w, s, r, now);
      ghost var plan, all := Extend(start, w, DeploymentTasks(s, r, |r.deploymentIds|),
                                    ProjectTasks(s, r, |r.projectIds|),
                                    so, Result(Value(), c, x, k), now);
      created, resolved, notified := created + c, resolved + x, notified + k;
    }

    /** The whole batch. The counters report exactly what happened to the two tables. */
    method EvaluateAll(w: World, s: Settings, r: Readings, now: int)
      returns (created: nat, resolved: nat, notified: nat, ghost order: seq<nat>)
      requires Valid()
      modifies this
      ensures Valid()
      ensures OrderFits(old(Value()), w, s, r, order, now)
      ensures Explained(old(rows), rows, s, r)
      ensures Result(Value(), created, resolved, notified) == Batch(old(Value()), w, Plan(s, r, order), now)
      ensures CountActive(rows) + resolved == CountActive(old(rows)) + created
      ensures |notes| == |old(notes)| + notified
    {
      hide EvaluateUpTo, Good, Scoped, SecurityTasks, PlatformTasks, Explained;
      ghost var start := Value();
      created, resolved, notified := EvaluateScoped(w, s, r, now);
      ghost var so := Result(Value(), created, resolved, notified);
      var c, x, k;
      c, x, k, order := EvaluateSecurity(w, s, r.failedLogins, now);
      ghost var plan;
      plan, so :=
        Extend(start, w, Scoped(s, r), SecurityTasks(order, r.failedLogins, s), so, Result(Value(), c, x, k), now);
      created, resolved, notified := created + c, resolved + x, notified + k;
      c, x, k := EvaluatePlatform(w, s, r, now);
      plan, so := Extend(start, w, plan, PlatformTasks(s, r), so, Result(Value(), c, x, k), now);
      created, resolved, notified := created + c, resolved + x, notified + k;
      BatchAccounts(start, w, plan, |plan|, now);
      PlanExplained(start, w, s, r, order, now);
    }
  }

  lemma Extend(start: Db, w: World, plan: seq<Task>, part: seq<Task>, so: Result, next: Result, now: int)
    returns (plan': seq<Task>, so': Result)
    requires so == Batch(start, w, plan, now) && next == Batch(so.db, w, part, now)
    ensures plan' == plan + part && so' == Then(so, next) && so' == Batch(start, w, plan', now)
  {
    BatchAppend(start, w, plan, part, now);
    plan', so' := plan + part, Then(so, next);
  }

  lemma SwitchWellFormed(s: Scope, c: Condition, on: bool)
    requires IsSwitch(c)
    ensures WellFormed(SwitchTask(s, c, on))
  {
  }

  lemma Consequences(before: Db, after: Db, w: World, t: Task, created: nat, resolved: nat, notified: nat, now: int)
    requires Good(before.rows) && WellFormed(t)
    requires Result(after, created, resolved, notified) == Evaluate(before, w, t, now)
    ensures Good(after.rows) && Settled(after.rows, t) && Within(before, after, t.domain)
    ensures CountActive(after.rows) + resolved == CountActive(before.rows) + created
  {
    EvaluateSettles(before, w, t, now);
    EvaluateWithin(before, w, t, now);
    EvaluateAccounts(before, w, t, now);
  }

  lemma {:induction false} FoundStays(rows: seq<Alert>, n: nat, s: Scope, t: AlertType)
    requires n <= |rows| && FindActive(rows[..n], s, t).Some?
    ensures FindActive(rows, s, t) == FindActive(rows[..n], s, t)
    decreases |rows|
  {
    if n == |rows| { assert rows[..n] == rows; }
    else {
      var front := rows[..|rows| - 1];
      assert front[..n] == rows[..n];
      FoundStays(front, n, s, t);
    }
  }

  function UsersToCheck(rows: seq<Alert>, counts: map<nat, nat>): set<nat> {
    counts.Keys + set i | 0 <= i < |rows| && ActiveSecurity(rows[i]) :: rows[i].userId.value
  }

  lemma UsersToCheckStep(rows: seq<Alert>, counts: map<nat, nat>, i: nat)
    requires i < |rows|
    ensures UsersToCheck(rows[..i + 1], counts) ==
      UsersToCheck(rows[..i], counts) + if ActiveSecurity(rows[i]) then {rows[i].userId.value} else {}
  {
  }

  predicate ActiveSecurity(a: Alert) {
    a.status.Active? && a.alertType.Tiered? && a.alertType.metric.Security? && a.userId.Some?
  }

  function SecurityTasks(order: seq<nat>, counts: map<nat, nat>, s: Settings): seq<Task> {
    seq(|order|, i requires 0 <= i < |order| => SecurityTask(order[i], counts, s))
  }

  // ----- batches as sequences of tasks

  function Batch(db: Db, w: World, ts: seq<Task>, now: int): Result {
    EvaluateUpTo(db, w, ts, |ts|, now)
  }

  lemma {:induction false} PrefixBatch(db: Db, w: World, ts: seq<Task>, more: seq<Task>, n: nat, now: int)
    requires n <= |ts|
    ensures EvaluateUpTo(db, w, ts + more, n, now) == EvaluateUpTo(db, w, ts, n, now)
  {
    hide Evaluate;
    if n > 0 { PrefixBatch(db, w, ts, more, n - 1, now); }
  }

  lemma BatchSnoc(db: Db, w: World, ts: seq<Task>, t: Task, now: int)
    ensures Batch(db, w, ts + [t], now) == Then(Batch(db, w, ts, now), Evaluate(Batch(db, w, ts, now).db, w, t, now))
  {
    PrefixBatch(db, w, ts, [t], |ts|, now);
  }

  lemma {:induction false} AppendUpTo(db: Db, w: World, ts: seq<Task>, more: seq<Task>, n: nat, now: int)
    requires n <= |more|
    ensures EvaluateUpTo(db, w, ts + more, |ts| + n, now) ==
      Then(Batch(db, w, ts, now), EvaluateUpTo(Batch(db, w, ts, now).db, w, more, n, now))
  {
    hide Evaluate;
    if n == 0 {
      PrefixBatch(db, w, ts, more, |ts|, now);
    } else {
      AppendUpTo(db, w, ts, more, n - 1, now);
      ThenAssociative(Batch(db, w, ts, now), EvaluateUpTo(Batch(db, w, ts, now).db, w, more, n - 1, now),
                      EvaluateUpTo(db, w, ts + more, |ts| + n - 1, now), w, more[n - 1], now);
    }
  }

  lemma ThenAssociative(a: Result, b: Result, both: Result, w: World, t: Task, now: int)
    requires both == Then(a, b)
    ensures Then(both, Evaluate(both.db, w, t, now)) == Then(a, Then(b, Evaluate(b.db, w, t, now)))
  {
  }

  lemma BatchAppend(db: Db, w: World, ts: seq<Task>, more: seq<Task>, now: int)
    ensures Batch(db, w, ts + more, now) == Then(Batch(db, w, ts, now), Batch(Batch(db, w, ts, now).db, w, more, now))
  {
    AppendUpTo(db, w, ts, more, |more|, now);
  }

  // ----- the plan of a batch

  /** Everything one batch reads. None for a Kubernetes reading means "not observed". */
  datatype Readings = Readings(
    deploymentIds: seq<nat>, deployment: nat -> DeploymentReading,
    projectIds: seq<nat>, project: nat -> ProjectReading,
    failedLogins: map<nat, nat>,
    latency: Option<real>, errorRate: Option<real>,
    nodesUnhealthy: Option<bool>, containersUnhealthy: Option<bool>)

  function DeploymentTasks(s: Settings, r: Readings, n: nat): (ts: seq<Task>)
    requires n <= |r.deploymentIds|
    ensures |ts| == n
    ensures forall i :: 0 <= i < n ==> ts[i] == DeploymentTask(r.deploymentIds[i], r.deployment(r.deploymentIds[i]), s)
  {
    if n == 0 then []
    else
      var d := r.deploymentIds[n - 1];
      DeploymentTasks(s, r, n - 1) + [DeploymentTask(d, r.deployment(d), s)]
  }

  function ProjectTasks(s: Settings, r: Readings, n: nat): (ts: seq<Task>)
    requires n <= |r.projectIds|
    ensures |ts| == n
    ensures forall i :: 0 <= i < n ==> ts[i] == ProjectTask(r.projectIds[i], r.project(r.projectIds[i]), s)
  {
    if n == 0 then []
    else ProjectTasks(s, r, n - 1) + [ProjectTask(r.projectIds[n - 1], r.project(r.projectIds[n - 1]), s)]
  }

  function Scoped(s: Settings, r: Readings): seq<Task> {
    DeploymentTasks(s, r, |r.deploymentIds|) + ProjectTasks(s, r, |r.projectIds|)
  }

  /** A skipped reading contributes no task at all. */
  function SwitchTasks(c: Condition, reading: Option<bool>): seq<Task> {
    if reading.None? then [] else [SwitchTask(PlatformWide, c, reading.value)]
  }

  function PlatformTasks(s: Settings, r: Readings): seq<Task> {
    [HttpTask(r.latency, r.errorRate, s)] +
    SwitchTasks(NODES, r.nodesUnhealthy) + SwitchTasks(CONTAINERS, r.containersUnhealthy)
  }

  function Plan(s: Settings, r: Readings, order: seq<nat>): seq<Task> {
    Scoped(s, r) + SecurityTasks(order, r.failedLogins, s) + PlatformTasks(s, r)
  }

  /** The security evaluator visits exactly the users it finds when its turn comes. */
  ghost predicate OrderFits(db: Db, w: World, s: Settings, r: Readings, order: seq<nat>, now: int) {
    forall u :: u in order <==> u in UsersToCheck(Batch(db, w, Scoped(s, r), now).db.rows, r.failedLogins)
  }

  // ----- idempotence of the whole batch

  /** Which evaluator a task of the plan comes from. */
  datatype Source =
    | FromDeployment(id: nat) | FromProject(id: nat) | FromSecurity(id: nat)
    | FromHttp | FromNodes | FromContainers

  function TaskOf(src: Source, s: Settings, r: Readings): Task {
    match src
    case FromDeployment(d) => DeploymentTask(d, r.deployment(d), s)
    case FromProject(p) => ProjectTask(p, r.project(p), s)
    case FromSecurity(u) => SecurityTask(u, r.failedLogins, s)
    case FromHttp => HttpTask(r.latency, r.errorRate, s)
    case FromNodes => SwitchTask(PlatformWide, NODES, r.nodesUnhealthy == Some(true))
    case FromContainers => SwitchTask(PlatformWide, CONTAINERS, r.containersUnhealthy == Some(true))
  }

  lemma TaskWellFormed(src: Source, s: Settings, r: Readings)
    ensures WellFormed(TaskOf(src, s, r))
  {
    match src
    case FromDeployment(d) => DesiredCoherent(r.deployment(d), s);
    case FromProject(p) => ProjectWellFormed(p, r.project(p), s);
    case FromSecurity(u) => SecurityWellFormed(u, r.failedLogins, s);
    case FromHttp => HttpWellFormed(r.latency, r.errorRate, s);
    case _ =>
  }

  lemma ScopedSource(s: Settings, r: Readings, t: Task) returns (src: Source)
    requires t in Scoped(s, r)
    ensures t == TaskOf(src, s, r)
  {
    if t in DeploymentTasks(s, r, |r.deploymentIds|) {
      var i :| 0 <= i < |r.deploymentIds| && t == DeploymentTasks(s, r, |r.deploymentIds|)[i];
      src := FromDeployment(r.deploymentIds[i]);
    } else {
      var i :| 0 <= i < |r.projectIds| && t == ProjectTasks(s, r, |r.projectIds|)[i];
      src := FromProject(r.projectIds[i]);
    }
  }

  lemma PlatformSource(s: Settings, r: Readings, t: Task) returns (src: Source)
    requires t in PlatformTasks(s, r)
    ensures t == TaskOf(src, s, r)
  {
    src := if t == HttpTask(r.latency, r.errorRate, s) then FromHttp
           else if t in SwitchTasks(NODES, r.nodesUnhealthy) then FromNodes else FromContainers;
  }

  lemma PlanTask(s: Settings, r: Readings, order: seq<nat>, t: Task) returns (src: Source)
    requires t in Plan(s, r, order)
    ensures t == TaskOf(src, s, r)
    ensures WellFormed(t)
  {
    if t in Scoped(s, r) {
      src := ScopedSource(s, r, t);
    } else if t in PlatformTasks(s, r) {
      src := PlatformSource(s, r, t);
    } else {
      var i :| 0 <= i < |order| && t == SecurityTasks(order, r.failedLogins, s)[i];
      src := FromSecurity(order[i]);
    }
    TaskWellFormed(src, s, r);
  }

  lemma DifferentSourcesApart(a: Source, b: Source, s: Settings, r: Readings)
    requires a != b
    ensures Apart(TaskOf(a, s, r).domain, TaskOf(b, s, r).domain)
  {
  }

  /** Two tasks of one batch are the same task or work on disjoint parts of the table. */
  lemma PlanTasksCompatible(s: Settings, r: Readings, order: seq<nat>, t: Task, u: Task)
    requires t in Plan(s, r, order) && u in Plan(s, r, order)
    ensures t == u || Apart(t.domain, u.domain)
  {
    var a := PlanTask(s, r, order, t);
    var b := PlanTask(s, r, order, u);
    if a != b { DifferentSourcesApart(a, b, s, r); }
  }

  lemma PlanConsistent(s: Settings, r: Readings, order: seq<nat>)
    ensures Consistent(Plan(s, r, order))
  {
    var ts := Plan(s, r, order);
    forall i | 0 <= i < |ts| ensures WellFormed(ts[i]) { var src := PlanTask(s, r, order, ts[i]); }
    forall i, j | 0 <= i < j < |ts| ensures ts[i] == ts[j] || Apart(ts[i].domain, ts[j].domain) {
      PlanTasksCompatible(s, r, order, ts[i], ts[j]);
    }
  }

  lemma {:induction false} UntouchedByBatch(db: Db, w: World, ts: seq<Task>, n: nat, d: Domain, now: int)
    requires Good(db.rows) && Consistent(ts) && n <= |ts|
    requires forall i :: 0 <= i < |ts| ==> Apart(ts[i].domain, d)
    ensures Alerting(EvaluateUpTo(db, w, ts, n, now).db.rows, d) == Alerting(db.rows, d)
  {
    hide Evaluate;
    if n > 0 {
      UntouchedByBatch(db, w, ts, n - 1, d, now);
      BatchGood(db, w, ts, n - 1, now);
      UntouchedByOne(EvaluateUpTo(db, w, ts, n - 1, now), w, ts[n - 1], d, now);
    }
  }

  lemma UntouchedByOne(before: Result, w: World, t: Task, d: Domain, now: int)
    requires Good(before.db.rows) && WellFormed(t) && Apart(t.domain, d)
    ensures Alerting(Then(before, Evaluate(before.db, w, t, now)).db.rows, d) == Alerting(before.db.rows, d)
  {
    EvaluateWithin(before.db, w, t, now);
    AlertingUnaffected(before.db, Evaluate(before.db, w, t, now).db, t.domain, d);
  }

  lemma CheckedIffAlerting(rows: seq<Alert>, counts: map<nat, nat>, u: nat)
    requires u !in counts
    ensures u in UsersToCheck(rows, counts) <==>
      exists p :: p in Alerting(rows, All(OfUser(u))) && p.0.Tiered? && p.0.metric.Security?
  {
    if u in UsersToCheck(rows, counts) {
      var i :| 0 <= i < |rows| && ActiveSecurity(rows[i]) && rows[i].userId.value == u;
      assert Live(rows[i], All(OfUser(u)));
      assert (rows[i].alertType, rows[i].severity) in Alerting(rows, All(OfUser(u)));
    }
    if p :| p in Alerting(rows, All(OfUser(u))) && p.0.Tiered? && p.0.metric.Security? {
      var i :| 0 <= i < |rows| && Live(rows[i], All(OfUser(u))) && p == (rows[i].alertType, rows[i].severity);
      assert ActiveSecurity(rows[i]);
    }
  }

  /** The second run finds no user to check that the first one did not. */
  lemma NoNewUsers(mid: Db, w: World, s: Settings, r: Readings, order: seq<nat>, u: nat, now: int)
    requires Good(mid.rows)
    requires forall v :: v in order <==> v in UsersToCheck(mid.rows, r.failedLogins)
    requires var ts := SecurityTasks(order, r.failedLogins, s) + PlatformTasks(s, r);
      u in UsersToCheck(Batch(mid, w, ts, now).db.rows, r.failedLogins)
    ensures u in order
  {
    if u !in order {
      LaterTasksApart(s, r, order, u);
      hide Good, Consistent, UsersToCheck, Alerting, EvaluateUpTo, SecurityTasks, PlatformTasks;
      var ts := SecurityTasks(order, r.failedLogins, s) + PlatformTasks(s, r);
      UntouchedByBatch(mid, w, ts, |ts|, All(OfUser(u)), now);
      CheckedIffAlerting(mid.rows, r.failedLogins, u);
      CheckedIffAlerting(Batch(mid, w, ts, now).db.rows, r.failedLogins, u);
    }
  }

  /** What runs after the scoped evaluators does not touch a user who is not on the list. */
  lemma LaterTasksApart(s: Settings, r: Readings, order: seq<nat>, u: nat)
    requires u !in order
    ensures var ts := SecurityTasks(order, r.failedLogins, s) + PlatformTasks(s, r);
      Consistent(ts) && forall i :: 0 <= i < |ts| ==> Apart(ts[i].domain, All(OfUser(u)))
  {
    var ts := SecurityTasks(order, r.failedLogins, s) + PlatformTasks(s, r);
    forall i | 0 <= i < |ts| ensures ts[i] in Plan(s, r, order) && Apart(ts[i].domain, All(OfUser(u))) {
      if i < |order| { assert ts[i] == SecurityTask(order[i], r.failedLogins, s); }
      else { assert ts[i] == PlatformTasks(s, r)[i - |order|]; }
    }
    hide WellFormed, Plan, Apart;
    forall i, j | 0 <= i < j < |ts| ensures ts[i] == ts[j] || Apart(ts[i].domain, ts[j].domain) {
      PlanTasksCompatible(s, r, order, ts[i], ts[j]);
    }
    forall i | 0 <= i < |ts| ensures WellFormed(ts[i]) { var src := PlanTask(s, r, order, ts[i]); }
  }

  /** Running the whole evaluation again on unchanged readings, at any later moment and with
      any settings for delivery, changes nothing and sends nothing. */
  lemma EvaluateAllIdempotent(db: Db, w: World, w': World, s: Settings, r: Readings,
                              order: seq<nat>, order': seq<nat>, now: int, now': int)
    requires Good(db.rows)
    requires OrderFits(db, w, s, r, order, now)
    requires var after := Batch(db, w, Plan(s, r, order), now).db; OrderFits(after, w', s, r, order', now')
    ensures var after := Batch(db, w, Plan(s, r, order), now).db;
      Batch(after, w', Plan(s, r, order'), now') == Result(after, 0, 0, 0)
  {
    var plan := Plan(s, r, order);
    var after := Batch(db, w, plan, now).db;
    PlanConsistent(s, r, order);
    BatchGood(db, w, plan, |plan|, now);
    ScopedTasksIdle(db, w, w', s, r, order, now, now');
    OnlyOldUsers(db, w, s, r, order, order', now);
    forall t | t in Plan(s, r, order') ensures t in plan { SameTasks(s, r, order, order', t); }
    var plan' := Plan(s, r, order');
    forall i | 0 <= i < |plan'| ensures plan'[i] in plan { assert plan'[i] in plan'; }
    BatchIdempotent(db, w, w', plan, plan', now, now');
  }

  lemma SameTasks(s: Settings, r: Readings, order: seq<nat>, order': seq<nat>, t: Task)
    requires forall u :: u in order' ==> u in order
    requires t in Plan(s, r, order')
    ensures t in Plan(s, r, order)
  {
    if t in SecurityTasks(order', r.failedLogins, s) {
      var i :| 0 <= i < |order'| && t == SecurityTask(order'[i], r.failedLogins, s);
      assert order'[i] in order';
      var j :| 0 <= j < |order| && order[j] == order'[i];
      assert SecurityTasks(order, r.failedLogins, s)[j] == t;
    }
  }

  /** The deployment and project evaluators of the second run do nothing, so its security
      evaluator sees the table the first run left. */
  lemma ScopedTasksIdle(db: Db, w: World, w': World, s: Settings, r: Readings, order: seq<nat>, now: int, now': int)
    requires Good(db.rows)
    ensures var after := Batch(db, w, Plan(s, r, order), now).db; Batch(after, w', Scoped(s, r), now').db == after
  {
    PlanConsistent(s, r, order);
    forall i | 0 <= i < |Scoped(s, r)| ensures Scoped(s, r)[i] in Plan(s, r, order) {
      assert Plan(s, r, order)[i] == Scoped(s, r)[i];
    }
    BatchIdempotent(db, w, w', Plan(s, r, order), Scoped(s, r), now, now');
  }

  lemma OnlyOldUsers(db: Db, w: World, s: Settings, r: Readings, order: seq<nat>, order': seq<nat>, now: int)
    requires Good(db.rows) && OrderFits(db, w, s, r, order, now)
    requires var after := Batch(db, w, Plan(s, r, order), now).db;
      forall u :: u in order' <==> u in UsersToCheck(after.rows, r.failedLogins)
    ensures forall u :: u in order' ==> u in order
  {
    hide Good, EvaluateUpTo, Scoped;
    var rest := SecurityTasks(order, r.failedLogins, s) + PlatformTasks(s, r);
    assert Plan(s, r, order) == Scoped(s, r) + rest;
    BatchAppend(db, w, Scoped(s, r), rest, now);
    var mid := Batch(db, w, Scoped(s, r), now).db;
    ScopedGood(db, w, s, r, now);
    forall u | u in order' ensures u in order { NoNewUsers(mid, w, s, r, order, u, now); }
  }

  lemma ScopedGood(db: Db, w: World, s: Settings, r: Readings, now: int)
    requires Good(db.rows)
    ensures Good(Batch(db, w, Scoped(s, r), now).db.rows)
  {
    PlanConsistent(s, r, []);
    var ts := Scoped(s, r);
    forall i | 0 <= i < |ts| ensures ts[i] in Plan(s, r, []) { assert Plan(s, r, [])[i] == ts[i]; }
    forall i, j | 0 <= i < j < |ts| ensures ts[i] == ts[j] || Apart(ts[i].domain, ts[j].domain) {
      PlanTasksCompatible(s, r, [], ts[i], ts[j]);
    }
    forall i | 0 <= i < |ts| ensures WellFormed(ts[i]) { var src := PlanTask(s, r, [], ts[i]); }
    BatchGood(db, w, ts, |ts|, now);
  }

  // ----- what the whole batch leaves alerting

  /** After a batch every scope shows exactly the alerts that its readings warrant. A user without
      failed logins who was not alerting either is not looked at; a cluster reading that was not
      observed leaves its alert as it was. */
  ghost predicate Explained(before: seq<Alert>, after: seq<Alert>, s: Settings, r: Readings) {
    (forall d :: d in r.deploymentIds ==> DeploymentShows(after, d, r.deployment(d), s)) &&
    (forall p :: p in r.projectIds ==> ProjectShows(after, p, r.project(p), s)) &&
    (forall u :: u in r.failedLogins ==> UserShows(after, u, r.failedLogins[u], s)) &&
    (forall u, tier, severity :: u !in r.failedLogins && Shown(after, OfUser(u), Tiered(Security, tier), severity) ==>
      LoginsWarrant(0, s, Tiered(Security, tier), severity)) &&
    HttpShows(after, r.latency, r.errorRate, s) &&
    ClusterShows(before, after, NodeFailure, r.nodesUnhealthy) &&
    ClusterShows(before, after, ContainerFailure, r.containersUnhealthy)
  }

  ghost predicate ClusterShows(before: seq<Alert>, after: seq<Alert>, t: AlertType, unhealthy: Option<bool>) {
    forall severity :: Shown(after, PlatformWide, t, severity) <==>
      if unhealthy.Some? then unhealthy.value && severity.Critical? else Shown(before, PlatformWide, t, severity)
  }

  lemma PlanExplained(db: Db, w: World, s: Settings, r: Readings, order: seq<nat>, now: int)
    requires Good(db.rows) && OrderFits(db, w, s, r, order, now)
    ensures Explained(db.rows, Batch(db, w, Plan(s, r, order), now).db.rows, s, r)
  {
    hide EvaluateUpTo, Good, DeploymentShows, ProjectShows, UserShows, HttpShows, ClusterShows, OrderFits, Plan;
    hide LoginsWarrant, Shown;
    var rows := Batch(db, w, Plan(s, r, order), now).db.rows;
    forall d | d in r.deploymentIds ensures DeploymentShows(rows, d, r.deployment(d), s) {
      DeploymentInPlan(s, r, order, d);
      PlanSettles(db, w, s, r, order, DeploymentTask(d, r.deployment(d), s), now);
      DeploymentMeans(rows, d, r.deployment(d), s);
    }
    forall p | p in r.projectIds ensures ProjectShows(rows, p, r.project(p), s) {
      ProjectInPlan(s, r, order, p);
      PlanSettles(db, w, s, r, order, ProjectTask(p, r.project(p), s), now);
      ProjectMeans(rows, p, r.project(p), s);
    }
    forall u | u in r.failedLogins ensures UserShows(rows, u, r.failedLogins[u], s) {
      FailedIsListed(db, w, s, r, order, u, now);
      UserExplained(db, w, s, r, order, u, now);
    }
    forall u, tier, severity | u !in r.failedLogins && Shown(rows, OfUser(u), Tiered(Security, tier), severity)
      ensures LoginsWarrant(0, s, Tiered(Security, tier), severity)
    {
      ShownIsListed(db, w, s, r, order, u, tier, severity, now);
      UserExplained(db, w, s, r, order, u, now);
      UserShownWarrants(rows, u, s, Tiered(Security, tier), severity);
    }
    HttpInPlan(s, r, order);
    PlanSettles(db, w, s, r, order, HttpTask(r.latency, r.errorRate, s), now);
    HttpMeans(rows, r.latency, r.errorRate, s);
    ClusterExplained(db, w, s, r, order, now, NODES, r.nodesUnhealthy);
    ClusterExplained(db, w, s, r, order, now, CONTAINERS, r.containersUnhealthy);
  }

  lemma UserShownWarrants(rows: seq<Alert>, u: nat, s: Settings, t: AlertType, severity: Severity)
    requires UserShows(rows, u, 0, s) && Shown(rows, OfUser(u), t, severity)
    ensures LoginsWarrant(0, s, t, severity)
  {
    hide Shown, LoginsWarrant;
  }

  lemma PlanSettles(db: Db, w: World, s: Settings, r: Readings, order: seq<nat>, t: Task, now: int)
    requires Good(db.rows) && t in Plan(s, r, order)
    ensures Settled(Batch(db, w, Plan(s, r, order), now).db.rows, t)
  {
    hide EvaluateUpTo, Good, Settled, Plan, Consistent;
    var plan := Plan(s, r, order);
    PlanConsistent(s, r, order);
    var i :| 0 <= i < |plan| && plan[i] == t;
    BatchSettles(db, w, plan, i, |plan|, now);
  }

  lemma DeploymentInPlan(s: Settings, r: Readings, order: seq<nat>, d: nat)
    requires d in r.deploymentIds
    ensures DeploymentTask(d, r.deployment(d), s) in Plan(s, r, order)
  {
    hide DeploymentTask;
    var i :| 0 <= i < |r.deploymentIds| && r.deploymentIds[i] == d;
    assert DeploymentTasks(s, r, |r.deploymentIds|)[i] in DeploymentTasks(s, r, |r.deploymentIds|);
  }

  lemma ProjectInPlan(s: Settings, r: Readings, order: seq<nat>, p: nat)
    requires p in r.projectIds
    ensures ProjectTask(p, r.project(p), s) in Plan(s, r, order)
  {
    hide ProjectTask;
    var i :| 0 <= i < |r.projectIds| && r.projectIds[i] == p;
    assert ProjectTasks(s, r, |r.projectIds|)[i] in ProjectTasks(s, r, |r.projectIds|);
  }

  lemma SecurityInPlan(s: Settings, r: Readings, order: seq<nat>, u: nat)
    requires u in order
    ensures SecurityTask(u, r.failedLogins, s) in Plan(s, r, order)
  {
    hide SecurityTask;
    var i :| 0 <= i < |order| && order[i] == u;
    assert SecurityTasks(order, r.failedLogins, s)[i] in SecurityTasks(order, r.failedLogins, s);
  }

  lemma HttpInPlan(s: Settings, r: Readings, order: seq<nat>)
    ensures HttpTask(r.latency, r.errorRate, s) in Plan(s, r, order)
  {
    hide HttpTask;
    assert PlatformTasks(s, r)[0] in PlatformTasks(s, r);
  }

  lemma SwitchInPlan(s: Settings, r: Readings, order: seq<nat>, c: Condition, reading: Option<bool>)
    requires (c == NODES && reading == r.nodesUnhealthy) || (c == CONTAINERS && reading == r.containersUnhealthy)
    requires reading.Some?
    ensures SwitchTask(PlatformWide, c, reading.value) in Plan(s, r, order)
  {
    hide SwitchTask, HttpTask;
    assert SwitchTasks(c, reading)[0] in SwitchTasks(c, reading);
  }

  lemma UserExplained(db: Db, w: World, s: Settings, r: Readings, order: seq<nat>, u: nat, now: int)
    requires Good(db.rows) && u in order
    ensures UserShows(Batch(db, w, Plan(s, r, order), now).db.rows, u,
                      if u in r.failedLogins then r.failedLogins[u] else 0, s)
  {
    hide EvaluateUpTo, Good, Settled, Plan, UserShows;
    SecurityInPlan(s, r, order, u);
    PlanSettles(db, w, s, r, order, SecurityTask(u, r.failedLogins, s), now);
    UserMeans(Batch(db, w, Plan(s, r, order), now).db.rows, u, r.failedLogins, s);
  }

  lemma FailedIsListed(db: Db, w: World, s: Settings, r: Readings, order: seq<nat>, u: nat, now: int)
    requires OrderFits(db, w, s, r, order, now) && u in r.failedLogins
    ensures u in order
  {
    hide EvaluateUpTo, Scoped;
  }

  /** A user who shows a security alert after the batch was looked at. */
  lemma ShownIsListed(db: Db, w: World, s: Settings, r: Readings, order: seq<nat>, u: nat, tier: Tier,
                      severity: Severity, now: int)
    requires Good(db.rows) && OrderFits(db, w, s, r, order, now)
    requires Shown(Batch(db, w, Plan(s, r, order), now).db.rows, OfUser(u), Tiered(Security, tier), severity)
    ensures u in order
  {
    hide Good, EvaluateUpTo, Scoped, SecurityTasks, PlatformTasks;
    var rest := SecurityTasks(order, r.failedLogins, s) + PlatformTasks(s, r);
    assert Plan(s, r, order) == Scoped(s, r) + rest;
    BatchAppend(db, w, Scoped(s, r), rest, now);
    var mid := Batch(db, w, Scoped(s, r), now).db;
    ScopedGood(db, w, s, r, now);
    var rows := Batch(mid, w, rest, now).db.rows;
    var i :| 0 <= i < |rows| && rows[i].status.Active? && InScope(rows[i], OfUser(u)) &&
             rows[i].alertType == Tiered(Security, tier) && rows[i].severity == severity;
    assert ActiveSecurity(rows[i]);
    assert u in UsersToCheck(rows, r.failedLogins);
    NoNewUsers(mid, w, s, r, order, u, now);
  }

  lemma ClusterExplained(db: Db, w: World, s: Settings, r: Readings, order: seq<nat>, now: int, c: Condition,
                         reading: Option<bool>)
    requires Good(db.rows)
    requires (c == NODES && reading == r.nodesUnhealthy) || (c == CONTAINERS && reading == r.containersUnhealthy)
    ensures ClusterShows(db.rows, Batch(db, w, Plan(s, r, order), now).db.rows, c.alertType, reading)
  {
    hide EvaluateUpTo, Good, Settled, Plan, Shown, SwitchTask;
    var rows := Batch(db, w, Plan(s, r, order), now).db.rows;
    if reading.Some? {
      SwitchInPlan(s, r, order, c, reading);
      PlanSettles(db, w, s, r, order, SwitchTask(PlatformWide, c, reading.value), now);
      SwitchMeans(rows, c, reading.value);
    } else {
      Unobserved(db, w, s, r, order, now, c, reading);
      forall severity { SameShown(db.rows, rows, c.alertType, severity); }
    }
  }

  /** Without a reading no task of the batch is about the on/off alert. */
  lemma Unobserved(db: Db, w: World, s: Settings, r: Readings, order: seq<nat>, now: int, c: Condition,
                   reading: Option<bool>)
    requires Good(db.rows) && reading.None?
    requires (c == NODES && reading == r.nodesUnhealthy) || (c == CONTAINERS && reading == r.containersUnhealthy)
    ensures var d := Only(PlatformWide, c.alertType);
      Alerting(Batch(db, w, Plan(s, r, order), now).db.rows, d) == Alerting(db.rows, d)
  {
    hide EvaluateUpTo, Good, Alerting, Consistent;
    var d, plan := Only(PlatformWide, c.alertType), Plan(s, r, order);
    PlanConsistent(s, r, order);
    forall i | 0 <= i < |plan| ensures Apart(plan[i].domain, d) {
      NotAbout(s, r, order, plan[i], c, reading);
    }
    UntouchedByBatch(db, w, plan, |plan|, d, now);
  }

  lemma NotAbout(s: Settings, r: Readings, order: seq<nat>, t: Task, c: Condition, reading: Option<bool>)
    requires t in Plan(s, r, order) && reading.None?
    requires (c == NODES && reading == r.nodesUnhealthy) || (c == CONTAINERS && reading == r.containersUnhealthy)
    ensures Apart(t.domain, Only(PlatformWide, c.alertType))
  {
    hide DesiredConditions, ReadingCondition, TieredCondition, ProjectCostCondition;
    if t in PlatformTasks(s, r) {
      if t in SwitchTasks(NODES, r.nodesUnhealthy) {
      } else if t in SwitchTasks(CONTAINERS, r.containersUnhealthy) {
      }
    } else if t in Scoped(s, r) {
      var src := ScopedSource(s, r, t);
    } else {
      var i :| 0 <= i < |order| && t == SecurityTasks(order, r.failedLogins, s)[i];
    }
  }

  lemma SameShown(before: seq<Alert>, after: seq<Alert>, t: AlertType, severity: Severity)
    requires Alerting(before, Only(PlatformWide, t)) == Alerting(after, Only(PlatformWide, t))
    ensures Shown(before, PlatformWide, t, severity) <==> Shown(after, PlatformWide, t, severity)
  {
    ShownIffAlerting(before, t, severity);
    ShownIffAlerting(after, t, severity);
  }

  lemma ShownIffAlerting(rows: seq<Alert>, t: AlertType, severity: Severity)
    ensures Shown(rows, PlatformWide, t, severity) <==> (t, severity) in Alerting(rows, Only(PlatformWide, t))
  {
    if i :| 0 <= i < |rows| && rows[i].status.Active? && InScope(rows[i], PlatformWide) && rows[i].alertType == t &&
            rows[i].severity == severity {
      assert Live(rows[i], Only(PlatformWide, t));
    }
  }
}
