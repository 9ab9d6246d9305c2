/** Notifications over whole runs: one inbox entry per recipient of every alert ever raised, and
    what it costs that a deployment's evaluation sweeps the optimization alert. */
module AlertNotices {
  import opened Common
  import opened AlertTypes
  import opened Conditions
  import opened Alerts
  import opened Ownership
  import opened Dispatcher
  import opened AlertLifecycle
  import opened AlertTheorems
  import opened AlertRuns

  // ----- one inbox entry per recipient

  function CountDash(notes: seq<Notification>, id: nat, user: nat): nat {
    if notes == [] then 0
    else
      var n := notes[|notes| - 1];
      CountDash(notes[..|notes| - 1], id, user) +
      if n.channel.Dashboard? && n.alertId == id && n.userId == user then 1 else 0
  }

  lemma {:induction false} DashAppend(a: seq<Notification>, b: seq<Notification>, id: nat, user: nat)
    ensures CountDash(a + b, id, user) == CountDash(a, id, user) + CountDash(b, id, user)
    decreases |b|
  {
    if b == [] {
      assert a + b == a;
    } else {
      assert (a + b)[..|a + b| - 1] == a + b[..|b| - 1];
      DashAppend(a, b[..|b| - 1], id, user);
    }
  }

  lemma {:induction false} DashOfOneAlert(notes: seq<Notification>, id: nat, other: nat, user: nat)
    requires forall n :: n in notes ==> n.alertId == id
    ensures CountDash(notes, other, user) == if other == id then CountRows(notes, user, Dashboard) else 0
  {
    if notes != [] {
      var front := notes[..|notes| - 1];
      forall n | n in front ensures n.alertId == id { assert n in notes; }
      assert notes[|notes| - 1] in notes;
      DashOfOneAlert(front, id, other, user);
    }
  }

  lemma {:induction false} RowsCarryId(rs: seq<Recipient>, id: nat, about: AlertType, o: Outcomes)
    ensures forall n :: n in NaiveRows(rs, id, about, o) ==> n.alertId == id
  {
    if rs != [] {
      RowsCarryId(rs[..|rs| - 1], id, about, o);
      OwnRowsCarryId(rs[|rs| - 1], id, about, o);
    }
  }

  lemma OwnRowsCarryId(r: Recipient, id: nat, about: AlertType, o: Outcomes)
    ensures forall n :: n in RowsOf(r, id, about, o) ==> n.alertId == id
  {
  }

  /** Superusers are listed once, as a query over users does. */
  predicate Sensible(dir: Directory) { Distinct(dir.superusers) }

  function Entries(dir: Directory, a: Alert, user: nat): nat {
    if user in Recipients(dir, a) then 1 else 0
  }

  lemma SentDash(w: World, id: nat, a: Alert, now: int, other: nat, user: nat)
    requires Sensible(w.directory)
    ensures CountDash(Sent(w, id, a, now), other, user) == if other == id then Entries(w.directory, a, user) else 0
  {
    var users := Recipients(w.directory, a);
    var rs := Profiles(w, users, now);
    RowsCarryId(rs, id, a.alertType, w.outcomes(id));
    DashOfOneAlert(Sent(w, id, a, now), id, other, user);
    hide RowsOf, CountRows, CountDash;
    assert DistinctUsers(rs);
    DashboardNeverLost(rs, id, a.alertType, w.outcomes(id), user);
    if user in users {
      var i :| 0 <= i < |users| && users[i] == user;
      assert rs[i].userId == user;
    }
  }

  /** A user as the dispatcher sees them at a given moment. */
  function ProfileOf(w: World, user: nat, now: int): Recipient {
    Recipient(user, w.setting(user), w.localTime(user, now))
  }

  /** What raising an alert adds to the notifications: for each of its recipients exactly the entries
      they get by their own settings and their own local time. */
  lemma SentMeans(w: World, id: nat, a: Alert, now: int, n: Notification)
    requires Sensible(w.directory)
    ensures n in Sent(w, id, a, now) <==>
      n.alertId == id && n.userId in Recipients(w.directory, a) &&
      Gets(ProfileOf(w, n.userId, now), a.alertType, n.channel, w.outcomes(id))
  {
    hide Gets, NaiveRows, Distinct;
    var users := Recipients(w.directory, a);
    var rs := Profiles(w, users, now);
    RecipientsDiffer(w.directory, a);
    assert DistinctUsers(rs) by { UsersDiffer(users, rs); }
    RowsMean(rs, id, a.alertType, w.outcomes(id));
    if i :| 0 <= i < |users| && users[i] == n.userId {
      assert rs[i] == ProfileOf(w, n.userId, now);
      assert n.alertId == id ==> n == Notification(rs[i].userId, id, n.channel);
    }
  }

  lemma RecipientsDiffer(dir: Directory, a: Alert)
    requires Sensible(dir)
    ensures Distinct(Recipients(dir, a))
  {
  }

  lemma UsersDiffer(users: seq<nat>, rs: seq<Recipient>)
    requires Distinct(users) && |rs| == |users| && forall i :: 0 <= i < |rs| ==> rs[i].userId == users[i]
    ensures DistinctUsers(rs)
  {
  }

  /** The inbox entries added by a step are those of the alerts it added: one for each recipient. */
  ghost predicate Notified(before: Db, after: Db, dir: Directory) {
    |before.rows| <= |after.rows| &&
    forall id: nat, user: nat :: CountDash(after.notes, id, user) ==
      CountDash(before.notes, id, user) +
      if |before.rows| <= id < |after.rows| then Entries(dir, after.rows[id], user) else 0
  }

  lemma EntriesKept(dir: Directory, a: Alert, b: Alert, user: nat)
    requires Advances(a, b)
    ensures Entries(dir, a, user) == Entries(dir, b, user)
  {
  }

  lemma NotifiedTransitive(a: Db, b: Db, c: Db, dir: Directory)
    requires Notified(a, b, dir) && Notified(b, c, dir) && Follows(b, c)
    ensures Notified(a, c, dir)
  {
    hide CountDash, Entries, Advances;
    forall id: nat, user: nat
      ensures CountDash(c.notes, id, user) ==
        CountDash(a.notes, id, user) + if |a.rows| <= id < |c.rows| then Entries(dir, c.rows[id], user) else 0
    {
      if id < |b.rows| { EntriesKept(dir, b.rows[id], c.rows[id], user); }
    }
  }

  lemma QuietStep(before: Db, after: Db, dir: Directory)
    requires |after.rows| == |before.rows| && after.notes == before.notes
    ensures Notified(before, after, dir)
  {
  }

  lemma OpenNotifies(db: Db, w: World, s: Scope, c: Condition, now: int)
    requires Sensible(w.directory)
    ensures Notified(db, Open(db, w, s, c, now).db, w.directory)
  {
    hide CountDash, Entries, Sent;
    var after, a := Open(db, w, s, c, now).db, Opened(s, c, now);
    forall id: nat, user: nat
      ensures CountDash(after.notes, id, user) ==
        CountDash(db.notes, id, user) +
        if |db.rows| <= id < |after.rows| then Entries(w.directory, after.rows[id], user) else 0
    {
      DashAppend(db.notes, Sent(w, |db.rows|, a, now), id, user);
      SentDash(w, |db.rows|, a, now, id, user);
    }
  }

  lemma RaiseNotifies(db: Db, w: World, s: Scope, c: Condition, bySeverity: bool, now: int)
    requires Sensible(w.directory)
    ensures Notified(db, Raise(db, w, s, c, bySeverity, now).db, w.directory)
  {
    hide Notified, Open;
    var found := FindActive(db.rows, s, c.alertType);
    if found.None? {
      OpenNotifies(db, w, s, c, now);
    } else if !bySeverity || db.rows[found.value].severity == c.severity {
      QuietStep(db, db, w.directory);
    } else {
      var closed := Db(db.rows[found.value := Closed(db.rows[found.value], now)], db.notes);
      OpenNotifies(closed, w, s, c, now);
      SameNotified(db, closed, Open(closed, w, s, c, now).db, w.directory);
    }
  }

  lemma SameNotified(a: Db, b: Db, c: Db, dir: Directory)
    requires |a.rows| == |b.rows| && a.notes == b.notes && Notified(b, c, dir)
    ensures Notified(a, c, dir)
  {
  }

  lemma {:induction false} RaiseUpToNotifies(db: Db, w: World, t: Task, n: nat, now: int)
    requires Sensible(w.directory) && WellFormed(t) && n <= |t.conditions|
    ensures Notified(db, RaiseUpTo(db, w, t, n, now).db, w.directory)
  {
    hide Raise, Notified, Follows;
    if n == 0 {
      QuietStep(db, db, w.directory);
    } else {
      var mid := RaiseUpTo(db, w, t, n - 1, now).db;
      var next := Raise(mid, w, DomainScope(t.domain), t.conditions[n - 1], t.bySeverity, now).db;
      RaiseUpToNotifies(db, w, t, n - 1, now);
      RaiseNotifies(mid, w, DomainScope(t.domain), t.conditions[n - 1], t.bySeverity, now);
      RaiseWithin(mid, w, t.domain, t.conditions[n - 1], t.bySeverity, now);
      NotifiedTransitive(db, mid, next, w.directory);
    }
  }

  lemma StepNotifies(db: Db, w: World, e: Event)
    requires Sensible(w.directory) && Admissible(e)
    ensures Notified(db, Apply(db, w, e), w.directory)
  {
    hide Notified, RaiseUpTo, Open;
    match e
    case Evaluated(t, now) =>
      var swept := Db(Swept(db.rows, t.domain, t.conditions, now), db.notes);
      RaiseUpToNotifies(swept, w, t, |t.conditions|, now);
      SameNotified(db, swept, Evaluate(db, w, t, now).db, w.directory);
    case RegionsAnnounced(u, now) => OpenNotifies(db, w, OfUser(u), REGIONS, now);
    case UserMoved(id, to, now) => QuietStep(db, Apply(db, w, e), w.directory);
  }

  ghost predicate RunOk(ws: nat -> World, es: seq<Event>) {
    (forall i: nat :: Sensible(ws(i).directory)) && (forall i :: 0 <= i < |es| ==> Admissible(es[i]))
  }

  /** Step m of the run is the one that added alert number id. */
  predicate AddedAt(ws: nat -> World, es: seq<Event>, m: nat, id: nat)
    requires m < |es|
  {
    |Run(Db([], []), ws, es, m).rows| <= id < |Run(Db([], []), ws, es, m + 1).rows|
  }

  lemma {:induction false} NoEarlyNotices(ws: nat -> World, es: seq<Event>, n: nat, id: nat, user: nat)
    requires RunOk(ws, es) && n <= |es| && id >= |Run(Db([], []), ws, es, n).rows|
    ensures CountDash(Run(Db([], []), ws, es, n).notes, id, user) == 0
  {
    hide Apply, CountDash;
    if n == 0 {
      NothingCounted(id, user);
    } else {
      StepNotifies(Run(Db([], []), ws, es, n - 1), ws(n - 1), es[n - 1]);
      NoEarlyNotices(ws, es, n - 1, id, user);
    }
  }

  lemma NothingCounted(id: nat, user: nat)
    ensures CountDash([], id, user) == 0
  {
  }

  /** In every reachable table each alert has exactly one inbox entry for each user who was its
      recipient when it was raised, and none for anyone else. */
  lemma {:induction false} OneEntryPerRecipient(ws: nat -> World, es: seq<Event>, n: nat, id: nat, user: nat)
    returns (m: nat)
    requires RunOk(ws, es) && n <= |es| && id < |Run(Db([], []), ws, es, n).rows|
    ensures m < n && AddedAt(ws, es, m, id)
    ensures var db := Run(Db([], []), ws, es, n);
      CountDash(db.notes, id, user) == Entries(ws(m).directory, db.rows[id], user)
  {
    hide Apply, CountDash, Entries, Advances, Good;
    var start := Db([], []);
    var before, after := Run(start, ws, es, n - 1), Run(start, ws, es, n);
    StepNotifies(before, ws(n - 1), es[n - 1]);
    if id < |before.rows| {
      m := OneEntryPerRecipient(ws, es, n - 1, id, user);
      NothingIsGood();
      RunsMoveForward(start, ws, es, n - 1, n);
      EntriesKept(ws(m).directory, before.rows[id], after.rows[id], user);
    } else {
      m := n - 1;
      NoEarlyNotices(ws, es, n - 1, id, user);
    }
  }

  lemma NothingIsGood()
    ensures Good([])
  {
  }

  // ----- the optimization alert, swept and raised again

  predicate IsOptimization(a: Alert, d: nat) {
    a.deploymentId == Some(d) && a.alertType.ResourceOptimization?
  }

  /** Optimization alerts ever raised for a deployment, whatever became of them. */
  function CountEver(rows: seq<Alert>, d: nat): nat {
    if rows == [] then 0 else CountEver(rows[..|rows| - 1], d) + if IsOptimization(rows[|rows| - 1], d) then 1 else 0
  }

  lemma {:induction false} EverSame(a: seq<Alert>, b: seq<Alert>, d: nat)
    requires |a| == |b| && forall i :: 0 <= i < |a| ==> (IsOptimization(a[i], d) <==> IsOptimization(b[i], d))
    ensures CountEver(a, d) == CountEver(b, d)
  {
    if a != [] { EverSame(a[..|a| - 1], b[..|b| - 1], d); }
  }

  lemma EverAppend(rows: seq<Alert>, a: Alert, d: nat)
    ensures CountEver(rows + [a], d) == CountEver(rows, d) + if IsOptimization(a, d) then 1 else 0
  {
    assert (rows + [a])[..|rows|] == rows;
  }

  lemma RaiseKeepsEver(db: Db, w: World, s: Scope, c: Condition, bySeverity: bool, now: int, d: nat)
    requires !c.alertType.ResourceOptimization?
    ensures CountEver(Raise(db, w, s, c, bySeverity, now).db.rows, d) == CountEver(db.rows, d)
  {
    hide CountEver;
    var a := Opened(s, c, now);
    var found := FindActive(db.rows, s, c.alertType);
    if found.Some? {
      var closed := db.rows[found.value := Closed(db.rows[found.value], now)];
      EverSame(db.rows, closed, d);
      EverAppend(closed, a, d);
    } else {
      EverAppend(db.rows, a, d);
    }
  }

  lemma {:induction false} RaiseUpToKeepsEver(db: Db, w: World, t: Task, n: nat, now: int, d: nat)
    requires n <= |t.conditions| && !Mentions(t.conditions, ResourceOptimization)
    ensures CountEver(RaiseUpTo(db, w, t, n, now).db.rows, d) == CountEver(db.rows, d)
  {
    hide Raise, CountEver;
    if n > 0 {
      RaiseUpToKeepsEver(db, w, t, n - 1, now, d);
      RaiseKeepsEver(RaiseUpTo(db, w, t, n - 1, now).db, w, DomainScope(t.domain), t.conditions[n - 1], t.bySeverity,
                     now, d);
    }
  }

  lemma EvaluationKeepsEver(db: Db, w: World, d: nat, r: DeploymentReading, s: Settings, now: int)
    ensures CountEver(Evaluate(db, w, DeploymentTask(d, r, s), now).db.rows, d) == CountEver(db.rows, d)
  {
    var t := DeploymentTask(d, r, s);
    NeverDesired(r, s);
    var swept := Db(Swept(db.rows, t.domain, t.conditions, now), db.notes);
    hide CountEver, RaiseUpTo, DesiredConditions;
    EverSame(db.rows, swept.rows, d);
    RaiseUpToKeepsEver(swept, w, t, |t.conditions|, now, d);
  }

  lemma NeverDesired(r: DeploymentReading, s: Settings)
    ensures !Mentions(DesiredConditions(r, s), ResourceOptimization)
  {
    ChecksCoherent(|DEPLOYMENT_FAMILIES|, r, s);
    OptimizationIsNoCheck();
    assert DEPLOYMENT_FAMILIES[..|DEPLOYMENT_FAMILIES|] == DEPLOYMENT_FAMILIES;
    var cs := DesiredConditions(r, s);
    forall i | 0 <= i < |cs| ensures cs[i].alertType != ResourceOptimization { assert cs[i] in cs; }
  }

  /** What one round of both scheduled jobs reads: the deployment's metrics and the moments. */
  datatype Round = Round(world: World, reading: DeploymentReading, now: int, later: int)

  /** A deployment's evaluation followed by the synchronisation of its optimization alert, while
      some recommendation stays pending. */
  function RoundOf(db: Db, d: nat, s: Settings, x: Round): Result {
    var first := Evaluate(db, x.world, DeploymentTask(d, x.reading, s), x.now);
    Then(first, Evaluate(first.db, x.world, SwitchTask(OfDeployment(d), OPTIMIZATION, true), x.later))
  }

  function Rounds(db: Db, d: nat, s: Settings, xs: seq<Round>, n: nat): Result
    requires n <= |xs|
  {
    if n == 0 then Result(db, 0, 0, 0)
    else
      var before := Rounds(db, d, s, xs, n - 1);
      Then(before, RoundOf(before.db, d, s, xs[n - 1]))
  }

  /** The owner of the deployment's project is active in every round. */
  ghost predicate OwnerActive(d: nat, xs: seq<Round>) {
    forall i :: 0 <= i < |xs| ==> Recipients(xs[i].world.directory, Opened(OfDeployment(d), OPTIMIZATION, 0)) != []
  }

  lemma SentSomething(w: World, id: nat, a: Alert, now: int)
    requires Recipients(w.directory, a) != []
    ensures |Sent(w, id, a, now)| >= 1
  {
  }

  lemma SwitchedOn(db: Db, w: World, d: nat, now: int)
    requires Good(db.rows) && FindActive(db.rows, OfDeployment(d), ResourceOptimization).None?
    ensures Evaluate(db, w, SwitchTask(OfDeployment(d), OPTIMIZATION, true), now) ==
            Open(db, w, OfDeployment(d), OPTIMIZATION, now)
  {
    hide Evaluate, Open, Good;
    SwitchIsEvaluation(db, w, OfDeployment(d), OPTIMIZATION, true, now);
  }

  /** First half of a round: no optimization alert is left active, and none is added. */
  lemma EvaluationClears(db: Db, d: nat, s: Settings, x: Round)
    requires Good(db.rows)
    ensures var mid := Evaluate(db, x.world, DeploymentTask(d, x.reading, s), x.now).db;
      Good(mid.rows) && CountEver(mid.rows, d) == CountEver(db.rows, d) &&
      FindActive(mid.rows, OfDeployment(d), ResourceOptimization).None?
  {
    hide Evaluate, CountEver, DesiredConditions;
    DesiredCoherent(x.reading, s);
    EvaluateSettles(db, x.world, DeploymentTask(d, x.reading, s), x.now);
    OptimizationAlertSwept(db, x.world, d, x.reading, s, x.now);
    EvaluationKeepsEver(db, x.world, d, x.reading, s, x.now);
  }

  /** Second half: one is raised and dispatched. */
  lemma SynchronisationRaises(mid: Db, w: World, d: nat, later: int)
    requires Good(mid.rows) && FindActive(mid.rows, OfDeployment(d), ResourceOptimization).None?
    ensures var r := Evaluate(mid, w, SwitchTask(OfDeployment(d), OPTIMIZATION, true), later);
      Good(r.db.rows) && r.created == 1 && CountEver(r.db.rows, d) == CountEver(mid.rows, d) + 1 &&
      FindActive(r.db.rows, OfDeployment(d), ResourceOptimization).Some? &&
      (Recipients(w.directory, Opened(OfDeployment(d), OPTIMIZATION, 0)) != [] ==> r.notified >= 1)
  {
    var t, a := SwitchTask(OfDeployment(d), OPTIMIZATION, true), Opened(OfDeployment(d), OPTIMIZATION, later);
    assert WellFormed(t);
    hide Evaluate, CountEver, Sent, Recipients, Settled, WellFormed, Good;
    SwitchedOn(mid, w, d, later);
    EvaluateSettles(mid, w, t, later);
    EverAppend(mid.rows, a, d);
    SameRecipients(w.directory, d, later);
    if Recipients(w.directory, a) != [] { SentSomething(w, |mid.rows|, a, later); }
    assert (mid.rows + [a])[|mid.rows|] == a;
  }

  /** One round: exactly one optimization alert more, created and dispatched afresh. */
  lemma RoundRaises(db: Db, d: nat, s: Settings, x: Round)
    requires Good(db.rows)
    ensures var r := RoundOf(db, d, s, x);
      Good(r.db.rows) && r.created >= 1 && CountEver(r.db.rows, d) == CountEver(db.rows, d) + 1 &&
      FindActive(r.db.rows, OfDeployment(d), ResourceOptimization).Some? &&
      (Recipients(x.world.directory, Opened(OfDeployment(d), OPTIMIZATION, 0)) != [] ==> r.notified >= 1)
  {
    hide Evaluate, CountEver, FindActive, Recipients, Good, DeploymentTask, SwitchTask;
    EvaluationClears(db, d, s, x);
    SynchronisationRaises(Evaluate(db, x.world, DeploymentTask(d, x.reading, s), x.now).db, x.world, d, x.later);
  }

  lemma SameRecipients(dir: Directory, d: nat, now: int)
    ensures Recipients(dir, Opened(OfDeployment(d), OPTIMIZATION, now)) ==
      Recipients(dir, Opened(OfDeployment(d), OPTIMIZATION, 0))
  {
  }

  /** While a recommendation stays pending, n rounds of the two jobs raise n optimization alerts, of
      which one is active at the end, and notify an active owner at least n times - whatever the
      readings. The two jobs undo each other's work. */
  lemma {:induction false} OptimizationAlertChurns(db: Db, d: nat, s: Settings, xs: seq<Round>, n: nat)
    requires Good(db.rows) && n <= |xs|
    ensures var r := Rounds(db, d, s, xs, n);
      Good(r.db.rows) && CountEver(r.db.rows, d) == CountEver(db.rows, d) + n && r.created >= n &&
      (n > 0 ==> FindActive(r.db.rows, OfDeployment(d), ResourceOptimization).Some?) &&
      (OwnerActive(d, xs) ==> r.notified >= n)
  {
    hide RoundOf, CountEver, Good, FindActive, Recipients;
    if n > 0 {
      OptimizationAlertChurns(db, d, s, xs, n - 1);
      RoundRaises(Rounds(db, d, s, xs, n - 1).db, d, s, xs[n - 1]);
    }
  }
}
