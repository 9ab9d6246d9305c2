/** The recommendation lifecycle: creation, cooldown, dismissal, auto-apply, and the alert that
    mirrors it. A row's id is its position in the table; times are instants of one clock. */
module Optimization {
  import opened Common
  import opened Autoscaler
  import Alerts
  import Ownership
  import AlertLifecycle
  import AlertRuns
  import AlertEvaluation

  datatype Status = Pending | Applied | Dismissed

  datatype Row = Row(deploymentId: nat, kind: Kind, status: Status, createdAt: int, updatedAt: int,
                     savings: Option<real>)

  datatype Deployment = Deployment(replicas: int, memoryLimit: Option<real>)

  datatype Config = Config(settings: Settings, cooldown: nat, minConfidence: real, autoApply: bool,
                           autoKinds: set<Kind>, savingsFraction: real)

  /** What one evaluation of one deployment reads: recent averages, forecasts and, when a cost
      history exists, the project's latest monthly total. */
  datatype Reading = Reading(cpu: real, memory: real, cpuForecast: Option<Forecast>, memoryForecast: Option<Forecast>,
                             latestMonth: Option<real>)

  /** The database an evaluation works on. */
  datatype State = State(rows: seq<Row>, deployments: map<nat, Deployment>)

  // ----- lookups, all of which see the rows as they were stored before the step

  predicate IsPending(r: Row, d: nat, k: Kind) {
    r.deploymentId == d && r.kind == k && r.status.Pending?
  }

  predicate IsRecent(r: Row, d: nat, k: Kind, since: int) {
    r.deploymentId == d && r.kind == k && !r.status.Pending? && r.updatedAt >= since
  }

  /** Pending, or resolved too recently: no new row of this kind yet. */
  predicate Blocked(rows: seq<Row>, d: nat, k: Kind, since: int) {
    exists i :: 0 <= i < |rows| && (IsPending(rows[i], d, k) || IsRecent(rows[i], d, k, since))
  }

  // ----- one evaluation

  function DismissedRow(r: Row, at: int): Row { r.(status := Dismissed, updatedAt := at) }

  predicate IsObsolete(r: Row, d: nat, cs: seq<Recommendation>) {
    r.deploymentId == d && r.status.Pending? && !Recommends(cs, r.kind)
  }

  /** Pending rows whose condition has cleared are dismissed. */
  function Dismiss(rows: seq<Row>, d: nat, cs: seq<Recommendation>, at: int): (r: seq<Row>)
    ensures |r| == |rows|
    ensures forall i :: 0 <= i < |rows| ==>
      r[i] == if IsObsolete(rows[i], d, cs) then DismissedRow(rows[i], at) else rows[i]
  {
    if rows == [] then []
    else
      var last := rows[|rows| - 1];
      Dismiss(rows[..|rows| - 1], d, cs, at) + [if IsObsolete(last, d, cs) then DismissedRow(last, at) else last]
  }

  function CountStatus(rows: seq<Row>, status: Status): nat {
    if rows == [] then 0
    else CountStatus(rows[..|rows| - 1], status) + if rows[|rows| - 1].status == status then 1 else 0
  }

  lemma CountSnoc(rows: seq<Row>, r: Row, status: Status)
    ensures CountStatus(rows + [r], status) == CountStatus(rows, status) + if r.status == status then 1 else 0
  {
    assert (rows + [r])[..|rows|] == rows;
  }

  /** A recommendation is applied on the spot when that is enabled for its kind and it
      carries a concrete target. */
  predicate AutoApplies(c: Config, r: Recommendation) {
    c.autoApply && r.kind in c.autoKinds && (r.targetReplicas.Some? || r.targetMemoryMb.Some?)
  }

  function ApplyTo(dep: Deployment, r: Recommendation): Deployment {
    if r.targetReplicas.Some? then dep.(replicas := r.targetReplicas.value)
    else if r.targetMemoryMb.Some? then dep.(memoryLimit := r.targetMemoryMb)
    else dep
  }

  lemma CountNothing()
    ensures CountStatus([], Pending) == 0
  {
  }

  lemma StaleIsPending(r: Row, d: nat, cs: seq<Recommendation>)
    ensures IsObsolete(r, d, cs) ==> r.status.Pending?
  {
  }

  /** New rows for the first n conditions. */
  function NewRows(stored: seq<Row>, c: Config, d: nat, cs: seq<Recommendation>, n: nat, since: int, at: int): seq<Row>
    requires n <= |cs|
  {
    if n == 0 then []
    else
      NewRows(stored, c, d, cs, n - 1, since, at) +
      if Blocked(stored, d, cs[n - 1].kind, since) then []
      else [Row(d, cs[n - 1].kind, if AutoApplies(c, cs[n - 1]) then Applied else Pending, at, at, None)]
  }

  function Tuned(stored: seq<Row>, c: Config, d: nat, dep: Deployment, cs: seq<Recommendation>, n: nat,
                 since: int): Deployment
    requires n <= |cs|
  {
    if n == 0 then dep
    else
      var before := Tuned(stored, c, d, dep, cs, n - 1, since);
      if Blocked(stored, d, cs[n - 1].kind, since) || !AutoApplies(c, cs[n - 1]) then before
      else ApplyTo(before, cs[n - 1])
  }

  predicate AnyDecrease(cs: seq<Recommendation>) {
    exists i :: 0 <= i < |cs| && cs[i].direction.Decrease?
  }

  /** A decrease also suggests saving cost, estimated from the latest month when known. */
  function CostRows(stored: seq<Row>, c: Config, d: nat, cs: seq<Recommendation>, latestMonth: Option<real>,
                    since: int, at: int): seq<Row> {
    if !AnyDecrease(cs) || Blocked(stored, d, OptimizeCost, since) then []
    else [Row(d, OptimizeCost, Pending, at, at,
              if latestMonth.None? then None else Some(Round(latestMonth.value * c.savingsFraction, 100)))]
  }

  lemma CostIsPending(stored: seq<Row>, c: Config, d: nat, cs: seq<Recommendation>, latestMonth: Option<real>,
                      since: int, at: int, added: seq<Row>)
    ensures CountStatus(added + CostRows(stored, c, d, cs, latestMonth, since, at), Applied) ==
      CountStatus(added, Applied)
  {
    var cost := CostRows(stored, c, d, cs, latestMonth, since, at);
    if cost == [] { assert added + cost == added; } else { CountSnoc(added, cost[0], Applied); }
  }

  predicate Usable(c: Config) {
    c.settings.targetCpu > 0.0 && c.settings.targetMemory > 0.0
  }

  function Conditions(c: Config, dep: Deployment, r: Reading): seq<Recommendation>
    requires Usable(c)
  {
    Advice(c.settings, Blend(r.cpu, r.cpuForecast, c.minConfidence),
           Some(Blend(r.memory, r.memoryForecast, c.minConfidence)), dep.memoryLimit, dep.replicas)
  }

  /** A whole evaluation: it looks at the clock at now and is committed, all at once, at
      instant at. Without recent usage nothing happens. */
  function Evaluated(s: State, c: Config, d: nat, reading: Option<Reading>, now: int, at: int): State
    requires Usable(c)
  {
    if d !in s.deployments || reading.None? then s
    else
      var dep := s.deployments[d];
      var cs := Conditions(c, dep, reading.value);
      var since := now - c.cooldown;
      State(Dismiss(s.rows, d, cs, at) + NewRows(s.rows, c, d, cs, |cs|, since, at) +
              CostRows(s.rows, c, d, cs, reading.value.latestMonth, since, at),
            s.deployments[d := Tuned(s.rows, c, d, dep, cs, |cs|, since)])
  }

  // ----- the same, said of the rows alone

  /** The kind may be recommended anew: every earlier row of it is settled, and longer ago than the
      cooldown. */
  ghost predicate MayRecommend(stored: seq<Row>, d: nat, k: Kind, since: int) {
    forall i :: 0 <= i < |stored| && stored[i].deploymentId == d && stored[i].kind == k ==>
      !stored[i].status.Pending? && stored[i].updatedAt < since
  }

  predicate OnTheSpot(c: Config, r: Recommendation) {
    c.autoApply && r.kind in c.autoKinds && (r.targetReplicas.Some? || r.targetMemoryMb.Some?)
  }

  ghost predicate HasKind(rows: seq<Row>, k: Kind) {
    exists i :: 0 <= i < |rows| && rows[i].kind == k
  }

  /** The rows added for some recommendations: one for each kind among them that may be recommended,
      applied or pending as configured, and no others. */
  ghost predicate RowsAdded(added: seq<Row>, stored: seq<Row>, c: Config, d: nat, cs: seq<Recommendation>, since: int,
                            at: int)
  {
    (forall i, j :: 0 <= i < j < |added| ==> added[i].kind != added[j].kind) &&
    (forall k :: HasKind(added, k) <==> Recommends(cs, k) && MayRecommend(stored, d, k, since)) &&
    (forall i, m :: 0 <= i < |added| && 0 <= m < |cs| && cs[m].kind == added[i].kind ==>
      added[i] == Row(d, cs[m].kind, if OnTheSpot(c, cs[m]) then Applied else Pending, at, at, None))
  }

  /** A recommendation that was applied on the spot. */
  ghost predicate Done(stored: seq<Row>, c: Config, d: nat, r: Recommendation, since: int) {
    OnTheSpot(c, r) && MayRecommend(stored, d, r.kind, since)
  }

  /** The deployment has the targets of what was applied, and otherwise the values it had. */
  ghost predicate TargetsWritten(before: Deployment, after: Deployment, stored: seq<Row>, c: Config, d: nat,
                                 cs: seq<Recommendation>, since: int)
  {
    (forall m :: 0 <= m < |cs| && Done(stored, c, d, cs[m], since) && cs[m].targetReplicas.Some? ==>
      after.replicas == cs[m].targetReplicas.value) &&
    (forall m :: 0 <= m < |cs| && Done(stored, c, d, cs[m], since) && cs[m].targetMemoryMb.Some? ==>
      after.memoryLimit == cs[m].targetMemoryMb) &&
    (after.replicas != before.replicas ==>
      exists m :: 0 <= m < |cs| && Done(stored, c, d, cs[m], since) && cs[m].targetReplicas.Some?) &&
    (after.memoryLimit != before.memoryLimit ==>
      exists m :: 0 <= m < |cs| && Done(stored, c, d, cs[m], since) && cs[m].targetMemoryMb.Some?)
  }

  /** The cost suggestion: made for a decrease, unless one is pending or was settled too recently;
      its savings are the configured share of the latest month, rounded to cents. */
  ghost predicate CostSuggested(cost: seq<Row>, stored: seq<Row>, c: Config, d: nat, cs: seq<Recommendation>,
                                latestMonth: Option<real>, since: int, at: int)
  {
    |cost| <= 1 &&
    (cost != [] <==>
      (exists m :: 0 <= m < |cs| && cs[m].direction.Decrease?) && MayRecommend(stored, d, OptimizeCost, since)) &&
    (cost != [] ==>
      cost[0] == Row(d, OptimizeCost, Pending, at, at, cost[0].savings) &&
      (cost[0].savings.Some? <==> latestMonth.Some?) &&
      (latestMonth.Some? ==> IsRounding(latestMonth.value * c.savingsFraction, 100, cost[0].savings.value)))
  }

  /** A pending row of a kind that is no longer recommended is dismissed, any other row is kept. */
  ghost predicate OldRows(before: seq<Row>, after: seq<Row>, d: nat, cs: seq<Recommendation>, at: int) {
    |before| <= |after| &&
    forall i :: 0 <= i < |before| ==>
      after[i] ==
        if before[i].deploymentId == d && before[i].status.Pending? && !Recommends(cs, before[i].kind)
        then before[i].(status := Dismissed, updatedAt := at) else before[i]
  }

  /** What an evaluation with these recommendations makes of the database. */
  ghost predicate CarriedOut(before: State, after: State, c: Config, d: nat, cs: seq<Recommendation>,
                             latestMonth: Option<real>, since: int, at: int)
  {
    d in before.deployments && d in after.deployments &&
    OldRows(before.rows, after.rows, d, cs, at) &&
    (exists added, cost :: after.rows[|before.rows|..] == added + cost &&
      RowsAdded(added, before.rows, c, d, cs, since, at) &&
      CostSuggested(cost, before.rows, c, d, cs, latestMonth, since, at)) &&
    TargetsWritten(before.deployments[d], after.deployments[d], before.rows, c, d, cs, since) &&
    after.deployments == before.deployments[d := after.deployments[d]]
  }

  lemma BlockedIff(stored: seq<Row>, d: nat, k: Kind, since: int)
    ensures Blocked(stored, d, k, since) <==> !MayRecommend(stored, d, k, since)
  {
    if Blocked(stored, d, k, since) {
      var i :| 0 <= i < |stored| && (IsPending(stored[i], d, k) || IsRecent(stored[i], d, k, since));
    }
    if i :| 0 <= i < |stored| && stored[i].deploymentId == d && stored[i].kind == k &&
            (stored[i].status.Pending? || stored[i].updatedAt >= since) {
      assert IsPending(stored[i], d, k) || IsRecent(stored[i], d, k, since);
    }
  }

  /** No two recommendations are of one kind, or name a target for the same thing. */
  ghost predicate Compatible(cs: seq<Recommendation>) {
    forall i, j :: 0 <= i < j < |cs| ==>
      cs[i].kind != cs[j].kind && !(cs[i].targetReplicas.Some? && cs[j].targetReplicas.Some?) &&
      !(cs[i].targetMemoryMb.Some? && cs[j].targetMemoryMb.Some?)
  }

  ghost predicate OneTarget(cs: seq<Recommendation>) {
    forall i :: 0 <= i < |cs| ==> !(cs[i].targetReplicas.Some? && cs[i].targetMemoryMb.Some?)
  }

  lemma AdviceCompatible(c: Config, dep: Deployment, r: Reading)
    requires Usable(c)
    ensures Compatible(Conditions(c, dep, r)) && OneTarget(Conditions(c, dep, r))
  {
    hide Blend, TargetMemory, DesiredReplicas, OutsideBand, Compatible, OneTarget;
    var cpu, memory := Blend(r.cpu, r.cpuForecast, c.minConfidence), Blend(r.memory, r.memoryForecast, c.minConfidence);
    ThreeCompatible(CpuAdvice(c.settings, cpu, dep.replicas), MemoryAdvice(c.settings, Some(memory), dep.memoryLimit),
                    ScaleAdvice(c.settings, cpu, dep.replicas));
  }

  lemma ThreeCompatible(a: Option<Recommendation>, b: Option<Recommendation>, x: Option<Recommendation>)
    requires a.Some? ==> a.value.kind in {IncreaseCpu, IncreasePods, ReduceCpu, ReducePods} &&
                         a.value.targetReplicas.None? && a.value.targetMemoryMb.None?
    requires b.Some? ==> b.value.kind in {IncreaseMemory, ReduceMemory} && b.value.targetReplicas.None?
    requires x.Some? ==> x.value.kind.ScaleDeployment? && x.value.targetMemoryMb.None?
    ensures Compatible(AsSeq(a) + AsSeq(b) + AsSeq(x)) && OneTarget(AsSeq(a) + AsSeq(b) + AsSeq(x))
  {
    hide Compatible, OneTarget;
    AloneCompatible(a);
    MoreCompatible(AsSeq(a), b);
    MoreCompatible(AsSeq(a) + AsSeq(b), x);
  }

  lemma AloneCompatible(a: Option<Recommendation>)
    requires a.Some? ==> a.value.targetReplicas.None? || a.value.targetMemoryMb.None?
    ensures Compatible(AsSeq(a)) && OneTarget(AsSeq(a))
  {
  }

  lemma MoreCompatible(cs: seq<Recommendation>, r: Option<Recommendation>)
    requires Compatible(cs) && OneTarget(cs)
    requires r.Some? ==> r.value.targetReplicas.None? || r.value.targetMemoryMb.None?
    requires r.Some? ==> forall c :: c in cs ==>
      c.kind != r.value.kind && !(c.targetReplicas.Some? && r.value.targetReplicas.Some?) &&
      !(c.targetMemoryMb.Some? && r.value.targetMemoryMb.Some?)
    ensures Compatible(cs + AsSeq(r)) && OneTarget(cs + AsSeq(r))
  {
    if r.None? { assert cs + AsSeq(r) == cs; }
  }

  lemma {:induction false} NewRowsAdded(stored: seq<Row>, c: Config, d: nat, cs: seq<Recommendation>, n: nat,
                                        since: int, at: int)
    requires n <= |cs| && Compatible(cs)
    ensures RowsAdded(NewRows(stored, c, d, cs, n, since, at), stored, c, d, cs[..n], since, at)
  {
    hide Blocked, MayRecommend, RowsAdded;
    if n == 0 {
      assert cs[..0] == [];
      NothingAdded(stored, c, d, since, at);
    } else {
      var before, r := NewRows(stored, c, d, cs, n - 1, since, at), cs[n - 1];
      NewRowsAdded(stored, c, d, cs, n - 1, since, at);
      BlockedIff(stored, d, r.kind, since);
      assert cs[..n] == cs[..n - 1] + [r];
      assert before + [] == before;
      OneMoreAdded(before, stored, c, d, cs[..n - 1], r, since, at);
    }
  }

  lemma NothingAdded(stored: seq<Row>, c: Config, d: nat, since: int, at: int)
    ensures RowsAdded([], stored, c, d, [], since, at)
  {
  }

  lemma RecommendsSnoc(cs: seq<Recommendation>, r: Recommendation, k: Kind)
    ensures Recommends(cs + [r], k) <==> Recommends(cs, k) || r.kind == k
  {
    if i :| 0 <= i < |cs| && cs[i].kind == k { assert (cs + [r])[i].kind == k; }
    if r.kind == k { assert (cs + [r])[|cs|].kind == k; }
  }

  lemma HasKindSnoc(rows: seq<Row>, r: Row, k: Kind)
    ensures HasKind(rows + [r], k) <==> HasKind(rows, k) || r.kind == k
  {
    if i :| 0 <= i < |rows| && rows[i].kind == k { assert (rows + [r])[i].kind == k; }
    if r.kind == k { assert (rows + [r])[|rows|].kind == k; }
  }

  lemma OneMoreAdded(before: seq<Row>, stored: seq<Row>, c: Config, d: nat, cs: seq<Recommendation>,
                     r: Recommendation, since: int, at: int)
    requires RowsAdded(before, stored, c, d, cs, since, at)
    requires forall i :: 0 <= i < |cs| ==> cs[i].kind != r.kind
    ensures var row := Row(d, r.kind, if OnTheSpot(c, r) then Applied else Pending, at, at, None);
      RowsAdded(if MayRecommend(stored, d, r.kind, since) then before + [row] else before,
                stored, c, d, cs + [r], since, at)
  {
    hide MayRecommend, OnTheSpot;
    var row := Row(d, r.kind, if OnTheSpot(c, r) then Applied else Pending, at, at, None);
    assert !Recommends(cs, r.kind);
    assert !HasKind(before, r.kind);
    forall k ensures Recommends(cs + [r], k) <==> Recommends(cs, k) || r.kind == k { RecommendsSnoc(cs, r, k); }
    forall k ensures HasKind(before + [row], k) <==> HasKind(before, k) || r.kind == k { HasKindSnoc(before, row, k); }
  }

  /** The targets of the first n recommendations have been written. */
  lemma {:induction false} TunedWrites(stored: seq<Row>, c: Config, d: nat, dep: Deployment, cs: seq<Recommendation>,
                                       n: nat, since: int)
    requires n <= |cs| && Compatible(cs) && OneTarget(cs)
    ensures TargetsWritten(dep, Tuned(stored, c, d, dep, cs, n, since), stored, c, d, cs[..n], since)
  {
    hide Blocked, MayRecommend;
    if n > 0 {
      var r := cs[n - 1];
      TunedWrites(stored, c, d, dep, cs, n - 1, since);
      BlockedIff(stored, d, r.kind, since);
      assert cs[..n] == cs[..n - 1] + [r];
      OneMoreWritten(dep, Tuned(stored, c, d, dep, cs, n - 1, since), stored, c, d, cs[..n - 1], r, since);
    }
  }

  lemma OneMoreWritten(before: Deployment, after: Deployment, stored: seq<Row>, c: Config, d: nat,
                       cs: seq<Recommendation>, r: Recommendation, since: int)
    requires TargetsWritten(before, after, stored, c, d, cs, since)
    requires r.targetReplicas.Some? ==> r.targetMemoryMb.None?
    requires r.targetReplicas.Some? ==> forall i :: 0 <= i < |cs| ==> cs[i].targetReplicas.None?
    requires r.targetMemoryMb.Some? ==> forall i :: 0 <= i < |cs| ==> cs[i].targetMemoryMb.None?
    ensures TargetsWritten(before, if Done(stored, c, d, r, since) then ApplyTo(after, r) else after,
                           stored, c, d, cs + [r], since)
  {
    hide Done;
    var all := cs + [r];
    if m :| 0 <= m < |cs| && Done(stored, c, d, cs[m], since) && cs[m].targetReplicas.Some? {
      assert all[m] == cs[m];
    }
    if m :| 0 <= m < |cs| && Done(stored, c, d, cs[m], since) && cs[m].targetMemoryMb.Some? {
      assert all[m] == cs[m];
    }
    assert all[|cs|] == r;
  }

  lemma CostRowsSuggested(stored: seq<Row>, c: Config, d: nat, cs: seq<Recommendation>, latestMonth: Option<real>,
                          since: int, at: int)
    ensures CostSuggested(CostRows(stored, c, d, cs, latestMonth, since, at), stored, c, d, cs, latestMonth, since, at)
  {
    hide Blocked, MayRecommend, Round, IsRounding;
    BlockedIff(stored, d, OptimizeCost, since);
  }

  lemma EvaluationCarriesOut(s: State, c: Config, d: nat, r: Reading, now: int, at: int)
    requires Usable(c) && d in s.deployments
    ensures CarriedOut(s, Evaluated(s, c, d, Some(r), now, at), c, d, Conditions(c, s.deployments[d], r),
                       r.latestMonth, now - c.cooldown, at)
  {
    hide Conditions, NewRows, CostRows, Tuned, Dismiss, CarriedOut, Compatible, OneTarget;
    hide RowsAdded, CostSuggested, TargetsWritten;
    var dep, cs, since := s.deployments[d], Conditions(c, s.deployments[d], r), now - c.cooldown;
    AdviceCompatible(c, dep, r);
    NewRowsAdded(s.rows, c, d, cs, |cs|, since, at);
    TunedWrites(s.rows, c, d, dep, cs, |cs|, since);
    CostRowsSuggested(s.rows, c, d, cs, r.latestMonth, since, at);
    assert cs[..|cs|] == cs;
    Together(s, c, d, cs, r.latestMonth, since, at, NewRows(s.rows, c, d, cs, |cs|, since, at),
             CostRows(s.rows, c, d, cs, r.latestMonth, since, at), Tuned(s.rows, c, d, dep, cs, |cs|, since));
  }

  lemma Together(s: State, c: Config, d: nat, cs: seq<Recommendation>, latestMonth: Option<real>, since: int, at: int,
                 added: seq<Row>, cost: seq<Row>, dep: Deployment)
    requires d in s.deployments
    requires RowsAdded(added, s.rows, c, d, cs, since, at)
    requires CostSuggested(cost, s.rows, c, d, cs, latestMonth, since, at)
    requires TargetsWritten(s.deployments[d], dep, s.rows, c, d, cs, since)
    ensures CarriedOut(s, State(Dismiss(s.rows, d, cs, at) + added + cost, s.deployments[d := dep]), c, d, cs,
                       latestMonth, since, at)
  {
    hide RowsAdded, CostSuggested, TargetsWritten, Recommends, AnyDecrease;
    SplitRows(Dismiss(s.rows, d, cs, at), added, cost);
  }

  /** Row number i is the evaluation's new row for a kind. */
  ghost predicate NewRowAt(before: State, after: State, i: int, d: nat, k: Kind) {
    |before.rows| <= i < |after.rows| && after.rows[i].deploymentId == d && after.rows[i].kind == k
  }

  /** From the averages and forecasts to the table: a deployment gets a new row of a kind if and only
      if the load to plan for calls for that kind, none is pending, and none was settled within the
      cooldown; never two of one kind. */
  lemma RecommendedAnewIff(s: State, c: Config, d: nat, r: Reading, cpu: real, memory: real, k: Kind, now: int, at: int)
    requires Usable(c) && Sane(c.settings) && SaneMemory(c.settings) && d in s.deployments && !k.OptimizeCost?
    requires ToPlanFor(cpu, r.cpu, r.cpuForecast, c.minConfidence)
    requires ToPlanFor(memory, r.memory, r.memoryForecast, c.minConfidence)
    ensures var after := Evaluated(s, c, d, Some(r), now, at);
      var dep := s.deployments[d];
      ((exists i :: NewRowAt(s, after, i, d, k)) <==>
       CalledFor(c.settings, cpu, Some(memory), dep.memoryLimit, dep.replicas, k) &&
       MayRecommend(s.rows, d, k, now - c.cooldown)) &&
      (forall i, j :: NewRowAt(s, after, i, d, k) && NewRowAt(s, after, j, d, k) ==> i == j)
  {
    hide Evaluated, Conditions, MayRecommend, CarriedOut, RowsAdded, CostSuggested, TargetsWritten, OldRows;
    hide CalledFor, Recommends, HasKind, NewRowAt;
    var after, cs, since := Evaluated(s, c, d, Some(r), now, at), Conditions(c, s.deployments[d], r), now - c.cooldown;
    EvaluationCarriesOut(s, c, d, r, now, at);
    RecommendsIff(c, s.deployments[d], r, cpu, memory, k);
    var added, cost := RowsOfBoth(s, after, c, d, cs, r.latestMonth, since, at, k);
    NewRowsAre(s, after, c, d, cs, since, at, added, cost, k);
  }

  /** The engine recommends a kind exactly when the load to plan for calls for it. */
  lemma RecommendsIff(c: Config, dep: Deployment, r: Reading, cpu: real, memory: real, k: Kind)
    requires Usable(c) && Sane(c.settings) && SaneMemory(c.settings)
    requires ToPlanFor(cpu, r.cpu, r.cpuForecast, c.minConfidence)
    requires ToPlanFor(memory, r.memory, r.memoryForecast, c.minConfidence)
    ensures Recommends(Conditions(c, dep, r), k) <==>
      CalledFor(c.settings, cpu, Some(memory), dep.memoryLimit, dep.replicas, k)
  {
    hide Advice, Blend, ToPlanFor, CalledFor, Recommends, Sane, SaneMemory;
    BlendIsToPlanFor(cpu, r.cpu, r.cpuForecast, c.minConfidence);
    BlendIsToPlanFor(memory, r.memory, r.memoryForecast, c.minConfidence);
    AdviceMeans(c.settings, cpu, Some(memory), dep.memoryLimit, dep.replicas);
  }

  lemma RowsOfBoth(before: State, after: State, c: Config, d: nat, cs: seq<Recommendation>, latestMonth: Option<real>,
                   since: int, at: int, k: Kind)
    returns (added: seq<Row>, cost: seq<Row>)
    requires CarriedOut(before, after, c, d, cs, latestMonth, since, at)
    ensures |before.rows| <= |after.rows| && after.rows[|before.rows|..] == added + cost
    ensures RowsAdded(added, before.rows, c, d, cs, since, at)
    ensures HasKind(added, k) <==> Recommends(cs, k) && MayRecommend(before.rows, d, k, since)
    ensures forall i :: 0 <= i < |cost| ==> cost[i].kind.OptimizeCost?
  {
    hide MayRecommend, TargetsWritten, Recommends, HasKind, OnTheSpot;
    added, cost :| after.rows[|before.rows|..] == added + cost &&
                   RowsAdded(added, before.rows, c, d, cs, since, at) &&
                   CostSuggested(cost, before.rows, c, d, cs, latestMonth, since, at);
  }

  lemma WhoRecommends(cs: seq<Recommendation>, k: Kind)
    requires Recommends(cs, k)
    ensures exists m :: 0 <= m < |cs| && cs[m].kind == k
  {
  }

  lemma NewRowsAre(s: State, after: State, c: Config, d: nat, cs: seq<Recommendation>, since: int, at: int,
                   added: seq<Row>, cost: seq<Row>, k: Kind)
    requires |s.rows| <= |after.rows| && after.rows[|s.rows|..] == added + cost && !k.OptimizeCost?
    requires RowsAdded(added, s.rows, c, d, cs, since, at)
    requires forall i :: 0 <= i < |cost| ==> cost[i].kind.OptimizeCost?
    ensures (exists i :: NewRowAt(s, after, i, d, k)) <==> HasKind(added, k)
    ensures forall i, j :: NewRowAt(s, after, i, d, k) && NewRowAt(s, after, j, d, k) ==> i == j
  {
    hide MayRecommend, OnTheSpot, Recommends;
    var n := |s.rows|;
    forall i | n <= i < |after.rows| ensures after.rows[i] == (added + cost)[i - n] {
      assert after.rows[n..][i - n] == after.rows[i];
    }
    forall i | 0 <= i < |added| ensures added[i].deploymentId == d {
      assert HasKind(added, added[i].kind);
      WhoRecommends(cs, added[i].kind);
    }
    if i :| 0 <= i < |added| && added[i].kind == k { assert NewRowAt(s, after, n + i, d, k); }
    if i :| NewRowAt(s, after, i, d, k) { assert added[i - n].kind == k; }
  }

  /** A user's action: only pending rows can be actioned, and re-marking one as pending
      changes nothing. */
  function Actioned(s: State, id: nat, to: Status, at: int): State {
    if id >= |s.rows| || !s.rows[id].status.Pending? || to.Pending? then s
    else s.(rows := s.rows[id := s.rows[id].(status := to, updatedAt := at)])
  }

  predicate AnyPending(rows: seq<Row>, d: nat) {
    exists i :: 0 <= i < |rows| && rows[i].deploymentId == d && rows[i].status.Pending?
  }

  /** What the counters of an evaluation report: rows added, old rows that stopped being pending,
      and new rows applied on the spot. */
  ghost predicate Counted(before: seq<Row>, after: seq<Row>, created: nat, dismissed: nat, applied: nat) {
    |after| == |before| + created &&
    CountStatus(after[..|before|], Pending) + dismissed == CountStatus(before, Pending) &&
    CountStatus(after[|before|..], Applied) == applied
  }

  lemma SplitRows(kept: seq<Row>, added: seq<Row>, cost: seq<Row>)
    ensures (kept + added + cost)[..|kept|] == kept && (kept + added + cost)[|kept|..] == added + cost
  {
  }

  // ----- the mutable table

  class RecommendationStore {
    var rows: seq<Row>
    var deployments: map<nat, Deployment>

    ghost function Value(): State
      reads this
    {
      State(rows, deployments)
    }

    method DismissObsolete(d: nat, cs: seq<Recommendation>, at: int) returns (dismissed: nat)
      modifies this`rows
      ensures rows == Dismiss(old(rows), d, cs, at)
      ensures CountStatus(rows, Pending) + dismissed == CountStatus(old(rows), Pending)
    {
      hide CountStatus, IsObsolete;
      dismissed := 0;
      CountNothing();
      for i := 0 to |rows|
        invariant |rows| == |old(rows)|
        invariant rows[..i] == Dismiss(old(rows)[..i], d, cs, at)
        invariant rows[i..] == old(rows)[i..]
        invariant CountStatus(rows[..i], Pending) + dismissed == CountStatus(old(rows)[..i], Pending)
      {
        assert old(rows)[..i + 1][..i] == old(rows)[..i];
        assert rows[i] == rows[i..][0] == old(rows)[i..][0] == old(rows)[i];
        ghost var done := rows[..i];
        if IsObsolete(rows[i], d, cs) {
          rows := rows[i := DismissedRow(rows[i], at)];
          dismissed := dismissed + 1;
        }
        assert rows[..i + 1] == done + [rows[i]];
        assert old(rows)[..i + 1] == old(rows)[..i] + [old(rows)[i]];
        CountSnoc(done, rows[i], Pending);
        CountSnoc(old(rows)[..i], old(rows)[i], Pending);
        StaleIsPending(old(rows)[i], d, cs);
        assert rows[i + 1..] == old(rows)[i..][1..];
      }
      assert rows[..|rows|] == rows && old(rows)[..|rows|] == old(rows);
    }

    /** The create loop; stored is the table as the lookups see it. */
    method CreateRows(stored: seq<Row>, c: Config, d: nat, cs: seq<Recommendation>, since: int, at: int)
      returns (created: seq<Row>, applied: nat)
      requires d in deployments
      modifies this`deployments
      ensures d in deployments && deployments == old(deployments)[d := deployments[d]]
      ensures Compatible(cs) ==> RowsAdded(created, stored, c, d, cs, since, at)
      ensures Compatible(cs) && OneTarget(cs) ==>
        TargetsWritten(old(deployments)[d], deployments[d], stored, c, d, cs, since)
      ensures created == NewRows(stored, c, d, cs, |cs|, since, at)
      ensures applied == CountStatus(created, Applied)
      ensures deployments == old(deployments)[d := Tuned(stored, c, d, old(deployments)[d], cs, |cs|, since)]
    {
      hide RowsAdded, TargetsWritten, Compatible, OneTarget;
      created, applied := [], 0;
      for n := 0 to |cs|
        invariant d in deployments
        invariant created == NewRows(stored, c, d, cs, n, since, at)
        invariant applied == CountStatus(created, Applied)
        invariant deployments == old(deployments)[d := Tuned(stored, c, d, old(deployments)[d], cs, n, since)]
      {
        if !Blocked(stored, d, cs[n].kind, since) {
          var status := Pending;
          if AutoApplies(c, cs[n]) {
            deployments := deployments[d := ApplyTo(deployments[d], cs[n])];
            status := Applied;
            applied := applied + 1;
          }
          ghost var before := created;
          created := created + [Row(d, cs[n].kind, status, at, at, None)];
          assert created[..|before|] == before;
        }
      }
      assert cs[..|cs|] == cs;
      if Compatible(cs) { NewRowsAdded(stored, c, d, cs, |cs|, since, at); }
      if Compatible(cs) && OneTarget(cs) { TunedWrites(stored, c, d, old(deployments)[d], cs, |cs|, since); }
    }

    /** Evaluates one deployment. The session does not flush before the commit, so every
        lookup sees the table as it was when the step began. */
    method EvaluateDeployment(c: Config, d: nat, reading: Option<Reading>, now: int, at: int)
      returns (created: nat, dismissed: nat, applied: nat)
      requires Usable(c) && d in deployments
      modifies this
      ensures reading.None? ==> Value() == old(Value())
      ensures reading.Some? ==>
        CarriedOut(old(Value()), Value(), c, d, Conditions(c, old(deployments)[d], reading.value),
                   reading.value.latestMonth, now - c.cooldown, at)
      ensures Value() == Evaluated(old(Value()), c, d, reading, now, at)
      ensures Counted(old(rows), rows, created, dismissed, applied)
    {
      if reading.None? {
        assert rows[..|rows|] == rows && rows[|rows|..] == [];
        return 0, 0, 0;
      }
      EvaluationCarriesOut(Value(), c, d, reading.value, now, at);
      hide CarriedOut, Conditions;
      created, dismissed, applied := Evaluate(c, d, reading.value, now, at);
    }

    method Evaluate(c: Config, d: nat, r: Reading, now: int, at: int)
      returns (created: nat, dismissed: nat, applied: nat)
      requires Usable(c) && d in deployments
      modifies this
      ensures Value() == Evaluated(old(Value()), c, d, Some(r), now, at)
      ensures Counted(old(rows), rows, created, dismissed, applied)
    {
      hide NewRows, Tuned, Dismiss, CostRows, Advice, Blend, CountStatus;
      var stored, since := rows, now - c.cooldown;
      var cpu := Blend(r.cpu, r.cpuForecast, c.minConfidence);
      var memory := Blend(r.memory, r.memoryForecast, c.minConfidence);
      var cs := Autoscaler.Evaluate(c.settings, cpu, Some(memory), deployments[d].memoryLimit, deployments[d].replicas);
      dismissed := DismissObsolete(d, cs, at);
      var added;
      added, applied := CreateRows(stored, c, d, cs, since, at);
      var cost := CostRows(stored, c, d, cs, r.latestMonth, since, at);
      SplitRows(rows, added, cost);
      CostIsPending(stored, c, d, cs, r.latestMonth, since, at, added);
      rows := rows + added + cost;
      created := |added| + |cost|;
    }

    /** A user applies or dismisses a recommendation of a project they may access. */
    method UpdateStatus(dir: Ownership.Directory, viewer: Ownership.Viewer, id: nat, to: Status, at: int)
      returns (answer: Ownership.Answer)
      modifies this`rows
      ensures answer.NotFound? <==> id >= |old(rows)|
      ensures answer.Forbidden? <==>
        id < |old(rows)| && !viewer.isSuperuser &&
        dir.ownerOf(dir.projectOf(old(rows)[id].deploymentId)) != viewer.id
      ensures answer.Conflict? || answer.Done? ==> (answer.Done? <==> old(rows)[id].status.Pending?)
      ensures answer.Done? && !to.Pending? ==> rows == old(rows)[id := old(rows)[id].(status := to, updatedAt := at)]
      ensures answer.Done? && to.Pending? ==> rows == old(rows)
      ensures Value() == if answer.Done? then Actioned(old(Value()), id, to, at) else old(Value())
    {
      if id >= |rows| { return Ownership.NotFound; }
      if !Ownership.CanAccessProject(dir, dir.projectOf(rows[id].deploymentId), viewer) { return Ownership.Forbidden; }
      if !rows[id].status.Pending? { return Ownership.Conflict; }
      if !to.Pending? {
        rows := rows[id := rows[id].(status := to, updatedAt := at)];
      }
      answer := Ownership.Done;
    }

    /** Mirrors the pending recommendations of a deployment as one alert: afterwards it is
        active exactly when something is pending. */
    method SyncAlert(alerts: AlertEvaluation.AlertStore, w: AlertLifecycle.World, d: nat, now: int)
      returns (notified: nat)
      requires alerts.Valid()
      modifies alerts
      ensures alerts.Valid()
      ensures exists created, resolved {:trigger AlertLifecycle.Result(alerts.Value(), created, resolved, notified)} ::
        AlertLifecycle.Result(alerts.Value(), created, resolved, notified) ==
        AlertLifecycle.Evaluate(old(alerts.Value()), w,
          AlertRuns.SwitchTask(Alerts.OfDeployment(d), AlertRuns.OPTIMIZATION, AnyPending(rows, d)), now)
      ensures var kind := AlertRuns.OPTIMIZATION.alertType;
        AlertLifecycle.FindActive(alerts.rows, Alerts.OfDeployment(d), kind).Some? <==>
        exists i :: 0 <= i < |rows| && rows[i].deploymentId == d && rows[i].status.Pending?
    {
      var pending := AnyPending(rows, d);
      var created, resolved;
      created, resolved, notified :=
        alerts.EvaluateSwitch(w, Alerts.OfDeployment(d), AlertRuns.OPTIMIZATION, pending, now);
      SettledSwitch(alerts.rows, d, pending);
    }
  }

  lemma SettledSwitch(rows: seq<Alerts.Alert>, d: nat, on: bool)
    requires AlertLifecycle.Settled(rows, AlertRuns.SwitchTask(Alerts.OfDeployment(d), AlertRuns.OPTIMIZATION, on))
    ensures AlertLifecycle.FindActive(rows, Alerts.OfDeployment(d), AlertRuns.OPTIMIZATION.alertType).Some? <==> on
  {
    var t := AlertRuns.SwitchTask(Alerts.OfDeployment(d), AlertRuns.OPTIMIZATION, on);
    var found := AlertLifecycle.FindActive(rows, Alerts.OfDeployment(d), AlertRuns.OPTIMIZATION.alertType);
    if found.Some? {
      assert AlertLifecycle.Live(rows[found.value], t.domain);
      assert (rows[found.value].alertType, rows[found.value].severity) in AlertLifecycle.Alerting(rows, t.domain);
    }
    if on {
      assert t.conditions[0] == AlertRuns.OPTIMIZATION;
      var c := AlertRuns.OPTIMIZATION;
      assert (c.alertType, c.severity) in AlertLifecycle.Desired(t.conditions);
      var i :| 0 <= i < |rows| && AlertLifecycle.Live(rows[i], t.domain);
    }
  }

  // ----- the cooldown invariant

  predicate SameKey(a: Row, b: Row) { a.deploymentId == b.deploymentId && a.kind == b.kind }

  /** Of two rows of one deployment and kind, the earlier was resolved, and the later was
      created strictly more than the cooldown after that. */
  ghost predicate Spaced(rows: seq<Row>, cooldown: nat) {
    forall i, j :: 0 <= i < j < |rows| && SameKey(rows[i], rows[j]) ==>
      !rows[i].status.Pending? && rows[j].createdAt > rows[i].updatedAt + cooldown
  }

  ghost predicate Dated(rows: seq<Row>, clock: int) {
    forall i :: 0 <= i < |rows| ==> rows[i].createdAt <= rows[i].updatedAt <= clock
  }

  ghost predicate Kept(rows: seq<Row>, cooldown: nat, clock: int) {
    Spaced(rows, cooldown) && Dated(rows, clock)
  }

  // ----- facts about the conditions and the rows they give rise to

  /** Each kind of target comes with its own kinds of recommendation. */
  ghost predicate TargetsFit(cs: seq<Recommendation>) {
    forall i :: 0 <= i < |cs| ==>
      (cs[i].targetReplicas.Some? <==> cs[i].kind.ScaleDeployment?) &&
      (cs[i].targetMemoryMb.Some? <==> cs[i].kind in {IncreaseMemory, ReduceMemory})
  }

  lemma AdviceKinds(c: Config, dep: Deployment, r: Reading)
    requires Usable(c)
    ensures var cs := Conditions(c, dep, r);
      (forall i, j :: 0 <= i < j < |cs| ==> cs[i].kind != cs[j].kind) &&
      (forall i :: 0 <= i < |cs| ==> !cs[i].kind.OptimizeCost?) && TargetsFit(cs)
  {
  }

  ghost predicate KindsDiffer(cs: seq<Recommendation>) {
    forall i, j :: 0 <= i < j < |cs| ==> cs[i].kind != cs[j].kind
  }

  predicate Among(cs: seq<Recommendation>, n: nat, k: Kind)
    requires n <= |cs|
  {
    exists m :: 0 <= m < n && cs[m].kind == k
  }

  predicate FreshRow(r: Row, stored: seq<Row>, d: nat, since: int, at: int) {
    r.deploymentId == d && r.createdAt == at && r.updatedAt == at && !Blocked(stored, d, r.kind, since)
  }

  ghost predicate Shape(added: seq<Row>, stored: seq<Row>, d: nat, cs: seq<Recommendation>, n: nat, since: int, at: int)
    requires n <= |cs|
  {
    (forall i :: 0 <= i < |added| ==> FreshRow(added[i], stored, d, since, at)) &&
    (forall i :: 0 <= i < |added| ==> Among(cs, n, added[i].kind)) &&
    (forall i, j :: 0 <= i < j < |added| ==> added[i].kind != added[j].kind)
  }

  lemma {:induction false} NewRowsShape(stored: seq<Row>, c: Config, d: nat, cs: seq<Recommendation>, n: nat,
                                        since: int, at: int)
    requires n <= |cs| && KindsDiffer(cs)
    ensures Shape(NewRows(stored, c, d, cs, n, since, at), stored, d, cs, n, since, at)
  {
    if n > 0 {
      var before, k := NewRows(stored, c, d, cs, n - 1, since, at), cs[n - 1].kind;
      NewRowsShape(stored, c, d, cs, n - 1, since, at);
      forall i | 0 <= i < |before| ensures before[i].kind != k && Among(cs, n, before[i].kind) {
        var m :| 0 <= m < n - 1 && cs[m].kind == before[i].kind;
        assert cs[m].kind != k;
      }
      assert Among(cs, n, k);
    }
  }

  /** Rows added by one step: none blocked, no two of one kind. */
  ghost predicate AddedBy(stored: seq<Row>, added: seq<Row>, d: nat, since: int, at: int) {
    (forall i :: 0 <= i < |added| ==> FreshRow(added[i], stored, d, since, at)) &&
    (forall i, j :: 0 <= i < j < |added| ==> added[i].kind != added[j].kind)
  }

  lemma AddedRows(s: State, c: Config, d: nat, r: Reading, now: int, at: int)
    requires Usable(c) && d in s.deployments
    ensures var cs := Conditions(c, s.deployments[d], r);
      var since := now - c.cooldown;
      AddedBy(s.rows, NewRows(s.rows, c, d, cs, |cs|, since, at) +
              CostRows(s.rows, c, d, cs, r.latestMonth, since, at), d, since, at)
  {
    var cs := Conditions(c, s.deployments[d], r);
    AdviceKinds(c, s.deployments[d], r);
    NewRowsShape(s.rows, c, d, cs, |cs|, now - c.cooldown, at);
  }

  lemma AddKeeps(rows: seq<Row>, rows': seq<Row>, added: seq<Row>, cooldown: nat, clock: int, d: nat, now: int, at: int)
    requires Kept(rows, cooldown, clock) && clock <= now <= at
    requires |rows'| == |rows| && AddedBy(rows, added, d, now - cooldown, at)
    requires forall i :: 0 <= i < |rows| ==>
      rows'[i] == rows[i] || (rows[i].status.Pending? && rows'[i] == DismissedRow(rows[i], at))
    ensures Kept(rows' + added, cooldown, at)
  {
  }

  /** One evaluation keeps the cooldown spacing. */
  lemma EvaluationKeeps(s: State, c: Config, d: nat, reading: Option<Reading>, clock: int, now: int, at: int)
    requires Usable(c) && Kept(s.rows, c.cooldown, clock) && clock <= now <= at
    ensures Kept(Evaluated(s, c, d, reading, now, at).rows, c.cooldown, at)
  {
    if d in s.deployments && reading.Some? {
      var cs := Conditions(c, s.deployments[d], reading.value);
      var since := now - c.cooldown;
      var added := NewRows(s.rows, c, d, cs, |cs|, since, at) +
        CostRows(s.rows, c, d, cs, reading.value.latestMonth, since, at);
      AddedRows(s, c, d, reading.value, now, at);
      AddKeeps(s.rows, Dismiss(s.rows, d, cs, at), added, c.cooldown, clock, d, now, at);
      assert Evaluated(s, c, d, reading, now, at).rows == Dismiss(s.rows, d, cs, at) + added;
    }
  }

  lemma ActionKeeps(s: State, cooldown: nat, id: nat, to: Status, clock: int, at: int)
    requires Kept(s.rows, cooldown, clock) && clock <= at
    ensures Kept(Actioned(s, id, to, at).rows, cooldown, at)
  {
  }

  // ----- runs

  datatype Step =
    | Evaluation(d: nat, reading: Option<Reading>, now: int, at: int)
    | Action(id: nat, to: Status, when: int)
    | Edit(d: nat, deployment: Deployment)

  function Apply(s: State, c: Config, step: Step): State
    requires Usable(c)
  {
    match step
    case Evaluation(d, reading, now, at) => Evaluated(s, c, d, reading, now, at)
    case Action(id, to, when) => Actioned(s, id, to, when)
    case Edit(d, dep) => s.(deployments := s.deployments[d := dep])
  }

  function Run(s: State, c: Config, steps: seq<Step>, n: nat): State
    requires Usable(c) && n <= |steps|
  {
    if n == 0 then s else Apply(Run(s, c, steps, n - 1), c, steps[n - 1])
  }

  function After(step: Step, clock: int): int {
    match step
    case Evaluation(_, _, _, at) => at
    case Action(_, _, when) => when
    case Edit(_, _) => clock
  }

  function Clock(start: int, steps: seq<Step>, n: nat): int
    requires n <= |steps|
  {
    if n == 0 then start else After(steps[n - 1], Clock(start, steps, n - 1))
  }

  /** Steps happen one after another: each reads the clock after the previous one committed. */
  ghost predicate InOrder(start: int, steps: seq<Step>) {
    forall i :: 0 <= i < |steps| ==>
      match steps[i]
      case Evaluation(_, _, now, at) => Clock(start, steps, i) <= now <= at
      case Action(_, _, when) => Clock(start, steps, i) <= when
      case Edit(_, _) => true
  }

  /** Over every run of evaluations, user actions and edits: for any two recommendations of
      one deployment and kind, the later is created strictly more than the cooldown after
      the earlier was resolved; in particular at most one is pending. */
  lemma {:induction false} CooldownOverRuns(s: State, c: Config, start: int, steps: seq<Step>, n: nat)
    requires Usable(c) && n <= |steps| && InOrder(start, steps) && Kept(s.rows, c.cooldown, start)
    ensures Kept(Run(s, c, steps, n).rows, c.cooldown, Clock(start, steps, n))
  {
    hide Kept, Evaluated;
    if n > 0 {
      CooldownOverRuns(s, c, start, steps, n - 1);
      var mid := Run(s, c, steps, n - 1);
      var clock := Clock(start, steps, n - 1);
      match steps[n - 1]
      case Evaluation(d, reading, now, at) => EvaluationKeeps(mid, c, d, reading, clock, now, at);
      case Action(id, to, when) => ActionKeeps(mid, c.cooldown, id, to, clock, when);
      case Edit(_, _) =>
    }
  }

  // ----- the rate

  predicate CreatedIn(r: Row, d: nat, k: Kind, from: int, until: int) {
    r.deploymentId == d && r.kind == k && from <= r.createdAt <= until
  }

  function CountCreated(rows: seq<Row>, d: nat, k: Kind, from: int, until: int): nat {
    if rows == [] then 0
    else
      CountCreated(rows[..|rows| - 1], d, k, from, until) +
      if CreatedIn(rows[|rows| - 1], d, k, from, until) then 1 else 0
  }

  /** The last of m creations in a window lies at least (m - 1) cooldowns after its start. */
  lemma {:induction false} LastCreated(rows: seq<Row>, cooldown: nat, clock: int, d: nat, k: Kind, from: int,
                                       until: int)
    returns (last: nat)
    requires Kept(rows, cooldown, clock) && CountCreated(rows, d, k, from, until) > 0
    ensures last < |rows| && CreatedIn(rows[last], d, k, from, until)
    ensures rows[last].createdAt >= from + (CountCreated(rows, d, k, from, until) - 1) * (cooldown + 1)
  {
    var front := rows[..|rows| - 1];
    assert Kept(front, cooldown, clock);
    hide Kept;
    var m := CountCreated(front, d, k, from, until);
    if CreatedIn(rows[|rows| - 1], d, k, from, until) {
      last := |rows| - 1;
      if m > 0 {
        var before := LastCreated(front, cooldown, clock, d, k, from, until);
        SpacedPair(rows, cooldown, clock, before, last);
        OneMore(m, cooldown + 1);
      }
    } else {
      last := LastCreated(front, cooldown, clock, d, k, from, until);
    }
  }

  lemma SpacedPair(rows: seq<Row>, cooldown: nat, clock: int, i: nat, j: nat)
    requires Kept(rows, cooldown, clock) && i < j < |rows| && SameKey(rows[i], rows[j])
    ensures rows[j].createdAt >= rows[i].createdAt + cooldown + 1
  {
  }

  lemma OneMore(m: nat, k: nat)
    ensures m * k == (m - 1) * k + k
  {
  }

  /** Rate limit: m creations of one kind for one deployment need a span of more than
      (m - 1) cooldowns. */
  lemma CreationRate(rows: seq<Row>, cooldown: nat, clock: int, d: nat, k: Kind, from: int, until: int)
    requires Kept(rows, cooldown, clock) && CountCreated(rows, d, k, from, until) > 0
    ensures (CountCreated(rows, d, k, from, until) - 1) * (cooldown + 1) <= until - from
  {
    var last := LastCreated(rows, cooldown, clock, d, k, from, until);
  }

  // ----- auto-apply

  /** What an automatic change can turn. */
  datatype Knob = ReplicaCount | MemoryLimit

  function KnobKinds(knob: Knob): set<Kind> {
    match knob
    case ReplicaCount => {ScaleDeployment}
    case MemoryLimit => {IncreaseMemory, ReduceMemory}
  }

  /** The kinds of recommendation that are configured to turn a knob on the spot. */
  function Writers(c: Config, knob: Knob): set<Kind> {
    if c.autoApply then KnobKinds(knob) * c.autoKinds else {}
  }

  predicate SameKnob(a: Deployment, b: Deployment, knob: Knob) {
    match knob
    case ReplicaCount => a.replicas == b.replicas
    case MemoryLimit => a.memoryLimit == b.memoryLimit
  }

  predicate CreatedAmong(r: Row, d: nat, ks: set<Kind>, from: int, until: int) {
    r.deploymentId == d && r.kind in ks && from <= r.createdAt <= until
  }

  /** Creations of any of several kinds. */
  function CountAmong(rows: seq<Row>, d: nat, ks: set<Kind>, from: int, until: int): nat {
    if rows == [] then 0
    else
      CountAmong(rows[..|rows| - 1], d, ks, from, until) +
      if CreatedAmong(rows[|rows| - 1], d, ks, from, until) then 1 else 0
  }

  lemma {:induction false} AmongOne(rows: seq<Row>, d: nat, ks: set<Kind>, k: Kind, from: int, until: int)
    requires ks <= {k}
    ensures CountAmong(rows, d, ks, from, until) <= CountCreated(rows, d, k, from, until)
  {
    if rows != [] { AmongOne(rows[..|rows| - 1], d, ks, k, from, until); }
  }

  lemma {:induction false} AmongTwo(rows: seq<Row>, d: nat, ks: set<Kind>, k: Kind, l: Kind, from: int, until: int)
    requires ks <= {k, l}
    ensures CountAmong(rows, d, ks, from, until) <=
            CountCreated(rows, d, k, from, until) + CountCreated(rows, d, l, from, until)
  {
    if rows != [] { AmongTwo(rows[..|rows| - 1], d, ks, k, l, from, until); }
  }

  lemma {:induction false} CountAppend(a: seq<Row>, b: seq<Row>, d: nat, ks: set<Kind>, from: int, until: int)
    ensures CountAmong(a + b, d, ks, from, until) ==
            CountAmong(a, d, ks, from, until) + CountAmong(b, d, ks, from, until)
    decreases |b|
  {
    if b == [] {
      assert a + b == a;
    } else {
      assert (a + b)[..|a + b| - 1] == a + b[..|b| - 1];
      CountAppend(a, b[..|b| - 1], d, ks, from, until);
    }
  }

  lemma {:induction false} CountSame(a: seq<Row>, b: seq<Row>, d: nat, ks: set<Kind>, from: int, until: int)
    requires |a| == |b| && forall i :: 0 <= i < |a| ==>
      b[i] == a[i].(status := b[i].status, updatedAt := b[i].updatedAt)
    ensures CountAmong(a, d, ks, from, until) == CountAmong(b, d, ks, from, until)
  {
    if a != [] { CountSame(a[..|a| - 1], b[..|b| - 1], d, ks, from, until); }
  }

  lemma CountHas(rows: seq<Row>, i: nat, d: nat, ks: set<Kind>, from: int, until: int)
    requires i < |rows| && CreatedAmong(rows[i], d, ks, from, until)
    ensures CountAmong(rows, d, ks, from, until) > 0
  {
  }

  /** Whoever turns a knob leaves behind an applied row of a kind that may turn it. */
  lemma {:induction false} ChangeLeavesRow(stored: seq<Row>, c: Config, d: nat, dep: Deployment,
                                           cs: seq<Recommendation>,
                                           n: nat, since: int, at: int, knob: Knob)
    returns (k: Kind)
    requires n <= |cs| && TargetsFit(cs)
    requires !SameKnob(Tuned(stored, c, d, dep, cs, n, since), dep, knob)
    ensures k in Writers(c, knob) && Row(d, k, Applied, at, at, None) in NewRows(stored, c, d, cs, n, since, at)
  {
    if !SameKnob(Tuned(stored, c, d, dep, cs, n - 1, since), dep, knob) {
      k := ChangeLeavesRow(stored, c, d, dep, cs, n - 1, since, at, knob);
    } else {
      k := cs[n - 1].kind;
    }
  }

  /** An evaluation of d, committed within the window, that turned one of d's knobs. */
  predicate Turns(s: State, c: Config, step: Step, d: nat, knob: Knob, from: int, until: int)
    requires Usable(c)
  {
    step.Evaluation? && step.d == d && from <= step.at <= until &&
    d in s.deployments && d in Apply(s, c, step).deployments &&
    !SameKnob(Apply(s, c, step).deployments[d], s.deployments[d], knob)
  }

  function CountTurns(s: State, c: Config, steps: seq<Step>, n: nat, d: nat, knob: Knob, from: int, until: int): nat
    requires Usable(c) && n <= |steps|
  {
    if n == 0 then 0
    else CountTurns(s, c, steps, n - 1, d, knob, from, until) +
         if Turns(Run(s, c, steps, n - 1), c, steps[n - 1], d, knob, from, until) then 1 else 0
  }

  lemma StepCounts(s: State, c: Config, step: Step, d: nat, knob: Knob, from: int, until: int)
    requires Usable(c)
    ensures CountAmong(Apply(s, c, step).rows, d, Writers(c, knob), from, until) >=
            CountAmong(s.rows, d, Writers(c, knob), from, until) +
            if Turns(s, c, step, d, knob, from, until) then 1 else 0
  {
    match step
    case Evaluation(e, reading, now, at) => EvaluationCounts(s, c, e, reading, now, at, d, knob, from, until);
    case Action(id, to, when) => CountSame(s.rows, Actioned(s, id, to, when).rows, d, Writers(c, knob), from, until);
    case Edit(_, _) =>
  }

  lemma EvaluationCounts(s: State, c: Config, e: nat, reading: Option<Reading>, now: int, at: int, d: nat, knob: Knob,
                         from: int, until: int)
    requires Usable(c)
    ensures CountAmong(Evaluated(s, c, e, reading, now, at).rows, d, Writers(c, knob), from, until) >=
            CountAmong(s.rows, d, Writers(c, knob), from, until) +
            if Turns(s, c, Evaluation(e, reading, now, at), d, knob, from, until) then 1 else 0
  {
    if e in s.deployments && reading.Some? {
      var dep, ks := s.deployments[e], Writers(c, knob);
      var cs := Conditions(c, dep, reading.value);
      var since := now - c.cooldown;
      AdviceKinds(c, dep, reading.value);
      hide Conditions, Writers, Dismiss, NewRows, CostRows, Tuned, CountAmong, SameKnob;
      var new' := NewRows(s.rows, c, e, cs, |cs|, since, at);
      var cost := CostRows(s.rows, c, e, cs, reading.value.latestMonth, since, at);
      var old' := Dismiss(s.rows, e, cs, at);
      CountSame(s.rows, old', d, ks, from, until);
      CountAppend(old' + new', cost, d, ks, from, until);
      CountAppend(old', new', d, ks, from, until);
      if Turns(s, c, Evaluation(e, reading, now, at), d, knob, from, until) {
        var k := ChangeLeavesRow(s.rows, c, e, dep, cs, |cs|, since, at, knob);
        var i :| 0 <= i < |new'| && new'[i] == Row(e, k, Applied, at, at, None);
        CountHas(new', i, d, ks, from, until);
      }
    }
  }

  lemma {:induction false} TurnsAreCreations(s: State, c: Config, steps: seq<Step>, n: nat, d: nat, knob: Knob,
                                             from: int, until: int)
    requires Usable(c) && n <= |steps|
    ensures CountTurns(s, c, steps, n, d, knob, from, until) <=
            CountAmong(Run(s, c, steps, n).rows, d, Writers(c, knob), from, until)
  {
    hide Apply, Turns, CountAmong, Writers;
    if n > 0 {
      TurnsAreCreations(s, c, steps, n - 1, d, knob, from, until);
      StepCounts(Run(s, c, steps, n - 1), c, steps[n - 1], d, knob, from, until);
    }
  }

  /** m automatic changes fit into a span only if it is longer than m - 1 cooldowns. */
  predicate RateKept(m: nat, cooldown: nat, from: int, until: int) {
    m > 0 ==> (m - 1) * (cooldown + 1) <= until - from
  }

  lemma FewerFit(rows: seq<Row>, cooldown: nat, clock: int, d: nat, k: Kind, from: int, until: int, m: nat)
    requires Kept(rows, cooldown, clock) && m <= CountCreated(rows, d, k, from, until)
    ensures RateKept(m, cooldown, from, until)
  {
    if m > 0 {
      CreationRate(rows, cooldown, clock, d, k, from, until);
      MulMonotoneInt(m - 1, CountCreated(rows, d, k, from, until) - 1, cooldown + 1);
    }
  }

  lemma MulMonotoneInt(a: int, b: int, k: nat)
    requires a <= b
    ensures a * k <= b * k
  {
  }

  /** A knob that only one kind of recommendation can turn is turned at most once per cooldown:
      however readings, forecasts, user actions and edits interleave. */
  lemma SingleWriterRate(s: State, c: Config, start: int, steps: seq<Step>, d: nat, knob: Knob, k: Kind,
                         from: int, until: int)
    requires Usable(c) && InOrder(start, steps) && Kept(s.rows, c.cooldown, start) && Writers(c, knob) <= {k}
    ensures RateKept(CountTurns(s, c, steps, |steps|, d, knob, from, until), c.cooldown, from, until)
  {
    hide Kept, InOrder, Run, CountTurns, CountAmong, CountCreated, Clock, Writers, RateKept;
    var rows := Run(s, c, steps, |steps|).rows;
    CooldownOverRuns(s, c, start, steps, |steps|);
    TurnsAreCreations(s, c, steps, |steps|, d, knob, from, until);
    AmongOne(rows, d, Writers(c, knob), k, from, until);
    FewerFit(rows, c.cooldown, Clock(start, steps, |steps|), d, k, from, until,
             CountTurns(s, c, steps, |steps|, d, knob, from, until));
  }

  /** Auto-apply cannot thrash the replica count: it changes at most once per cooldown. */
  lemma AutoScalingRate(s: State, c: Config, start: int, steps: seq<Step>, d: nat, from: int, until: int)
    requires Usable(c) && InOrder(start, steps) && Kept(s.rows, c.cooldown, start)
    ensures RateKept(CountTurns(s, c, steps, |steps|, d, ReplicaCount, from, until), c.cooldown, from, until)
  {
    hide Kept, InOrder, Run, CountTurns, RateKept;
    SingleWriterRate(s, c, start, steps, d, ReplicaCount, ScaleDeployment, from, until);
  }

  /** The memory limit is turned by two kinds, each with its own cooldown: m automatic changes need
      a span of more than m/2 - 1 cooldowns, whatever is configured. */
  lemma MemoryChangeRate(s: State, c: Config, start: int, steps: seq<Step>, d: nat, from: int, until: int)
    requires Usable(c) && InOrder(start, steps) && Kept(s.rows, c.cooldown, start) && from <= until
    ensures var m := CountTurns(s, c, steps, |steps|, d, MemoryLimit, from, until);
      (m - 2) * (c.cooldown + 1) <= 2 * (until - from)
  {
    hide Kept, InOrder, Run, CountTurns, CountAmong, CountCreated, Clock, RateKept;
    var rows, clock := Run(s, c, steps, |steps|).rows, Clock(start, steps, |steps|);
    CooldownOverRuns(s, c, start, steps, |steps|);
    TurnsAreCreations(s, c, steps, |steps|, d, MemoryLimit, from, until);
    AmongTwo(rows, d, Writers(c, MemoryLimit), IncreaseMemory, ReduceMemory, from, until);
    var a, b := CountCreated(rows, d, IncreaseMemory, from, until), CountCreated(rows, d, ReduceMemory, from, until);
    FewerFit(rows, c.cooldown, clock, d, IncreaseMemory, from, until, a);
    FewerFit(rows, c.cooldown, clock, d, ReduceMemory, from, until, b);
    TwoRates(CountTurns(s, c, steps, |steps|, d, MemoryLimit, from, until), a, b, c.cooldown, from, until);
  }

  lemma TwoRates(m: nat, a: nat, b: nat, cooldown: nat, from: int, until: int)
    requires from <= until && m <= a + b && RateKept(a, cooldown, from, until) && RateKept(b, cooldown, from, until)
    ensures (m - 2) * (cooldown + 1) <= 2 * (until - from)
  {
    var k := cooldown + 1;
    MulMonotoneInt(m - 2, a + b - 2, k);
    assert (a + b - 2) * k == (a - 1) * k + (b - 1) * k;
    if a == 0 { assert (a - 1) * k <= 0; }
    if b == 0 { assert (b - 1) * k <= 0; }
  }

  // ----- the cost suggestion

  /** A cost suggestion never outlives an evaluation: the engine itself never asks for one, so
      the next run dismisses it - and does not raise another in the same run, because the
      lookups still see it as pending. */
  lemma CostSuggestionLastsOneRun(s: State, c: Config, d: nat, r: Reading, now: int, at: int, i: nat)
    requires Usable(c) && d in s.deployments && i < |s.rows|
    requires IsPending(s.rows[i], d, OptimizeCost)
    ensures var rows := Evaluated(s, c, d, Some(r), now, at).rows;
      rows[i] == DismissedRow(s.rows[i], at) &&
      forall j :: 0 <= j < |rows| ==> !IsPending(rows[j], d, OptimizeCost)
  {
    var cs := Conditions(c, s.deployments[d], r);
    AdviceKinds(c, s.deployments[d], r);
    assert !Recommends(cs, OptimizeCost);
    NewRowsShape(s.rows, c, d, cs, |cs|, now - c.cooldown, at);
    assert Blocked(s.rows, d, OptimizeCost, now - c.cooldown);
    var new' := NewRows(s.rows, c, d, cs, |cs|, now - c.cooldown, at);
    var rows := Evaluated(s, c, d, Some(r), now, at).rows;
    assert rows == Dismiss(s.rows, d, cs, at) + new';
    forall j | 0 <= j < |rows| ensures !IsPending(rows[j], d, OptimizeCost) {
      if j >= |s.rows| { assert FreshRow(new'[j - |s.rows|], s.rows, d, now - c.cooldown, at); }
    }
  }

  // ----- the cooldown is per kind

  /** Automatic changes of the memory limit happen at most once per cooldown in this run. */
  ghost predicate MemoryRateKept(s: State, c: Config, start: int, steps: seq<Step>, d: nat, from: int, until: int)
    requires Usable(c)
  {
    InOrder(start, steps) && Kept(s.rows, c.cooldown, start) ==>
      RateKept(CountTurns(s, c, steps, |steps|, d, MemoryLimit, from, until), c.cooldown, from, until)
  }

  /** Both growing and shrinking the memory limit are applied automatically. */
  predicate BothApplied(c: Config) {
    c.autoApply && IncreaseMemory in c.autoKinds && ReduceMemory in c.autoKinds
  }

  /** CPU exactly at its target, so that memory is all there is to say. */
  function MemoryReading(c: Config, memory: real): Reading { Reading(c.settings.targetCpu, memory, None, None, None) }

  function Limited(rows: seq<Row>, limit: real): State { State(rows, map[0 := Deployment(1, Some(limit))]) }

  /** A whole number of megabytes that as a target is above the upper threshold of a limit of 1 MB. */
  function Peak(c: Config): int
    requires SaneMemory(c.settings)
  {
    Ceil(c.settings.memoryHigh / c.settings.targetMemory) + 1
  }

  function PeakUsage(c: Config): real
    requires SaneMemory(c.settings)
  {
    Peak(c) as real * c.settings.targetMemory / 100.0
  }

  lemma PeakTarget(c: Config)
    requires SaneMemory(c.settings)
    ensures Peak(c) >= 2 && PeakUsage(c) * 100.0 >= c.settings.memoryHigh
    ensures TargetMemory(c.settings, PeakUsage(c)) == Peak(c) as real
    ensures TargetMemory(c.settings, 0.0) == 0.0
  {
    hide TargetMemory, Peak;
    PeakIsHigh(c);
    WholeTarget(c.settings, Peak(c), PeakUsage(c));
    NoUsage(c.settings.targetMemory);
    WholeTarget(c.settings, 0, 0.0);
  }

  lemma NoUsage(t: real)
    ensures 0 as real * t / 100.0 == 0.0
  {
  }

  lemma PeakIsHigh(c: Config)
    requires SaneMemory(c.settings)
    ensures Peak(c) >= 2 && PeakUsage(c) * 100.0 >= c.settings.memoryHigh
  {
    var t, k := c.settings.targetMemory, Peak(c) as real;
    var q := c.settings.memoryHigh / t;
    assert q * t == c.settings.memoryHigh;
    RatioToOne(c.settings.memoryHigh, t);
    TimesAtMost(t, q, k);
    assert PeakUsage(c) * 100.0 == k * t;
  }

  /** Usage of a whole number of megabytes at the target share is a target of that number. */
  lemma WholeTarget(s: Settings, m: int, usage: real)
    requires s.targetMemory > 0.0 && usage == m as real * s.targetMemory / 100.0
    ensures TargetMemory(s, usage) == m as real
  {
    hide TargetMemory;
    var n := TenthsOf(s, usage);
    IdealTimesTarget(s, usage);
    TenTimes(s.targetMemory, IdealTenths(s, usage), m as real, usage);
    assert n == 10 * m;
  }

  lemma TenTimes(t: real, x: real, k: real, usage: real)
    requires t > 0.0 && t * x == usage * 1000.0 && usage == k * t / 100.0
    ensures x == 10.0 * k
  {
    assert t * x == t * (10.0 * k);
  }

  /** One evaluation whose only condition is a memory recommendation. */
  lemma OneMemoryStep(c: Config, rows: seq<Row>, limit: real, memory: real, r: Recommendation, at: int)
    requires Sane(c.settings) && SaneMemory(c.settings) && c.autoApply && r.kind in c.autoKinds
    requires MemoryAdvice(c.settings, Some(memory), Some(limit)) == Some(r)
    requires forall i :: 0 <= i < |rows| ==> rows[i].kind != r.kind && !rows[i].status.Pending?
    ensures var s := Evaluated(Limited(rows, limit), c, 0, Some(MemoryReading(c, memory)), at, at);
      s.deployments == map[0 := Deployment(1, r.targetMemoryMb)] &&
      (r.direction.Increase? ==> s.rows == rows + [Row(0, r.kind, Applied, at, at, None)])
  {
    hide Conditions, Advice, MemoryAdvice, MemoryReading;
    var cs, dep := Conditions(c, Deployment(1, Some(limit)), MemoryReading(c, memory)), Deployment(1, Some(limit));
    OnlyMemory(c, limit, memory, r);
    var since := at - c.cooldown;
    assert !Blocked(rows, 0, r.kind, since);
    assert NewRows(rows, c, 0, cs, 0, since, at) == [];
    assert NewRows(rows, c, 0, cs, 1, since, at) == [Row(0, r.kind, Applied, at, at, None)];
    assert Tuned(rows, c, 0, dep, cs, 0, since) == dep;
    assert Dismiss(rows, 0, cs, at) == rows;
  }

  lemma OnlyMemory(c: Config, limit: real, memory: real, r: Recommendation)
    requires Sane(c.settings) && SaneMemory(c.settings)
    requires MemoryAdvice(c.settings, Some(memory), Some(limit)) == Some(r)
    ensures Conditions(c, Deployment(1, Some(limit)), MemoryReading(c, memory)) == [r]
    ensures r.targetReplicas.None? && r.targetMemoryMb.Some? && MemoryReading(c, memory).latestMonth.None?
    ensures r.kind.IncreaseMemory? || r.kind.ReduceMemory?
  {
    AtTarget(c.settings);
  }

  lemma AtTarget(s: Settings)
    requires Sane(s)
    ensures CpuAdvice(s, s.targetCpu, 1).None? && ScaleAdvice(s, s.targetCpu, 1).None?
  {
  }

  /** A peak of usage at one instant, none at a later one. */
  function PeakAndLull(c: Config, t: int, u: int): seq<Step>
    requires SaneMemory(c.settings)
  {
    [Evaluation(0, Some(MemoryReading(c, PeakUsage(c))), t, t), Evaluation(0, Some(MemoryReading(c, 0.0)), u, u)]
  }

  /** Growing and shrinking memory are different kinds, so the limit can be changed twice at any
      two instants, however close and however long the cooldown. */
  lemma MemoryLimitMayFlip(c: Config, t: int, u: int)
    requires Sane(c.settings) && SaneMemory(c.settings) && BothApplied(c) && t <= u
    ensures CountTurns(Limited([], 1.0), c, PeakAndLull(c, t, u), 2, 0, MemoryLimit, t, u) == 2
  {
    var steps, s0 := PeakAndLull(c, t, u), Limited([], 1.0);
    PeakTarget(c);
    var k := Peak(c) as real;
    var first := Recommendation(IncreaseMemory, Increase, None, Some(k));
    var second := Recommendation(ReduceMemory, Decrease, None, Some(0.0));
    Beyond(c.settings, PeakUsage(c), 1.0, first);
    Beyond(c.settings, 0.0, k, second);
    OneMemoryStep(c, [], 1.0, PeakUsage(c), first, t);
    var row := Row(0, IncreaseMemory, Applied, t, t, None);
    assert [] + [row] == [row];
    OneMemoryStep(c, [row], k, 0.0, second, u);
    hide Evaluated, PeakUsage, Peak;
    var s1 := Apply(s0, c, steps[0]);
    assert s1 == Limited([row], k);
    assert Run(s0, c, steps, 0) == s0 && Run(s0, c, steps, 1) == s1;
    assert Turns(s0, c, steps[0], 0, MemoryLimit, t, u) && Turns(s1, c, steps[1], 0, MemoryLimit, t, u);
    assert CountTurns(s0, c, steps, 0, 0, MemoryLimit, t, u) == 0;
    assert CountTurns(s0, c, steps, 1, 0, MemoryLimit, t, u) == 1;
  }

  lemma Beyond(s: Settings, memory: real, limit: real, r: Recommendation)
    requires SaneMemory(s) && limit > 0.0 && r.targetReplicas.None? && r.targetMemoryMb == Some(TargetMemory(s, memory))
    requires if r.kind.IncreaseMemory? then r.direction.Increase? && memory * 100.0 >= s.memoryHigh * limit
             else r.kind.ReduceMemory? && r.direction.Decrease? && memory == 0.0
    ensures MemoryAdvice(s, Some(memory), Some(limit)) == Some(r)
  {
    hide TargetMemory;
    PercentIs(memory, limit, s.memoryHigh);
  }

  /** The memory limit, too, is changed at most once per cooldown in every run if and only if not
      both of its recommendations are applied automatically. */
  lemma MemoryRateIff(c: Config)
    requires Sane(c.settings) && SaneMemory(c.settings)
    ensures (forall s, start, steps, d, from, until :: MemoryRateKept(s, c, start, steps, d, from, until)) <==>
            !BothApplied(c)
  {
    if BothApplied(c) {
      var start, steps := Limited([], 1.0), PeakAndLull(c, 0, c.cooldown);
      MemoryLimitMayFlip(c, 0, c.cooldown);
      FlipInOrder(c);
      hide CountTurns, PeakAndLull, InOrder;
      assert !MemoryRateKept(start, c, 0, steps, 0, 0, c.cooldown);
    } else {
      var k := if ReduceMemory in c.autoKinds then ReduceMemory else IncreaseMemory;
      assert Writers(c, MemoryLimit) <= {k};
      hide Writers, CountTurns, InOrder, RateKept;
      forall s, start, steps, d, from, until ensures MemoryRateKept(s, c, start, steps, d, from, until) {
        if InOrder(start, steps) && Kept(s.rows, c.cooldown, start) {
          SingleWriterRate(s, c, start, steps, d, MemoryLimit, k, from, until);
        }
      }
    }
  }

  lemma FlipInOrder(c: Config)
    requires SaneMemory(c.settings)
    ensures var steps := PeakAndLull(c, 0, c.cooldown);
      |steps| == 2 && InOrder(0, steps) && Kept([], c.cooldown, 0)
  {
    var steps := PeakAndLull(c, 0, c.cooldown);
    assert Clock(0, steps, 0) == 0 && Clock(0, steps, 1) == 0;
  }
}
