/** What is alerting after an evaluation, said of the readings and the thresholds alone. */
module AlertMeaning {
  import opened Common
  import opened AlertTypes
  import opened Conditions
  import opened Alerts
  import opened AlertLifecycle
  import opened AlertTheorems
  import opened AlertRuns

  // ----- readings against thresholds

  /** The threshold that applies to a tier: the scope's own, or the platform's where it has none. */
  function ThresholdFor(own: Overrides, s: Settings, m: Metric, tier: Tier): real {
    if (m, tier) in own then own[(m, tier)]
    else
      match tier
      case Elevated => s.tiers(m).warning
      case High => s.tiers(m).critical
      case Saturated => s.tiers(m).saturated
  }

  predicate Above(a: Tier, b: Tier) {
    if b.Elevated? then !a.Elevated? else b.High? && a.Saturated?
  }

  /** The tier is the highest one whose threshold the reading has reached. */
  ghost predicate HighestReached(reading: real, own: Overrides, s: Settings, m: Metric, tier: Tier) {
    reading >= ThresholdFor(own, s, m, tier) &&
    forall higher :: Above(higher, tier) ==> reading < ThresholdFor(own, s, m, higher)
  }

  /** Usage has reached a percentage of a limit. */
  predicate ShareReached(usage: real, limit: real, percent: real) { usage * 100.0 >= percent * limit }

  /** With a positive limit, the tier is the highest one whose percentage of it is used. */
  ghost predicate HighestShare(usage: real, limit: Option<real>, own: Overrides, s: Settings, m: Metric, tier: Tier) {
    limit.Some? && limit.value > 0.0 && ShareReached(usage, limit.value, ThresholdFor(own, s, m, tier)) &&
    forall higher :: Above(higher, tier) ==> !ShareReached(usage, limit.value, ThresholdFor(own, s, m, higher))
  }

  // ----- the aggregate of CPU, memory, disk and network

  predicate HasLimit(limit: Option<real>) { limit.Some? && limit.value != 0.0 }

  /** The same for any limit that is not zero; the comparison turns around with a negative one. */
  predicate LimitReached(usage: real, limit: Option<real>, percent: real) {
    HasLimit(limit) &&
    if limit.value > 0.0 then ShareReached(usage, limit.value, percent)
    else usage * 100.0 <= percent * limit.value
  }

  predicate AnyReached(u: Usage, l: Limits, percent: real) {
    u.cpu >= percent || LimitReached(u.memoryMb, l.memoryMb, percent) || LimitReached(u.diskMb, l.diskMb, percent) ||
    LimitReached(u.networkIn + u.networkOut, l.networkKbps, percent)
  }

  ghost predicate HighestAny(u: Usage, l: Limits, own: Overrides, s: Settings, tier: Tier) {
    (HasLimit(l.memoryMb) || HasLimit(l.diskMb) || HasLimit(l.networkKbps)) &&
    AnyReached(u, l, ThresholdFor(own, s, CloudUsage, tier)) &&
    forall higher :: Above(higher, tier) ==> !AnyReached(u, l, ThresholdFor(own, s, CloudUsage, higher))
  }

  // ----- what each reading warrants

  /** A metric of a deployment stands at a tier. */
  ghost predicate StandsAt(r: DeploymentReading, s: Settings, m: Metric, tier: Tier) {
    var own := r.overrides;
    match m
    case Cpu => r.usage.Some? && HighestReached(r.usage.value.cpu, own, s, Cpu, tier)
    case Memory => r.usage.Some? && HighestShare(r.usage.value.memoryMb, r.limits.memoryMb, own, s, Memory, tier)
    case Disk => r.usage.Some? && HighestShare(r.usage.value.diskMb, r.limits.diskMb, own, s, Disk, tier)
    case Network =>
      r.usage.Some? &&
      HighestShare(r.usage.value.networkIn + r.usage.value.networkOut, r.limits.networkKbps, own, s, Network, tier)
    case Storage => r.usage.Some? && HighestShare(r.usage.value.diskMb, r.limits.diskMb, own, s, Disk, tier)
    case CloudUsage => r.usage.Some? && HighestAny(r.usage.value, r.limits, own, s, tier)
    case PodRestart => r.maxRestarts.Some? && HighestReached(r.maxRestarts.value as real, own, s, PodRestart, tier)
    case _ => false
  }

  predicate SeverityOfTier(tier: Tier, severity: Severity) {
    severity == if tier.Elevated? then Warning else Critical
  }

  /** A deployment's readings warrant an alert of a type and severity. */
  ghost predicate Warranted(r: DeploymentReading, s: Settings, t: AlertType, severity: Severity) {
    match t
    case Tiered(m, tier) => SeverityOfTier(tier, severity) && StandsAt(r, s, m, tier)
    case AnomalyDetected => r.anomaly && severity.Warning?
    case FailureRisk =>
      r.failureProbability.Some? &&
      (if r.failureProbability.value >= s.failureCritical then severity.Critical?
       else r.failureProbability.value >= s.failureWarning && severity.Warning?)
    case _ => false
  }

  /** The threshold an alert records; storage uses the disk's. */
  function RecordedThreshold(own: Overrides, s: Settings, t: AlertType): Option<real> {
    if t.Tiered? then Some(ThresholdFor(own, s, if t.metric.Storage? then Disk else t.metric, t.tier)) else None
  }

  /** A project's spending this month warrants a cost alert. */
  ghost predicate CostWarranted(r: ProjectReading, s: Settings, t: AlertType, severity: Severity) {
    t.Tiered? && t.metric.Cost? && SeverityOfTier(t.tier, severity) &&
    HighestShare(r.spend, r.budget, r.overrides, s, Cost, t.tier)
  }

  /** A number of failed logins warrants a security alert; users have no thresholds of their own. */
  ghost predicate LoginsWarrant(count: nat, s: Settings, t: AlertType, severity: Severity) {
    t.Tiered? && t.metric.Security? && SeverityOfTier(t.tier, severity) &&
    HighestReached(count as real, map[], s, Security, t.tier)
  }

  /** The latency and error-rate readings warrant a platform alert; a missing one warrants none. */
  ghost predicate HttpWarrants(latency: Option<real>, errorRate: Option<real>, s: Settings, t: AlertType,
                               severity: Severity)
  {
    t.Tiered? && SeverityOfTier(t.tier, severity) &&
    ((t.metric.ApiLatency? && latency.Some? && HighestReached(latency.value, map[], s, ApiLatency, t.tier)) ||
     (t.metric.ErrorRate? && errorRate.Some? && HighestReached(errorRate.value, map[], s, ErrorRate, t.tier)))
  }

  // ----- the conditions say the same

  lemma SameThreshold(own: Overrides, s: Settings, m: Metric, tier: Tier)
    ensures At(EffectiveThresholds(own, s, m), tier) == ThresholdFor(own, s, m, tier)
  {
  }

  lemma TierIff(reading: real, th: Thresholds, tier: Tier)
    ensures TierFor(reading, th) == Some(tier) <==>
      reading >= At(th, tier) && forall higher :: Above(higher, tier) ==> reading < At(th, higher)
  {
    assert Above(Saturated, Elevated) && Above(Saturated, High) && Above(High, Elevated);
  }

  lemma TieredIff(m: Metric, of: Metric, reading: real, own: Overrides, s: Settings, c: Condition)
    ensures TieredCondition(m, reading, EffectiveThresholds(own, s, of)) == Some(c) <==>
      c.alertType.Tiered? && c.alertType.metric == m && SeverityOfTier(c.alertType.tier, c.severity) &&
      HighestReached(reading, own, s, of, c.alertType.tier) &&
      c.threshold == Some(ThresholdFor(own, s, of, c.alertType.tier))
  {
    hide TierFor, At, EffectiveThresholds, ThresholdFor, Above;
    var th := EffectiveThresholds(own, s, of);
    forall tier ensures At(th, tier) == ThresholdFor(own, s, of, tier) { SameThreshold(own, s, of, tier); }
    forall tier ensures TierFor(reading, th) == Some(tier) <==> HighestReached(reading, own, s, of, tier) {
      TierIff(reading, th, tier);
    }
  }

  lemma PercentReached(usage: real, limit: real, percent: real)
    requires limit != 0.0
    ensures limit > 0.0 ==> (usage / limit * 100.0 >= percent <==> usage * 100.0 >= percent * limit)
    ensures limit < 0.0 ==> (usage / limit * 100.0 >= percent <==> usage * 100.0 <= percent * limit)
  {
    var p := usage / limit * 100.0;
    assert p * limit == usage * 100.0;
    if limit > 0.0 { SameSide(p, percent, limit); } else { SameSide(p, percent, -limit); }
  }

  lemma SameSide(p: real, q: real, l: real)
    requires l > 0.0
    ensures p >= q <==> p * l >= q * l
  {
  }

  lemma LimitIff(m: Metric, of: Metric, usage: real, limit: Option<real>, own: Overrides, s: Settings, c: Condition)
    ensures LimitCondition(m, of, usage, limit, own, s) == Some(c) <==>
      c.alertType.Tiered? && c.alertType.metric == m && SeverityOfTier(c.alertType.tier, c.severity) &&
      HighestShare(usage, limit, own, s, of, c.alertType.tier) &&
      c.threshold == Some(ThresholdFor(own, s, of, c.alertType.tier))
  {
    hide TieredCondition, EffectiveThresholds, ThresholdFor, Above;
    if limit.Some? && limit.value > 0.0 {
      TieredIff(m, of, usage / limit.value * 100.0, own, s, c);
      forall tier ensures usage / limit.value * 100.0 >= ThresholdFor(own, s, of, tier) <==>
                          ShareReached(usage, limit.value, ThresholdFor(own, s, of, tier))
      {
        PercentReached(usage, limit.value, ThresholdFor(own, s, of, tier));
      }
    }
  }

  lemma CandidateIs(usage: real, limit: Option<real>, percent: real) returns (share: real)
    ensures Candidate(usage, limit) == if HasLimit(limit) then [share] else []
    ensures LimitReached(usage, limit, percent) <==> HasLimit(limit) && share >= percent
  {
    if HasLimit(limit) {
      share := usage / limit.value * 100.0;
      PercentReached(usage, limit.value, percent);
    } else {
      share := 0.0;
    }
  }

  lemma CandidateReached(usage: real, limit: Option<real>, percent: real)
    ensures (exists x :: x in Candidate(usage, limit) && x >= percent) <==> LimitReached(usage, limit, percent)
    ensures Candidate(usage, limit) == [] <==> !HasLimit(limit)
  {
    hide Candidate, LimitReached, HasLimit;
    var share := CandidateIs(usage, limit, percent);
    if HasLimit(limit) { assert share in Candidate(usage, limit); }
  }

  lemma LargestReached(u: Usage, l: Limits, percent: real)
    ensures Max([u.cpu] + ExtraCandidates(u, l)) >= percent <==> AnyReached(u, l, percent)
  {
    hide Candidate, LimitReached, Max;
    CandidateReached(u.memoryMb, l.memoryMb, percent);
    CandidateReached(u.diskMb, l.diskMb, percent);
    CandidateReached(u.networkIn + u.networkOut, l.networkKbps, percent);
    LargestOf(u.cpu, Candidate(u.memoryMb, l.memoryMb), Candidate(u.diskMb, l.diskMb),
              Candidate(u.networkIn + u.networkOut, l.networkKbps), percent);
  }

  lemma LargestOf(v: real, a: seq<real>, b: seq<real>, c: seq<real>, percent: real)
    ensures Max([v] + (a + b + c)) >= percent <==>
      v >= percent || (exists x :: x in a && x >= percent) || (exists x :: x in b && x >= percent) ||
      (exists x :: x in c && x >= percent)
  {
    hide Max;
    var all := [v] + (a + b + c);
    MaxReached(all, percent);
    if v >= percent { assert v in all; }
    if x :| x in a && x >= percent { assert x in all; }
    if x :| x in b && x >= percent { assert x in all; }
    if x :| x in c && x >= percent { assert x in all; }
    if x :| x in all && x >= percent { assert x == v || x in a || x in b || x in c; }
  }

  lemma MaxReached(all: seq<real>, percent: real)
    requires all != []
    ensures Max(all) >= percent <==> exists x :: x in all && x >= percent
  {
  }

  lemma AggregateIff(u: Usage, l: Limits, own: Overrides, s: Settings, c: Condition)
    ensures CloudUsageCondition(u, l, own, s) == Some(c) <==>
      c.alertType.Tiered? && c.alertType.metric.CloudUsage? && SeverityOfTier(c.alertType.tier, c.severity) &&
      HighestAny(u, l, own, s, c.alertType.tier) &&
      c.threshold == Some(ThresholdFor(own, s, CloudUsage, c.alertType.tier))
  {
    hide TieredCondition, EffectiveThresholds, ThresholdFor, Above, AnyReached, Max, Candidate;
    CandidateReached(u.memoryMb, l.memoryMb, 0.0);
    CandidateReached(u.diskMb, l.diskMb, 0.0);
    CandidateReached(u.networkIn + u.networkOut, l.networkKbps, 0.0);
    var largest := Max([u.cpu] + ExtraCandidates(u, l));
    TieredIff(CloudUsage, CloudUsage, largest, own, s, c);
    forall tier ensures largest >= ThresholdFor(own, s, CloudUsage, tier) <==>
                        AnyReached(u, l, ThresholdFor(own, s, CloudUsage, tier))
    {
      LargestReached(u, l, ThresholdFor(own, s, CloudUsage, tier));
    }
  }

  /** The metric whose tiers check number k of a deployment is about. */
  function MetricOfCheck(k: nat): Metric
    requires k <= 6
  {
    if k == 0 then Cpu else if k == 1 then Memory else if k == 2 then Disk else if k == 3 then Network
    else if k == 4 then Storage else if k == 5 then CloudUsage else PodRestart
  }

  ghost predicate IsWarranted(r: DeploymentReading, s: Settings, c: Condition) {
    Warranted(r, s, c.alertType, c.severity) && c.threshold == RecordedThreshold(r.overrides, s, c.alertType)
  }

  lemma CheckIff(k: nat, r: DeploymentReading, s: Settings, c: Condition)
    requires k <= 8
    ensures k <= 6 ==>
      (Check(k, r, s) == Some(c) <==>
       c.alertType.Tiered? && c.alertType.metric == MetricOfCheck(k) && IsWarranted(r, s, c))
    ensures k == 7 ==> (Check(k, r, s) == Some(c) <==> c.alertType.AnomalyDetected? && IsWarranted(r, s, c))
    ensures k == 8 ==> (Check(k, r, s) == Some(c) <==> c.alertType.FailureRisk? && IsWarranted(r, s, c))
  {
    hide TieredCondition, LimitCondition, CloudUsageCondition, HighestReached, HighestShare, HighestAny, ThresholdFor;
    hide EffectiveThresholds, SeverityOfTier;
    var own, l := r.overrides, r.limits;
    if r.usage.Some? {
      var u := r.usage.value;
      if k == 0 { TieredIff(Cpu, Cpu, u.cpu, own, s, c); }
      if k == 1 { LimitIff(Memory, Memory, u.memoryMb, l.memoryMb, own, s, c); }
      if k == 2 { LimitIff(Disk, Disk, u.diskMb, l.diskMb, own, s, c); }
      if k == 3 { LimitIff(Network, Network, u.networkIn + u.networkOut, l.networkKbps, own, s, c); }
      if k == 4 { LimitIff(Storage, Disk, u.diskMb, l.diskMb, own, s, c); }
      if k == 5 { AggregateIff(u, l, own, s, c); }
    }
    if k == 6 && r.maxRestarts.Some? { TieredIff(PodRestart, PodRestart, r.maxRestarts.value as real, own, s, c); }
  }

  /** The checks together desire exactly what the readings warrant. */
  lemma DesiredIff(r: DeploymentReading, s: Settings, c: Condition)
    ensures c in DesiredConditions(r, s) <==> IsWarranted(r, s, c)
  {
    hide Check, IsWarranted, ChecksUpTo, MetricOfCheck;
    FromCheck(|DEPLOYMENT_FAMILIES|, r, s, c);
    NineChecks();
    if k :| 0 <= k < 9 && Check(k, r, s) == Some(c) { CheckIff(k, r, s, c); }
    if IsWarranted(r, s, c) {
      var k := CheckFor(r, s, c);
      CheckIff(k, r, s, c);
      assert Check(k, r, s) == Some(c);
    }
  }

  lemma NineChecks()
    ensures |DEPLOYMENT_FAMILIES| == 9
  {
  }

  lemma CheckFor(r: DeploymentReading, s: Settings, c: Condition) returns (k: nat)
    requires IsWarranted(r, s, c)
    ensures k <= 8 && (k <= 6 ==> c.alertType.Tiered? && c.alertType.metric == MetricOfCheck(k))
    ensures (k == 7 ==> c.alertType.AnomalyDetected?) && (k == 8 ==> c.alertType.FailureRisk?)
  {
    hide HighestReached, HighestShare, HighestAny;
    var t := c.alertType;
    k := if t.AnomalyDetected? then 7 else if t.FailureRisk? then 8
         else if t.metric.Cpu? then 0 else if t.metric.Memory? then 1 else if t.metric.Disk? then 2
         else if t.metric.Network? then 3 else if t.metric.Storage? then 4 else if t.metric.CloudUsage? then 5 else 6;
  }

  // ----- the table after an evaluation

  /** Some active row of the scope has this type and severity. */
  ghost predicate Shown(rows: seq<Alert>, scope: Scope, t: AlertType, severity: Severity) {
    exists i :: 0 <= i < |rows| && rows[i].status.Active? && InScope(rows[i], scope) &&
                rows[i].alertType == t && rows[i].severity == severity
  }

  lemma ShownIffDesired(rows: seq<Alert>, task: Task, t: AlertType, severity: Severity)
    requires Settled(rows, task) && Covers(task.domain, t)
    ensures Shown(rows, DomainScope(task.domain), t, severity) <==>
            exists c :: c in task.conditions && c.alertType == t && c.severity == severity
  {
    hide Settled;
    AlertingIffDesired(rows, task, t, severity);
    if i :| 0 <= i < |rows| && rows[i].status.Active? && InScope(rows[i], DomainScope(task.domain)) &&
            rows[i].alertType == t && rows[i].severity == severity {
      assert Live(rows[i], task.domain);
    }
  }

  /** The active alerts of a deployment are those that its readings warrant. */
  ghost predicate DeploymentShows(rows: seq<Alert>, d: nat, r: DeploymentReading, s: Settings) {
    forall t, severity :: Shown(rows, OfDeployment(d), t, severity) <==> Warranted(r, s, t, severity)
  }

  ghost predicate ProjectShows(rows: seq<Alert>, p: nat, r: ProjectReading, s: Settings) {
    forall t, severity :: Shown(rows, OfProject(p), t, severity) <==> CostWarranted(r, s, t, severity)
  }

  ghost predicate UserShows(rows: seq<Alert>, u: nat, count: nat, s: Settings) {
    forall t, severity :: Shown(rows, OfUser(u), t, severity) <==> LoginsWarrant(count, s, t, severity)
  }

  ghost predicate HttpShows(rows: seq<Alert>, latency: Option<real>, errorRate: Option<real>, s: Settings) {
    forall t, severity :: IsHttp(t) ==>
      (Shown(rows, PlatformWide, t, severity) <==> HttpWarrants(latency, errorRate, s, t, severity))
  }

  lemma DeploymentMeans(rows: seq<Alert>, d: nat, r: DeploymentReading, s: Settings)
    requires Settled(rows, DeploymentTask(d, r, s))
    ensures DeploymentShows(rows, d, r, s)
  {
    hide Settled, Shown, Warranted, DesiredConditions, RecordedThreshold;
    forall t, severity ensures Shown(rows, OfDeployment(d), t, severity) <==> Warranted(r, s, t, severity) {
      ShownIffDesired(rows, DeploymentTask(d, r, s), t, severity);
      forall c ensures c in DesiredConditions(r, s) <==> IsWarranted(r, s, c) { DesiredIff(r, s, c); }
      var c := Condition(t, severity, RecordedThreshold(r.overrides, s, t));
      assert IsWarranted(r, s, c) <==> Warranted(r, s, t, severity);
    }
  }

  lemma ProjectMeans(rows: seq<Alert>, p: nat, r: ProjectReading, s: Settings)
    requires Settled(rows, ProjectTask(p, r, s))
    ensures ProjectShows(rows, p, r, s)
  {
    hide Settled, Shown, HighestShare, TieredCondition, EffectiveThresholds, ThresholdFor;
    forall t, severity ensures Shown(rows, OfProject(p), t, severity) <==> CostWarranted(r, s, t, severity) {
      ShownIffDesired(rows, ProjectTask(p, r, s), t, severity);
      forall c { CostIff(r, s, c); }
      var c := Condition(t, severity, RecordedThreshold(r.overrides, s, t));
    }
  }

  lemma CostIff(r: ProjectReading, s: Settings, c: Condition)
    ensures ProjectCostCondition(r.budget, r.spend, r.overrides, s) == Some(c) <==>
      CostWarranted(r, s, c.alertType, c.severity) &&
      c.threshold == RecordedThreshold(r.overrides, s, c.alertType)
  {
    hide TieredCondition, EffectiveThresholds, HighestShare, ThresholdFor;
    LimitIff(Cost, Cost, r.spend, r.budget, r.overrides, s, c);
  }

  /** Platform thresholds are those of a scope that has none of its own. */
  lemma PlatformIff(m: Metric, reading: real, s: Settings, c: Condition)
    requires !m.Storage?
    ensures TieredCondition(m, reading, s.tiers(m)) == Some(c) <==>
      c.alertType.Tiered? && c.alertType.metric == m && SeverityOfTier(c.alertType.tier, c.severity) &&
      HighestReached(reading, map[], s, m, c.alertType.tier) &&
      c.threshold == RecordedThreshold(map[], s, Tiered(m, c.alertType.tier))
  {
    hide TieredCondition, HighestReached;
    TieredIff(m, m, reading, map[], s, c);
    assert EffectiveThresholds(map[], s, m) == s.tiers(m);
  }

  lemma UserMeans(rows: seq<Alert>, u: nat, counts: map<nat, nat>, s: Settings)
    requires Settled(rows, SecurityTask(u, counts, s))
    ensures UserShows(rows, u, if u in counts then counts[u] else 0, s)
  {
    hide Settled, Shown, HighestReached, TieredCondition, RecordedThreshold;
    var count := if u in counts then counts[u] else 0;
    forall t, severity ensures Shown(rows, OfUser(u), t, severity) <==> LoginsWarrant(count, s, t, severity) {
      ShownIffDesired(rows, SecurityTask(u, counts, s), t, severity);
      forall c { PlatformIff(Security, count as real, s, c); }
      var c := Condition(t, severity, RecordedThreshold(map[], s, t));
    }
  }

  lemma HttpMeans(rows: seq<Alert>, latency: Option<real>, errorRate: Option<real>, s: Settings)
    requires Settled(rows, HttpTask(latency, errorRate, s))
    ensures HttpShows(rows, latency, errorRate, s)
  {
    hide Settled, Shown, HighestReached, TieredCondition, RecordedThreshold;
    var a, b := ReadingCondition(ApiLatency, latency, s), ReadingCondition(ErrorRate, errorRate, s);
    forall t, severity | IsHttp(t)
      ensures Shown(rows, PlatformWide, t, severity) <==> HttpWarrants(latency, errorRate, s, t, severity)
    {
      ShownIffDesired(rows, HttpTask(latency, errorRate, s), t, severity);
      if latency.Some? { forall c { PlatformIff(ApiLatency, latency.value, s, c); } }
      if errorRate.Some? { forall c { PlatformIff(ErrorRate, errorRate.value, s, c); } }
      EitherOf(a, b);
      var c := Condition(t, severity, RecordedThreshold(map[], s, t));
    }
  }

  lemma EitherOf(a: Option<Condition>, b: Option<Condition>)
    ensures forall c :: c in AsSeq(a) + AsSeq(b) <==> a == Some(c) || b == Some(c)
  {
  }

  /** An on/off alert shows exactly while it is on. */
  lemma SwitchMeans(rows: seq<Alert>, c: Condition, on: bool)
    requires Settled(rows, SwitchTask(PlatformWide, c, on))
    ensures forall severity ::
      Shown(rows, PlatformWide, c.alertType, severity) <==> on && severity == c.severity
  {
    hide Settled, Shown;
    forall severity
      ensures Shown(rows, PlatformWide, c.alertType, severity) <==> on && severity == c.severity
    {
      ShownIffDesired(rows, SwitchTask(PlatformWide, c, on), c.alertType, severity);
      if on { assert c in SwitchTask(PlatformWide, c, on).conditions; }
    }
  }

  // ----- what an evaluation leaves in the rows

  /** Old rows are kept or were active and are resolved now; new rows belong to the scope, were
      triggered now, and record the type, severity and threshold of a condition. */
  ghost predicate Stamped(before: seq<Alert>, after: seq<Alert>, scope: Scope, cs: seq<Condition>, now: int) {
    |before| <= |after| &&
    (forall i :: 0 <= i < |before| ==>
      after[i] == before[i] ||
      (before[i].status.Active? && after[i] == before[i].(status := Resolved, resolvedAt := Some(now)))) &&
    (forall i :: |before| <= i < |after| ==>
      InScope(after[i], scope) && after[i].triggeredAt == now &&
      Condition(after[i].alertType, after[i].severity, after[i].threshold) in cs)
  }

  lemma StampedTransitive(a: seq<Alert>, b: seq<Alert>, c: seq<Alert>, scope: Scope, cs: seq<Condition>, now: int)
    requires Stamped(a, b, scope, cs, now) && Stamped(b, c, scope, cs, now)
    ensures Stamped(a, c, scope, cs, now)
  {
    forall i | |a| <= i < |c|
      ensures InScope(c[i], scope) && c[i].triggeredAt == now &&
              Condition(c[i].alertType, c[i].severity, c[i].threshold) in cs
    {
      if i < |b| { assert c[i] == b[i] || c[i] == b[i].(status := Resolved, resolvedAt := Some(now)); }
    }
  }

  lemma RaiseStamps(db: Db, w: World, scope: Scope, c: Condition, cs: seq<Condition>, bySeverity: bool, now: int)
    requires c in cs
    ensures Stamped(db.rows, Raise(db, w, scope, c, bySeverity, now).db.rows, scope, cs, now)
  {
    hide Sent;
    assert Condition(c.alertType, c.severity, c.threshold) == c;
  }

  lemma {:induction false} RaiseUpToStamps(db: Db, w: World, t: Task, n: nat, now: int)
    requires n <= |t.conditions|
    ensures Stamped(db.rows, RaiseUpTo(db, w, t, n, now).db.rows, DomainScope(t.domain), t.conditions, now)
  {
    if n > 0 {
      hide Raise, Stamped;
      RaiseUpToStamps(db, w, t, n - 1, now);
      var mid := RaiseUpTo(db, w, t, n - 1, now).db;
      RaiseStamps(mid, w, DomainScope(t.domain), t.conditions[n - 1], t.conditions, t.bySeverity, now);
      StampedTransitive(db.rows, mid.rows, RaiseUpTo(db, w, t, n, now).db.rows, DomainScope(t.domain), t.conditions,
                        now);
    }
  }

  lemma EvaluateStamps(db: Db, w: World, t: Task, now: int)
    ensures Stamped(db.rows, Evaluate(db, w, t, now).db.rows, DomainScope(t.domain), t.conditions, now)
  {
    var swept := Db(Swept(db.rows, t.domain, t.conditions, now), db.notes);
    assert Stamped(db.rows, swept.rows, DomainScope(t.domain), t.conditions, now);
    hide Stamped;
    RaiseUpToStamps(swept, w, t, |t.conditions|, now);
    StampedTransitive(db.rows, swept.rows, Evaluate(db, w, t, now).db.rows, DomainScope(t.domain), t.conditions, now);
  }

  /** After a deployment's evaluation its active alerts are exactly those that its readings warrant;
      what was resolved is marked with this moment, and so is what is new, which also records the
      threshold that applied. */
  lemma DeploymentEvaluated(db: Db, w: World, d: nat, r: DeploymentReading, s: Settings, now: int)
    requires Good(db.rows)
    ensures var after := Evaluate(db, w, DeploymentTask(d, r, s), now).db.rows;
      DeploymentShows(after, d, r, s) && |db.rows| <= |after| &&
      (forall i :: 0 <= i < |db.rows| ==>
        after[i] == db.rows[i] ||
        (db.rows[i].status.Active? && after[i] == db.rows[i].(status := Resolved, resolvedAt := Some(now)))) &&
      (forall i :: |db.rows| <= i < |after| ==>
        after[i].deploymentId == Some(d) && after[i].triggeredAt == now &&
        after[i].threshold == RecordedThreshold(r.overrides, s, after[i].alertType))
  {
    var t := DeploymentTask(d, r, s);
    DesiredCoherent(r, s);
    EvaluateSettles(db, w, t, now);
    EvaluateStamps(db, w, t, now);
    hide Evaluate, Settled, DeploymentShows, DesiredConditions, Warranted, RecordedThreshold;
    var after := Evaluate(db, w, t, now).db.rows;
    DeploymentMeans(after, d, r, s);
    forall i | |db.rows| <= i < |after|
      ensures after[i].threshold == RecordedThreshold(r.overrides, s, after[i].alertType)
    {
      DesiredIff(r, s, Condition(after[i].alertType, after[i].severity, after[i].threshold));
    }
  }
}
