/** From readings to desired alert conditions: tier thresholds, per-account overrides and
    the condition functions of the alert evaluator. Percentages and thresholds are reals. */
module Conditions {
  import opened Common
  import opened AlertTypes

  datatype Severity = Info | Warning | Critical

  datatype Condition = Condition(alertType: AlertType, severity: Severity, threshold: Option<real>)

  datatype Thresholds = Thresholds(warning: real, critical: real, saturated: real)

  /** Platform-wide defaults. */
  datatype Settings = Settings(tiers: Metric -> Thresholds, failureWarning: real, failureCritical: real)

  /** The non-null threshold columns of a cloud account (or, for Cost, of a project). */
  type Overrides = map<(Metric, Tier), real>

  predicate Ordered(th: Thresholds) { th.warning < th.critical < th.saturated }

  function At(th: Thresholds, tier: Tier): real {
    match tier
    case Elevated => th.warning
    case High => th.critical
    case Saturated => th.saturated
  }

  function Lookup(fields: Overrides, key: (Metric, Tier)): Option<real> {
    if key in fields then Some(fields[key]) else None
  }

  function Effective(fields: Overrides, settings: Settings, m: Metric, tier: Tier): real {
    if (m, tier) in fields then fields[(m, tier)] else At(settings.tiers(m), tier)
  }

  function EffectiveThresholds(fields: Overrides, settings: Settings, m: Metric): Thresholds {
    Thresholds(Effective(fields, settings, m, Elevated),
               Effective(fields, settings, m, High),
               Effective(fields, settings, m, Saturated))
  }

  // ----- storing overrides

  const TIERS: seq<Tier> := [Elevated, High, Saturated]

  ghost predicate AllOrdered(fields: Overrides, settings: Settings, metrics: seq<Metric>) {
    forall m :: m in metrics ==> Ordered(EffectiveThresholds(fields, settings, m))
  }

  /** What a partial update asks of one column: absent from the payload means "leave it",
      an explicit null means "back to the default". */
  ghost predicate IsPatched(before: Overrides, payload: map<(Metric, Tier), Option<real>>,
                            metrics: seq<Metric>, after: Overrides)
  {
    forall key {:trigger Lookup(after, key)} ::
      Lookup(after, key) == if key.0 in metrics && key in payload then payload[key] else Lookup(before, key)
  }

  /** A row of stored thresholds: a cloud account's (metrics cpu, memory, disk, network,
      cloud_usage, pod_restart) or a project's (metric cost). */
  class ThresholdRow {
    var fields: Overrides

    constructor ()
      ensures fields == map[]
    {
      fields := map[];
    }

    /** Applies a partial update, then keeps it only if every metric's effective tiers are
        strictly increasing; a rejected update leaves the stored row as it was. */
    method Update(settings: Settings, payload: map<(Metric, Tier), Option<real>>, metrics: seq<Metric>)
      returns (ok: bool)
      modifies this
      ensures ok ==> IsPatched(old(fields), payload, metrics, fields)
      ensures ok ==> AllOrdered(fields, settings, metrics)
      ensures !ok ==> fields == old(fields)
      ensures ok <==> exists patched :: IsPatched(old(fields), payload, metrics, patched) &&
                                        AllOrdered(patched, settings, metrics)
      ensures AllOrdered(old(fields), settings, metrics) ==> AllOrdered(fields, settings, metrics)
    {
      var draft := fields;
      for i := 0 to |metrics|
        invariant IsPatched(fields, payload, metrics[..i], draft)
        invariant fields == old(fields)
      {
        draft := PatchMetric(draft, payload, metrics[i]);
      }
      assert metrics[..|metrics|] == metrics;
      ok := true;
      for i := 0 to |metrics|
        invariant ok <==> forall m :: m in metrics[..i] ==> Ordered(EffectiveThresholds(draft, settings, m))
        invariant fields == old(fields)
      {
        if !Ordered(EffectiveThresholds(draft, settings, metrics[i])) { ok := false; }
      }
      if !ok {
        forall patched | IsPatched(old(fields), payload, metrics, patched)
          ensures !AllOrdered(patched, settings, metrics)
        {
          PatchIsUnique(old(fields), payload, metrics, draft, patched, settings);
        }
        return;
      }
      fields := draft;
    }
  }

  /** Where a tier stands in TIERS. */
  function Position(t: Tier): (k: nat)
    ensures k < |TIERS| && TIERS[k] == t
    ensures forall j :: 0 <= j < |TIERS| && TIERS[j] == t ==> j == k
  {
    match t case Elevated => 0 case High => 1 case Saturated => 2
  }

  function PatchOne(fields: Overrides, payload: map<(Metric, Tier), Option<real>>, m: Metric, tier: Tier)
    : (r: Overrides)
    ensures forall key {:trigger Lookup(r, key)} ::
      Lookup(r, key) ==
        if key.0 == m && key.1 == tier && key in payload then payload[key] else Lookup(fields, key)
  {
    var key := (m, tier);
    if key !in payload then fields
    else match payload[key]
      case Some(v) => fields[key := v]
      case None => fields - {key}
  }

  method PatchMetric(before: Overrides, payload: map<(Metric, Tier), Option<real>>, m: Metric)
    returns (after: Overrides)
    ensures IsPatched(before, payload, [m], after)
  {
    after := before;
    for k := 0 to |TIERS|
      invariant forall key {:trigger Lookup(after, key)} ::
        Lookup(after, key) ==
          if key.0 == m && Position(key.1) < k && key in payload then payload[key] else Lookup(before, key)
    {
      after := PatchOne(after, payload, m, TIERS[k]);
      assert forall t :: Position(t) == k <==> t == TIERS[k];
    }
  }

  lemma PatchIsUnique(before: Overrides, payload: map<(Metric, Tier), Option<real>>, metrics: seq<Metric>,
                      a: Overrides, b: Overrides, settings: Settings)
    requires IsPatched(before, payload, metrics, a) && IsPatched(before, payload, metrics, b)
    ensures AllOrdered(a, settings, metrics) <==> AllOrdered(b, settings, metrics)
  {
    forall key ensures Lookup(a, key) == Lookup(b, key) {}
    forall m: Metric, tier ensures Effective(a, settings, m, tier) == Effective(b, settings, m, tier) {
      assert Lookup(a, (m, tier)) == Lookup(b, (m, tier));
    }
  }

  // ----- tiers

  /** The shared three-way comparison of every tiered metric. */
  function TierFor(value: real, th: Thresholds): Option<Tier> {
    if value >= th.saturated then Some(Saturated)
    else if value >= th.critical then Some(High)
    else if value >= th.warning then Some(Elevated)
    else None
  }

  function Rank(t: Option<Tier>): nat {
    match t
    case None => 0
    case Some(Elevated) => 1
    case Some(High) => 2
    case Some(Saturated) => 3
  }

  function Reached(value: real, th: Thresholds): nat {
    (if th.warning <= value then 1 else 0) + (if th.critical <= value then 1 else 0) +
    (if th.saturated <= value then 1 else 0)
  }

  ghost predicate CanFire(tier: Tier, th: Thresholds) {
    exists v :: TierFor(v, th) == Some(tier)
  }

  /** The ordering rule is exactly what keeps every tier alive: each of the three tiers is
      raised by some value if and only if warning < critical < saturated. */
  lemma EveryTierCanFire(th: Thresholds)
    ensures (forall tier :: CanFire(tier, th)) <==> Ordered(th)
  {
    if Ordered(th) {
      forall tier ensures CanFire(tier, th) {
        assert TierFor(At(th, tier), th) == Some(tier);
      }
    }
    if forall tier :: CanFire(tier, th) {
      assert CanFire(Elevated, th) && CanFire(High, th);
    }
  }

  /** The tier raised is the number of thresholds at or below the value, for every value,
      if and only if the thresholds do not decrease. */
  lemma TierCountsThresholds(th: Thresholds)
    ensures (forall v: real :: Rank(TierFor(v, th)) == Reached(v, th)) <==>
            th.warning <= th.critical <= th.saturated
  {
    if th.critical < th.warning { assert Rank(TierFor(th.critical, th)) != Reached(th.critical, th); }
    if th.saturated < th.critical { assert Rank(TierFor(th.saturated, th)) != Reached(th.saturated, th); }
  }

  /** A higher reading never lowers the tier, whatever the thresholds. */
  lemma TierMonotone(th: Thresholds, v: real, w: real)
    requires v <= w
    ensures Rank(TierFor(v, th)) <= Rank(TierFor(w, th))
  {
  }

  function TierSeverity(tier: Tier): Severity {
    if tier.Elevated? then Warning else Critical
  }

  function TieredCondition(m: Metric, value: real, th: Thresholds): Option<Condition> {
    match TierFor(value, th)
    case None => None
    case Some(tier) => Some(Condition(Tiered(m, tier), TierSeverity(tier), Some(At(th, tier))))
  }

  // ----- one deployment

  datatype Usage = Usage(cpu: real, memoryMb: real, diskMb: real, networkIn: real, networkOut: real)

  datatype Limits = Limits(memoryMb: Option<real>, diskMb: Option<real>, networkKbps: Option<real>)

  /** Everything the evaluator reads about one deployment: the latest usage row, the highest
      pod restart count, the latest anomaly flag and failure probability. */
  datatype DeploymentReading = DeploymentReading(
    overrides: Overrides,
    usage: Option<Usage>,
    limits: Limits,
    maxRestarts: Option<int>,
    anomaly: bool,
    failureProbability: Option<real>)

  /** Usage over limit; skipped when no positive limit is configured. Storage reuses the
      disk thresholds under its own name. */
  function LimitCondition(m: Metric, thresholdsOf: Metric, usage: real, limit: Option<real>,
                          fields: Overrides, settings: Settings): Option<Condition>
  {
    if limit.None? || limit.value <= 0.0 then None
    else TieredCondition(m, usage / limit.value * 100.0, EffectiveThresholds(fields, settings, thresholdsOf))
  }

  /** One candidate percentage of the cloud-usage aggregate: any non-zero limit counts. */
  function Candidate(usage: real, limit: Option<real>): seq<real> {
    if limit.None? || limit.value == 0.0 then [] else [usage / limit.value * 100.0]
  }

  function ExtraCandidates(u: Usage, l: Limits): seq<real> {
    Candidate(u.memoryMb, l.memoryMb) + Candidate(u.diskMb, l.diskMb) +
    Candidate(u.networkIn + u.networkOut, l.networkKbps)
  }

  function Max(s: seq<real>): (m: real)
    requires s != []
    ensures m in s && forall x :: x in s ==> x <= m
  {
    if |s| == 1 then assert s == [s[0]]; s[0]
    else
      assert s == [s[0]] + s[1..];
      var m := Max(s[1..]);
      if m < s[0] then s[0] else m
  }

  function CloudUsageCondition(u: Usage, l: Limits, fields: Overrides, settings: Settings): Option<Condition> {
    if ExtraCandidates(u, l) == [] then None
    else TieredCondition(CloudUsage, Max([u.cpu] + ExtraCandidates(u, l)),
                         EffectiveThresholds(fields, settings, CloudUsage))
  }

  function FailureCondition(p: real, s: Settings): Option<Condition> {
    if p >= s.failureCritical then Some(Condition(FailureRisk, Critical, None))
    else if p >= s.failureWarning then Some(Condition(FailureRisk, Warning, None))
    else None
  }

  function F(m: Metric): AlertType { Tiered(m, Elevated) }

  /** The families a deployment is checked for, in the order the checks run. */
  const DEPLOYMENT_FAMILIES: seq<AlertType> :=
    [F(Cpu), F(Memory), F(Disk), F(Network), F(Storage), F(CloudUsage), F(PodRestart), AnomalyDetected, FailureRisk]

  /** The outcome of check number i of a deployment. */
  function Check(i: nat, r: DeploymentReading, s: Settings): Option<Condition> {
    var fields := r.overrides;
    if i <= 5 && r.usage.None? then None
    else if i == 0 then TieredCondition(Cpu, r.usage.value.cpu, EffectiveThresholds(fields, s, Cpu))
    else if i == 1 then LimitCondition(Memory, Memory, r.usage.value.memoryMb, r.limits.memoryMb, fields, s)
    else if i == 2 then LimitCondition(Disk, Disk, r.usage.value.diskMb, r.limits.diskMb, fields, s)
    else if i == 3 then LimitCondition(Network, Network, r.usage.value.networkIn + r.usage.value.networkOut,
                                       r.limits.networkKbps, fields, s)
    else if i == 4 then LimitCondition(Storage, Disk, r.usage.value.diskMb, r.limits.diskMb, fields, s)
    else if i == 5 then CloudUsageCondition(r.usage.value, r.limits, fields, s)
    else if i == 6 then
      (if r.maxRestarts.None? then None
       else TieredCondition(PodRestart, r.maxRestarts.value as real, EffectiveThresholds(fields, s, PodRestart)))
    else if i == 7 then (if r.anomaly then Some(Condition(AnomalyDetected, Warning, None)) else None)
    else if r.failureProbability.None? then None
    else FailureCondition(r.failureProbability.value, s)
  }

  /** The conditions among the first n checks. */
  function ChecksUpTo(n: nat, r: DeploymentReading, s: Settings): seq<Condition> {
    if n == 0 then [] else ChecksUpTo(n - 1, r, s) + AsSeq(Check(n - 1, r, s))
  }

  /** The ordered list of conditions that currently hold for a deployment. */
  function DesiredConditions(r: DeploymentReading, s: Settings): seq<Condition> {
    ChecksUpTo(|DEPLOYMENT_FAMILIES|, r, s)
  }

  /** Cost tier of a project: its spend this month against its budget. */
  function ProjectCostCondition(budget: Option<real>, spend: real, fields: Overrides, s: Settings): Option<Condition> {
    if budget.None? || budget.value <= 0.0 then None
    else TieredCondition(Cost, spend / budget.value * 100.0, EffectiveThresholds(fields, s, Cost))
  }

  // ----- what the desired lists look like

  /** Severity of the types that always carry the same one; only failure_risk varies. */
  function FixedSeverity(t: AlertType): Option<Severity> {
    match t
    case Tiered(_, tier) => Some(TierSeverity(tier))
    case NodeFailure => Some(Critical)
    case ContainerFailure => Some(Critical)
    case AnomalyDetected => Some(Warning)
    case ResourceOptimization => Some(Warning)
    case NewCloudRegions => Some(Info)
    case FailureRisk => None
  }

  predicate SeverityFits(t: AlertType, severity: Severity) {
    FixedSeverity(t).None? || FixedSeverity(t).value == severity
  }

  /** A condition list an evaluator may act on: no two conditions of one family, severities
      as their types fix them, and never the region notice. */
  ghost predicate Coherent(cs: seq<Condition>) {
    (forall i, j :: 0 <= i < j < |cs| ==> Family(cs[i].alertType) != Family(cs[j].alertType)) &&
    (forall i :: 0 <= i < |cs| ==>
      !cs[i].alertType.NewCloudRegions? && SeverityFits(cs[i].alertType, cs[i].severity))
  }

  lemma CheckFamily(i: nat, r: DeploymentReading, s: Settings)
    requires i < |DEPLOYMENT_FAMILIES| && Check(i, r, s).Some?
    ensures Family(Check(i, r, s).value.alertType) == DEPLOYMENT_FAMILIES[i]
    ensures Coherent([Check(i, r, s).value])
  {
  }

  lemma {:induction false} ChecksCoherent(n: nat, r: DeploymentReading, s: Settings)
    requires n <= |DEPLOYMENT_FAMILIES|
    ensures Coherent(ChecksUpTo(n, r, s))
    ensures forall c :: c in ChecksUpTo(n, r, s) ==> Family(c.alertType) in DEPLOYMENT_FAMILIES[..n]
  {
    if n > 0 {
      ChecksCoherent(n - 1, r, s);
      var before := ChecksUpTo(n - 1, r, s);
      var next := Check(n - 1, r, s);
      assert DEPLOYMENT_FAMILIES[..n] == DEPLOYMENT_FAMILIES[..n - 1] + [DEPLOYMENT_FAMILIES[n - 1]];
      assert DEPLOYMENT_FAMILIES[n - 1] !in DEPLOYMENT_FAMILIES[..n - 1] by { FamiliesDistinct(n - 1); }
      if next.Some? {
        CheckFamily(n - 1, r, s);
        AppendCoherent(before, next.value);
      }
    }
  }

  lemma FamiliesDistinct(n: nat)
    requires n < |DEPLOYMENT_FAMILIES|
    ensures DEPLOYMENT_FAMILIES[n] !in DEPLOYMENT_FAMILIES[..n]
  {
  }

  lemma AppendCoherent(cs: seq<Condition>, c: Condition)
    requires Coherent(cs) && Coherent([c])
    requires forall x :: x in cs ==> Family(x.alertType) != Family(c.alertType)
    ensures Coherent(cs + [c])
  {
  }

  /** No deployment ever desires two tiers of one metric at once. */
  lemma DesiredCoherent(r: DeploymentReading, s: Settings)
    ensures Coherent(DesiredConditions(r, s))
  {
    ChecksCoherent(|DEPLOYMENT_FAMILIES|, r, s);
  }

  // ----- the aggregate tier

  function RankOf(c: Option<Condition>): nat {
    if c.Some? && c.value.alertType.Tiered? then Rank(Some(c.value.alertType.tier)) else 0
  }

  function MaxRank(a: nat, b: nat): nat { if a < b then b else a }

  lemma RankOfTiered(m: Metric, v: real, th: Thresholds)
    ensures RankOf(TieredCondition(m, v, th)) == Rank(TierFor(v, th))
  {
  }

  /** Rank of the largest of several readings is the largest of their ranks. */
  lemma {:induction false} RankOfMax(s: seq<real>, th: Thresholds, bound: nat)
    requires s != []
    ensures Rank(TierFor(Max(s), th)) <= bound <==> forall v :: v in s ==> Rank(TierFor(v, th)) <= bound
  {
  }

  predicate NonNegative(limit: Option<real>) { limit.None? || limit.value >= 0.0 }

  /** Storage has no thresholds of its own: its tier is always the disk tier, under its own name. */
  lemma StorageFollowsDisk(r: DeploymentReading, s: Settings)
    ensures var disk, storage := Check(2, r, s), Check(4, r, s);
      disk.Some? == storage.Some? &&
      (disk.Some? ==> disk.value.alertType == Tiered(Disk, storage.value.alertType.tier) &&
                      storage.value == disk.value.(alertType := Tiered(Storage, disk.value.alertType.tier)))
  {
  }

  lemma {:induction false} FromCheck(n: nat, r: DeploymentReading, s: Settings, c: Condition)
    requires n <= |DEPLOYMENT_FAMILIES|
    ensures c in ChecksUpTo(n, r, s) <==> exists i :: 0 <= i < n && Check(i, r, s) == Some(c)
  {
    hide Check;
    if n > 0 {
      FromCheck(n - 1, r, s, c);
      if Check(n - 1, r, s) == Some(c) { assert AsSeq(Check(n - 1, r, s)) == [c]; }
    }
  }

  /** A desired condition of a family is the outcome of that family's check. */
  lemma CheckOfFamily(k: nat, r: DeploymentReading, s: Settings, c: Condition)
    requires k < |DEPLOYMENT_FAMILIES| && Family(c.alertType) == DEPLOYMENT_FAMILIES[k]
    ensures c in DesiredConditions(r, s) <==> Check(k, r, s) == Some(c)
  {
    hide Check, ChecksUpTo;
    FromCheck(|DEPLOYMENT_FAMILIES|, r, s, c);
    if i :| 0 <= i < |DEPLOYMENT_FAMILIES| && Check(i, r, s) == Some(c) {
      CheckFamily(i, r, s);
      SameFamily(i, k);
    }
  }

  lemma SameFamily(i: nat, k: nat)
    requires i < |DEPLOYMENT_FAMILIES| && k < |DEPLOYMENT_FAMILIES| && DEPLOYMENT_FAMILIES[i] == DEPLOYMENT_FAMILIES[k]
    ensures i == k
  {
  }

  /** The disk and storage conditions with the same tier are desired together. */
  lemma StorageWithDisk(r: DeploymentReading, s: Settings, tier: Tier, severity: Severity, threshold: Option<real>)
    ensures Condition(Tiered(Disk, tier), severity, threshold) in DesiredConditions(r, s) <==>
            Condition(Tiered(Storage, tier), severity, threshold) in DesiredConditions(r, s)
  {
    hide Check, DesiredConditions;
    CheckOfFamily(2, r, s, Condition(Tiered(Disk, tier), severity, threshold));
    CheckOfFamily(4, r, s, Condition(Tiered(Storage, tier), severity, threshold));
    StorageFollowsDisk(r, s);
  }

  /** When the five metrics share their thresholds, the aggregate cloud-usage tier is the
      highest of the CPU, memory, disk and network tiers; it is silent exactly when no
      memory, disk or network limit is configured. */
  lemma CloudUsageIsHighestTier(u: Usage, l: Limits, fields: Overrides, s: Settings)
    requires NonNegative(l.memoryMb) && NonNegative(l.diskMb) && NonNegative(l.networkKbps)
    requires forall m :: m in {Memory, Disk, Network, CloudUsage} ==>
      EffectiveThresholds(fields, s, m) == EffectiveThresholds(fields, s, Cpu)
    ensures var cpu := RankOf(TieredCondition(Cpu, u.cpu, EffectiveThresholds(fields, s, Cpu)));
      var memory := RankOf(LimitCondition(Memory, Memory, u.memoryMb, l.memoryMb, fields, s));
      var disk := RankOf(LimitCondition(Disk, Disk, u.diskMb, l.diskMb, fields, s));
      var network := RankOf(LimitCondition(Network, Network, u.networkIn + u.networkOut, l.networkKbps, fields, s));
      RankOf(CloudUsageCondition(u, l, fields, s)) ==
        if ExtraCandidates(u, l) == [] then 0
        else MaxRank(cpu, MaxRank(memory, MaxRank(disk, network)))
  {
    var th := EffectiveThresholds(fields, s, Cpu);
    CandidateRank(Memory, u.memoryMb, l.memoryMb, fields, s);
    CandidateRank(Disk, u.diskMb, l.diskMb, fields, s);
    CandidateRank(Network, u.networkIn + u.networkOut, l.networkKbps, fields, s);
    RankOfTiered(Cpu, u.cpu, th);
    if ExtraCandidates(u, l) != [] {
      RankOfTiered(CloudUsage, Max([u.cpu] + ExtraCandidates(u, l)), th);
      HighestOf(u.cpu, Candidate(u.memoryMb, l.memoryMb), Candidate(u.diskMb, l.diskMb),
                Candidate(u.networkIn + u.networkOut, l.networkKbps), th);
    }
  }

  /** The rank of an at most one-element list of readings. */
  function RankOfList(c: seq<real>, th: Thresholds): nat {
    if c == [] then 0 else Rank(TierFor(c[0], th))
  }

  lemma ListBelow(a: seq<real>, th: Thresholds, bound: nat)
    requires |a| <= 1
    ensures RankOfList(a, th) <= bound <==> forall x :: x in a ==> Rank(TierFor(x, th)) <= bound
  {
  }

  lemma HighestOf(v: real, a: seq<real>, b: seq<real>, c: seq<real>, th: Thresholds)
    requires |a| <= 1 && |b| <= 1 && |c| <= 1
    ensures Rank(TierFor(Max([v] + (a + b + c)), th)) ==
            MaxRank(Rank(TierFor(v, th)), MaxRank(RankOfList(a, th), MaxRank(RankOfList(b, th), RankOfList(c, th))))
  {
    var all := [v] + (a + b + c);
    var top := MaxRank(Rank(TierFor(v, th)), MaxRank(RankOfList(a, th), MaxRank(RankOfList(b, th), RankOfList(c, th))));
    BelowTogether(v, a, b, c, th, top);
    BelowTogether(v, a, b, c, th, Rank(TierFor(Max(all), th)));
  }

  /** The aggregate's rank and the four components' ranks have the same upper bounds. */
  lemma BelowTogether(v: real, a: seq<real>, b: seq<real>, c: seq<real>, th: Thresholds, bound: nat)
    requires |a| <= 1 && |b| <= 1 && |c| <= 1
    ensures Rank(TierFor(Max([v] + (a + b + c)), th)) <= bound <==>
      Rank(TierFor(v, th)) <= bound && RankOfList(a, th) <= bound &&
      RankOfList(b, th) <= bound && RankOfList(c, th) <= bound
  {
    hide TierFor, RankOfList;
    var all := [v] + (a + b + c);
    RankOfMax(all, th, bound);
    ListBelow(a, th, bound);
    ListBelow(b, th, bound);
    ListBelow(c, th, bound);
    assert forall x :: x in all <==> x == v || x in a || x in b || x in c;
  }

  lemma CandidateRank(m: Metric, usage: real, limit: Option<real>, fields: Overrides, s: Settings)
    requires NonNegative(limit)
    ensures |Candidate(usage, limit)| <= 1
    ensures RankOf(LimitCondition(m, m, usage, limit, fields, s)) ==
            RankOfList(Candidate(usage, limit), EffectiveThresholds(fields, s, m))
  {
  }
}
