/** The rule-based recommendation engine and the autoscaling formula under it. Floats are
    modelled as reals. */
module Autoscaler {
  import opened Common

  datatype Settings = Settings(
    cpuHigh: real, cpuLow: real, memoryHigh: real, memoryLow: real,
    targetCpu: real, band: real, maxReplicas: int, targetMemory: real)

  const DEFAULTS := Settings(85.0, 15.0, 85.0, 15.0, 60.0, 15.0, 10, 70.0)

  /** What every claim below needs of the configuration; the defaults satisfy it. */
  predicate Sane(s: Settings) {
    0.0 <= s.cpuLow && s.cpuLow <= s.targetCpu - s.band && 0.0 < s.band &&
    s.cpuLow <= s.targetCpu / 2.0 &&
    s.targetCpu + s.band <= s.cpuHigh && 0.0 < s.targetCpu && 1 <= s.maxReplicas
  }

  /** What the memory claims need of it. */
  predicate SaneMemory(s: Settings) {
    0.0 <= s.memoryLow < s.targetMemory < s.memoryHigh
  }

  lemma DefaultsAreSane()
    ensures Sane(DEFAULTS) && SaneMemory(DEFAULTS)
  {
  }

  datatype Kind =
    | IncreaseCpu | IncreasePods | ReducePods | ReduceCpu
    | IncreaseMemory | ReduceMemory | ScaleDeployment | OptimizeCost

  datatype Direction = Increase | Decrease

  datatype Recommendation = Recommendation(
    kind: Kind, direction: Direction, targetReplicas: Option<int>, targetMemoryMb: Option<real>)

  function Ceil(x: real): (n: int)
    ensures x <= n as real < x + 1.0
  {
    -((-x).Floor)
  }

  function Clamp(n: int, max: int): int {
    var capped := if n < max then n else max;
    if capped < 1 then 1 else capped
  }

  /** ceil(replicas * utilisation / target), kept within [1, max]. */
  function DesiredReplicas(s: Settings, replicas: int, cpu: real): int
    requires s.targetCpu > 0.0
  {
    Clamp(Ceil(replicas as real * (cpu / s.targetCpu)), s.maxReplicas)
  }

  predicate OutsideBand(s: Settings, cpu: real) {
    cpu > s.targetCpu + s.band || cpu < s.targetCpu - s.band
  }

  // ----- the engine, branch by branch

  function CpuAdvice(s: Settings, cpu: real, replicas: int): Option<Recommendation> {
    if cpu >= s.cpuHigh then
      Some(Recommendation(if replicas >= s.maxReplicas then IncreaseCpu else IncreasePods, Increase, None, None))
    else if cpu <= s.cpuLow then
      Some(Recommendation(if replicas > 1 then ReducePods else ReduceCpu, Decrease, None, None))
    else None
  }

  /** The limit that would bring the present usage to the target utilisation, to one decimal. */
  function TargetMemory(s: Settings, memory: real): real
    requires s.targetMemory > 0.0
  {
    Round(memory / (s.targetMemory / 100.0), 10)
  }

  function MemoryAdvice(s: Settings, memory: Option<real>, limit: Option<real>): Option<Recommendation>
    requires s.targetMemory > 0.0
  {
    if limit.None? || limit.value <= 0.0 || memory.None? then None
    else
      var percent := memory.value / limit.value * 100.0;
      var target := TargetMemory(s, memory.value);
      if percent >= s.memoryHigh then Some(Recommendation(IncreaseMemory, Increase, None, Some(target)))
      else if percent <= s.memoryLow then Some(Recommendation(ReduceMemory, Decrease, None, Some(target)))
      else None
  }

  function ScaleAdvice(s: Settings, cpu: real, replicas: int): Option<Recommendation>
    requires s.targetCpu > 0.0
  {
    if !OutsideBand(s, cpu) || DesiredReplicas(s, replicas, cpu) == replicas then None
    else
      var desired := DesiredReplicas(s, replicas, cpu);
      Some(Recommendation(ScaleDeployment, if desired < replicas then Decrease else Increase, Some(desired), None))
  }

  function Advice(s: Settings, cpu: real, memory: Option<real>, limit: Option<real>, replicas: int): seq<Recommendation>
    requires s.targetCpu > 0.0 && s.targetMemory > 0.0
  {
    AsSeq(CpuAdvice(s, cpu, replicas)) + AsSeq(MemoryAdvice(s, memory, limit)) + AsSeq(ScaleAdvice(s, cpu, replicas))
  }

  /** The engine as it runs: recommendations appended to a list, at most one per concern. */
  method Evaluate(s: Settings, cpu: real, memory: Option<real>, limit: Option<real>, replicas: int)
    returns (conditions: seq<Recommendation>)
    requires s.targetCpu > 0.0 && s.targetMemory > 0.0
    ensures conditions == Advice(s, cpu, memory, limit, replicas)
  {
    conditions := [];
    if cpu >= s.cpuHigh {
      if replicas >= s.maxReplicas {
        conditions := conditions + [Recommendation(IncreaseCpu, Increase, None, None)];
      } else {
        conditions := conditions + [Recommendation(IncreasePods, Increase, None, None)];
      }
    } else if cpu <= s.cpuLow {
      if replicas > 1 {
        conditions := conditions + [Recommendation(ReducePods, Decrease, None, None)];
      } else {
        conditions := conditions + [Recommendation(ReduceCpu, Decrease, None, None)];
      }
    }
    assert conditions == AsSeq(CpuAdvice(s, cpu, replicas));

    ghost var forCpu := conditions;
    if limit.Some? && limit.value > 0.0 && memory.Some? {
      var percent := memory.value / limit.value * 100.0;
      var target := TargetMemory(s, memory.value);
      if percent >= s.memoryHigh {
        conditions := conditions + [Recommendation(IncreaseMemory, Increase, None, Some(target))];
      } else if percent <= s.memoryLow {
        conditions := conditions + [Recommendation(ReduceMemory, Decrease, None, Some(target))];
      }
    }
    assert conditions == forCpu + AsSeq(MemoryAdvice(s, memory, limit));

    if OutsideBand(s, cpu) {
      var desired := DesiredReplicas(s, replicas, cpu);
      if desired != replicas {
        conditions := conditions +
          [Recommendation(ScaleDeployment, if desired < replicas then Decrease else Increase, Some(desired), None)];
      }
    }
  }

  /** An evaluation never gives two recommendations of one kind. */
  lemma KindsDistinct(s: Settings, cpu: real, memory: Option<real>, limit: Option<real>, replicas: int, i: nat, j: nat)
    requires s.targetCpu > 0.0 && s.targetMemory > 0.0
    requires i < j < |Advice(s, cpu, memory, limit, replicas)|
    ensures Advice(s, cpu, memory, limit, replicas)[i].kind != Advice(s, cpu, memory, limit, replicas)[j].kind
  {
  }

  // ----- the fixed point

  /** Utilisation after the same total load is spread over n replicas. */
  function Spread(replicas: int, cpu: real, n: int): real
    requires n >= 1
  {
    replicas as real * cpu / n as real
  }

  lemma CeilOfLoad(s: Settings, replicas: int, cpu: real, n: int)
    requires Sane(s) && n >= 1
    ensures n as real * (Spread(replicas, cpu, n) / s.targetCpu) == replicas as real * (cpu / s.targetCpu)
  {
  }

  /** Applying the target once settles the replica count: with the total load unchanged the
      next evaluation asks for the same count, so it never recommends scaling again. */
  lemma ScalingSettles(s: Settings, replicas: int, cpu: real)
    requires Sane(s)
    ensures var n := DesiredReplicas(s, replicas, cpu);
      n >= 1 && DesiredReplicas(s, n, Spread(replicas, cpu, n)) == n &&
      ScaleAdvice(s, Spread(replicas, cpu, n), n).None?
  {
    var n := DesiredReplicas(s, replicas, cpu);
    CeilOfLoad(s, replicas, cpu, n);
  }

  lemma RatioToOne(x: real, y: real)
    requires y > 0.0
    ensures x >= y <==> x / y >= 1.0
    ensures x <= y <==> x / y <= 1.0
  {
  }

  lemma CeilIsLeast(x: real, n: int)
    ensures Ceil(x) <= n <==> x <= n as real
  {
  }

  lemma FitsIff(s: Settings, replicas: int, cpu: real, n: int)
    requires Sane(s) && n >= 1
    ensures Spread(replicas, cpu, n) <= s.targetCpu <==> Ceil(replicas as real * (cpu / s.targetCpu)) <= n
  {
    CeilOfLoad(s, replicas, cpu, n);
    CeilIsLeast(replicas as real * (cpu / s.targetCpu), n);
    var q := Spread(replicas, cpu, n) / s.targetCpu;
    RatioToOne(Spread(replicas, cpu, n), s.targetCpu);
    RatioToOne(n as real * q, n as real);
    assert n as real * q / n as real == q;
  }

  /** The target is the smallest permitted replica count that brings utilisation down to the
      target, and the maximum when no permitted count does. */
  lemma TargetIsLeast(s: Settings, replicas: int, cpu: real, m: int)
    requires Sane(s) && 1 <= m <= s.maxReplicas
    ensures var n := DesiredReplicas(s, replicas, cpu);
      1 <= n <= s.maxReplicas &&
      (Spread(replicas, cpu, m) <= s.targetCpu ==> n <= m && Spread(replicas, cpu, n) <= s.targetCpu) &&
      (m < n ==> Spread(replicas, cpu, m) > s.targetCpu) &&
      (Spread(replicas, cpu, n) > s.targetCpu ==> n == s.maxReplicas)
  {
    var n := DesiredReplicas(s, replicas, cpu);
    FitsIff(s, replicas, cpu, m);
    FitsIff(s, replicas, cpu, n);
  }

  /** What CPU advice can remain after the target has been applied: never a change of replica
      count. Only the vertical advice is left, exactly when even the maximum count stays hot or
      a single replica is nearly idle. */
  lemma OnlyVerticalAdviceRemains(s: Settings, replicas: int, cpu: real)
    requires Sane(s)
    ensures var n := DesiredReplicas(s, replicas, cpu);
      var load := replicas as real * cpu;
      var next := CpuAdvice(s, Spread(replicas, cpu, n), n);
      (next.Some? ==> next.value.kind.IncreaseCpu? || next.value.kind.ReduceCpu?) &&
      (next.Some? && next.value.kind.IncreaseCpu? <==> load >= s.cpuHigh * s.maxReplicas as real) &&
      (next.Some? && next.value.kind.ReduceCpu? <==> load <= s.cpuLow)
  {
    var n := DesiredReplicas(s, replicas, cpu);
    var load := replicas as real * cpu;
    StillHot(s, replicas, cpu);
    StillIdle(s, replicas, cpu);
  }

  lemma StillHot(s: Settings, replicas: int, cpu: real)
    requires Sane(s)
    ensures var n := DesiredReplicas(s, replicas, cpu);
      n >= 1 &&
      (Spread(replicas, cpu, n) >= s.cpuHigh ==> n == s.maxReplicas) &&
      (Spread(replicas, cpu, n) >= s.cpuHigh <==> replicas as real * cpu >= s.cpuHigh * s.maxReplicas as real)
  {
    var n := DesiredReplicas(s, replicas, cpu);
    var load := replicas as real * cpu;
    TargetIsLeast(s, replicas, cpu, s.maxReplicas);
    HotAtMost(load, Spread(replicas, cpu, n), n, s.maxReplicas, s.cpuHigh);
  }

  lemma HotAtMost(load: real, u: real, n: int, max: int, high: real)
    requires 1 <= n <= max && u == load / n as real && high > 0.0
    requires u >= high ==> n == max
    ensures u >= high <==> load >= high * max as real
  {
  }

  lemma StillIdle(s: Settings, replicas: int, cpu: real)
    requires Sane(s)
    ensures var n := DesiredReplicas(s, replicas, cpu);
      n >= 1 &&
      (Spread(replicas, cpu, n) <= s.cpuLow ==> n == 1) &&
      (Spread(replicas, cpu, n) <= s.cpuLow <==> replicas as real * cpu <= s.cpuLow)
  {
    var n := DesiredReplicas(s, replicas, cpu);
    if n >= 2 {
      TargetIsLeast(s, replicas, cpu, n - 1);
      FewerIsHot(s, replicas, cpu, n);
    } else {
      SpreadCompare(replicas as real * cpu, Spread(replicas, cpu, n), n, s.cpuLow);
    }
  }

  lemma SpreadCompare(load: real, u: real, n: int, bound: real)
    requires n >= 1 && u == load / n as real
    ensures u >= bound <==> load >= bound * n as real
    ensures u <= bound <==> load <= bound * n as real
  {
  }

  /** With two or more replicas at the target count, one fewer would already be too hot, so
      utilisation is above half the target and the load above the idle mark. */
  lemma FewerIsHot(s: Settings, replicas: int, cpu: real, n: int)
    requires Sane(s) && n >= 2
    requires Spread(replicas, cpu, n - 1) > s.targetCpu
    ensures Spread(replicas, cpu, n) > s.targetCpu / 2.0
    ensures replicas as real * cpu > s.cpuLow
  {
    AboveHalf(replicas as real * cpu, s.targetCpu, (n - 1) as real);
    assert n as real == (n - 1) as real + 1.0;
  }

  lemma AboveHalf(load: real, target: real, m: real)
    requires target > 0.0 && m >= 1.0 && load / m > target
    ensures load > target && load / (m + 1.0) > target / 2.0
  {
    var u, v := load / m, load / (m + 1.0);
    assert u * m == load && v * (m + 1.0) == load;
    AtLeastOnce(u, m);
    MoreThanHalf(u, v, m);
  }

  lemma AtLeastOnce(u: real, m: real)
    requires u > 0.0 && m >= 1.0
    ensures u * m >= u
  {
  }

  lemma MoreThanHalf(u: real, v: real, m: real)
    requires u > 0.0 && m >= 1.0 && u * m == v * (m + 1.0)
    ensures v >= u / 2.0
  {
  }

  // ----- what one evaluation means

  /** A count serves the load best: it is the least permitted one that brings CPU down to the
      target, or the maximum when none does. */
  ghost predicate BestCount(s: Settings, cpu: real, replicas: int, n: int) {
    1 <= n <= s.maxReplicas && (Spread(replicas, cpu, n) <= s.targetCpu || n == s.maxReplicas) &&
    forall m :: 1 <= m < n ==> Spread(replicas, cpu, m) > s.targetCpu
  }

  /** What a caller may rely on in one recommendation: the direction is the one its kind names, or
      for scaling the one of the target; a replica target comes with scaling alone, differs from the
      present count and serves the load best; a memory target comes with memory advice alone and
      would bring the usage to the target share, to one decimal. */
  ghost predicate Sound(s: Settings, cpu: real, memory: Option<real>, replicas: int, r: Recommendation) {
    (r.kind in {IncreaseCpu, IncreasePods, IncreaseMemory} ==> r.direction.Increase?) &&
    (r.kind in {ReduceCpu, ReducePods, ReduceMemory} ==> r.direction.Decrease?) &&
    (r.targetReplicas.Some? <==> r.kind.ScaleDeployment?) &&
    (r.targetReplicas.Some? ==>
      BestCount(s, cpu, replicas, r.targetReplicas.value) && r.targetReplicas.value != replicas &&
      (r.direction.Increase? <==> r.targetReplicas.value > replicas)) &&
    (r.targetMemoryMb.Some? <==> r.kind in {IncreaseMemory, ReduceMemory}) &&
    (r.targetMemoryMb.Some? ==>
      s.targetMemory > 0.0 && memory.Some? &&
      IsRounding(memory.value / (s.targetMemory / 100.0), 10, r.targetMemoryMb.value)) &&
    !r.kind.OptimizeCost?
  }

  predicate Recommends(cs: seq<Recommendation>, k: Kind) {
    exists i :: 0 <= i < |cs| && cs[i].kind == k
  }

  /** Memory used beyond its upper or lower share of the limit. */
  predicate MemoryBeyond(memory: Option<real>, limit: Option<real>, share: real, above: bool) {
    memory.Some? && limit.Some? && limit.value > 0.0 &&
    if above then memory.value * 100.0 >= share * limit.value else memory.value * 100.0 <= share * limit.value
  }

  /** When a kind of recommendation is called for: pods are the answer while their number can still
      change in the right direction, the CPU of each of them when it cannot; memory by its share of
      the limit; scaling outside the band, unless the present count already serves the load best. */
  ghost predicate CalledFor(s: Settings, cpu: real, memory: Option<real>, limit: Option<real>, replicas: int, k: Kind)
  {
    match k
    case IncreasePods => cpu >= s.cpuHigh && replicas < s.maxReplicas
    case IncreaseCpu => cpu >= s.cpuHigh && replicas >= s.maxReplicas
    case ReducePods => cpu <= s.cpuLow && replicas > 1
    case ReduceCpu => cpu <= s.cpuLow && replicas <= 1
    case IncreaseMemory => MemoryBeyond(memory, limit, s.memoryHigh, true)
    case ReduceMemory => MemoryBeyond(memory, limit, s.memoryLow, false)
    case ScaleDeployment =>
      (cpu > s.targetCpu + s.band || cpu < s.targetCpu - s.band) && !BestCount(s, cpu, replicas, replicas)
    case OptimizeCost => false
  }

  lemma BestIsDesired(s: Settings, cpu: real, replicas: int, n: int)
    requires Sane(s)
    ensures DesiredReplicas(s, replicas, cpu) == n <==> BestCount(s, cpu, replicas, n)
  {
    hide DesiredReplicas, Spread;
    var best := DesiredReplicas(s, replicas, cpu);
    TargetIsLeast(s, replicas, cpu, s.maxReplicas);
    if best == n {
      forall m | 1 <= m < n ensures Spread(replicas, cpu, m) > s.targetCpu {
        TargetIsLeast(s, replicas, cpu, m);
      }
    } else if BestCount(s, cpu, replicas, n) {
      TargetIsLeast(s, replicas, cpu, n);
    }
  }

  /** One part of the advice is sound and speaks about its own kinds, exactly when they are called for. */
  ghost predicate Part(s: Settings, cpu: real, memory: Option<real>, limit: Option<real>, replicas: int,
                       a: Option<Recommendation>, kinds: set<Kind>)
  {
    (a.Some? ==> Sound(s, cpu, memory, replicas, a.value) && a.value.kind in kinds) &&
    forall k :: k in kinds ==> (a.Some? && a.value.kind == k <==> CalledFor(s, cpu, memory, limit, replicas, k))
  }

  lemma CpuPart(s: Settings, cpu: real, memory: Option<real>, limit: Option<real>, replicas: int)
    requires Sane(s)
    ensures Part(s, cpu, memory, limit, replicas, CpuAdvice(s, cpu, replicas),
                 {IncreaseCpu, IncreasePods, ReduceCpu, ReducePods})
  {
  }

  lemma MemoryPart(s: Settings, cpu: real, memory: Option<real>, limit: Option<real>, replicas: int)
    requires SaneMemory(s)
    ensures Part(s, cpu, memory, limit, replicas, MemoryAdvice(s, memory, limit), {IncreaseMemory, ReduceMemory})
  {
    hide TargetMemory;
    if limit.Some? && limit.value > 0.0 && memory.Some? {
      PercentIs(memory.value, limit.value, s.memoryHigh);
      PercentIs(memory.value, limit.value, s.memoryLow);
      SharesApart(limit.value, s.memoryLow, s.memoryHigh);
      TargetRounds(s, memory.value);
    }
  }

  lemma TargetRounds(s: Settings, memory: real)
    requires s.targetMemory > 0.0
    ensures IsRounding(memory / (s.targetMemory / 100.0), 10, TargetMemory(s, memory))
  {
    hide IsRounding, Round;
  }

  lemma SharesApart(limit: real, low: real, high: real)
    requires limit > 0.0 && low < high
    ensures low * limit < high * limit
  {
  }

  lemma PercentIs(memory: real, limit: real, share: real)
    requires limit > 0.0
    ensures memory / limit * 100.0 >= share <==> memory * 100.0 >= share * limit
    ensures memory / limit * 100.0 <= share <==> memory * 100.0 <= share * limit
  {
    var p := memory / limit * 100.0;
    assert p * limit == memory * 100.0;
  }

  lemma ScalePart(s: Settings, cpu: real, memory: Option<real>, limit: Option<real>, replicas: int)
    requires Sane(s)
    ensures Part(s, cpu, memory, limit, replicas, ScaleAdvice(s, cpu, replicas), {ScaleDeployment})
  {
    hide DesiredReplicas, BestCount;
    BestIsDesired(s, cpu, replicas, replicas);
    BestIsDesired(s, cpu, replicas, DesiredReplicas(s, replicas, cpu));
  }

  lemma ThreeParts(a: Option<Recommendation>, b: Option<Recommendation>, c: Option<Recommendation>, k: Kind)
    ensures Recommends(AsSeq(a) + AsSeq(b) + AsSeq(c), k) <==>
      (a.Some? && a.value.kind == k) || (b.Some? && b.value.kind == k) || (c.Some? && c.value.kind == k)
  {
    var cs := AsSeq(a) + AsSeq(b) + AsSeq(c);
    if a.Some? { assert cs[0] == a.value; }
    if b.Some? { assert cs[|AsSeq(a)|] == b.value; }
    if c.Some? { assert cs[|AsSeq(a) + AsSeq(b)|] == c.value; }
  }

  /** Every recommendation is sound, no two are of one kind, and each kind is recommended exactly when
      it is called for. */
  lemma AdviceMeans(s: Settings, cpu: real, memory: Option<real>, limit: Option<real>, replicas: int)
    requires Sane(s) && SaneMemory(s)
    ensures var cs := Advice(s, cpu, memory, limit, replicas);
      (forall i :: 0 <= i < |cs| ==> Sound(s, cpu, memory, replicas, cs[i])) &&
      (forall i, j :: 0 <= i < j < |cs| ==> cs[i].kind != cs[j].kind) &&
      (forall k :: Recommends(cs, k) <==> CalledFor(s, cpu, memory, limit, replicas, k))
  {
    hide CpuAdvice, MemoryAdvice, ScaleAdvice, Sound, BestCount, MemoryBeyond, Recommends;
    var a, b, c := CpuAdvice(s, cpu, replicas), MemoryAdvice(s, memory, limit), ScaleAdvice(s, cpu, replicas);
    CpuPart(s, cpu, memory, limit, replicas);
    MemoryPart(s, cpu, memory, limit, replicas);
    ScalePart(s, cpu, memory, limit, replicas);
    forall k ensures Recommends(Advice(s, cpu, memory, limit, replicas), k) <==>
                     CalledFor(s, cpu, memory, limit, replicas, k)
    {
      ThreeParts(a, b, c, k);
    }
  }

  // ----- directions

  predicate Contradictory(s: Settings, cpu: real, replicas: int)
    requires s.targetCpu > 0.0
  {
    CpuAdvice(s, cpu, replicas).Some? && ScaleAdvice(s, cpu, replicas).Some? &&
    CpuAdvice(s, cpu, replicas).value.direction != ScaleAdvice(s, cpu, replicas).value.direction
  }

  /** One evaluation advises both growing and shrinking for CPU if and only if a hot
      deployment already exceeds the maximum or an idle one has no replica at all - both of
      which the deployment API accepts. */
  lemma ContradictoryIff(s: Settings, cpu: real, replicas: int)
    requires Sane(s) && replicas >= 0 && cpu >= 0.0
    ensures Contradictory(s, cpu, replicas) <==>
            (cpu >= s.cpuHigh && replicas > s.maxReplicas && cpu > s.targetCpu + s.band) ||
            (cpu <= s.cpuLow && replicas == 0 && cpu < s.targetCpu - s.band)
  {
    WantedBounds(s, replicas, cpu);
    assert DesiredReplicas(s, replicas, cpu) == Clamp(Wanted(s, replicas, cpu), s.maxReplicas);
  }

  function Wanted(s: Settings, replicas: int, cpu: real): int
    requires s.targetCpu > 0.0
  {
    Ceil(replicas as real * (cpu / s.targetCpu))
  }

  /** Before clamping, the formula moves the count towards the reading's side of the target. */
  lemma WantedBounds(s: Settings, replicas: int, cpu: real)
    requires Sane(s) && replicas >= 0
    ensures cpu >= s.targetCpu ==> Wanted(s, replicas, cpu) >= replicas
    ensures cpu <= s.targetCpu ==> Wanted(s, replicas, cpu) <= replicas
  {
    RatioToOne(cpu, s.targetCpu);
    CeilOfProduct(replicas, cpu / s.targetCpu);
  }

  lemma CeilOfProduct(replicas: int, ratio: real)
    requires replicas >= 0
    ensures ratio >= 1.0 ==> Ceil(replicas as real * ratio) >= replicas
    ensures ratio <= 1.0 ==> Ceil(replicas as real * ratio) <= replicas
  {
  }

  // ----- forecast blending

  datatype Forecast = Forecast(value: real, confidence: real)

  /** A forecast replaces the actual average only when it is confident and higher. */
  function Blend(actual: real, forecast: Option<Forecast>, minConfidence: real): real {
    if forecast.None? || forecast.value.confidence < minConfidence || forecast.value.value <= actual then actual
    else forecast.value.value
  }

  /** The load to plan for is the average, or a confident forecast where that is higher. */
  ghost predicate ToPlanFor(x: real, actual: real, forecast: Option<Forecast>, minConfidence: real) {
    var confident := forecast.Some? && forecast.value.confidence >= minConfidence;
    x >= actual && (confident ==> x >= forecast.value.value) &&
    (x == actual || (confident && x == forecast.value.value))
  }

  lemma BlendIsToPlanFor(x: real, actual: real, forecast: Option<Forecast>, minConfidence: real)
    ensures x == Blend(actual, forecast, minConfidence) <==> ToPlanFor(x, actual, forecast, minConfidence)
  {
  }

  /** The replica count an evaluation argues for: its target, or the present count. */
  function Outcome(s: Settings, replicas: int, cpu: real): int
    requires s.targetCpu > 0.0
  {
    var advice := ScaleAdvice(s, cpu, replicas);
    if advice.Some? then advice.value.targetReplicas.value else replicas
  }

  lemma CeilMonotone(x: real, y: real)
    requires x <= y
    ensures Ceil(x) <= Ceil(y)
  {
  }

  lemma OutcomeIs(s: Settings, replicas: int, cpu: real)
    requires s.targetCpu > 0.0
    ensures Outcome(s, replicas, cpu) ==
            if OutsideBand(s, cpu) then Clamp(Wanted(s, replicas, cpu), s.maxReplicas) else replicas
  {
  }

  lemma WantedMonotone(s: Settings, replicas: int, low: real, high: real)
    requires Sane(s) && 1 <= replicas && low <= high
    ensures Wanted(s, replicas, low) <= Wanted(s, replicas, high)
    ensures low <= s.targetCpu ==> Wanted(s, replicas, low) <= replicas
    ensures high >= s.targetCpu ==> Wanted(s, replicas, high) >= replicas
  {
    var x := replicas as real * (low / s.targetCpu);
    var y := replicas as real * (high / s.targetCpu);
    assert x <= y by { LoadMonotone(replicas, low, high, s.targetCpu); }
    CeilMonotone(x, y);
    WantedBounds(s, replicas, low);
    WantedBounds(s, replicas, high);
  }

  /** With a legal replica count, a higher utilisation never argues for fewer replicas. */
  lemma OutcomeMonotone(s: Settings, replicas: int, low: real, high: real)
    requires Sane(s) && 1 <= replicas <= s.maxReplicas && low <= high
    ensures Outcome(s, replicas, low) <= Outcome(s, replicas, high)
  {
    OutcomeIs(s, replicas, low);
    OutcomeIs(s, replicas, high);
    WantedMonotone(s, replicas, low, high);
    var a, b := Wanted(s, replicas, low), Wanted(s, replicas, high);
    ClampBetween(a, b, replicas, s.maxReplicas);
  }

  lemma ClampBetween(a: int, b: int, n: int, max: int)
    requires 1 <= n <= max && a <= b
    ensures Clamp(a, max) <= Clamp(b, max)
    ensures a <= n ==> Clamp(a, max) <= n
    ensures n <= b ==> n <= Clamp(b, max)
  {
  }

  lemma LoadMonotone(replicas: int, low: real, high: real, target: real)
    requires replicas >= 0 && low <= high && target > 0.0
    ensures replicas as real * (low / target) <= replicas as real * (high / target)
  {
  }

  /** Monotonicity in utilisation holds for every pair of readings if and only if the replica
      count lies between one and the maximum: outside it, leaving the band from below can
      raise the count (0 to 1) or leaving it from above lower it (to the maximum). */
  lemma MonotoneIffLegal(s: Settings, replicas: int)
    requires Sane(s) && replicas >= 0
    ensures (forall low, high :: low <= high ==> Outcome(s, replicas, low) <= Outcome(s, replicas, high)) <==>
            1 <= replicas <= s.maxReplicas
  {
    if 1 <= replicas <= s.maxReplicas {
      forall low, high | low <= high ensures Outcome(s, replicas, low) <= Outcome(s, replicas, high) {
        OutcomeMonotone(s, replicas, low, high);
      }
    } else if replicas == 0 {
      var idle := s.targetCpu - s.band - 1.0;
      assert Ceil(0 as real * (idle / s.targetCpu)) == 0;
      assert Outcome(s, 0, idle) == 1 && Outcome(s, 0, s.targetCpu) == 0;
    } else {
      var hot := s.targetCpu + s.band + 1.0;
      WantedBounds(s, replicas, hot);
      OutcomeIs(s, replicas, hot);
      assert Outcome(s, replicas, hot) == s.maxReplicas && Outcome(s, replicas, s.targetCpu) == replicas;
    }
  }

  /** Listening to the forecast never argues for fewer replicas than the actuals alone. */
  lemma BlendingOnlyRaises(s: Settings, replicas: int, actual: real, forecast: Option<Forecast>, minConfidence: real)
    requires Sane(s) && 1 <= replicas <= s.maxReplicas
    ensures Outcome(s, replicas, Blend(actual, forecast, minConfidence)) >= Outcome(s, replicas, actual)
  {
    OutcomeMonotone(s, replicas, actual, Blend(actual, forecast, minConfidence));
  }

  // ----- memory

  /** The limit in force once the memory advice has been followed. */
  predicate MemoryRefires(s: Settings, memory: real)
    requires s.targetMemory > 0.0
  {
    MemoryAdvice(s, Some(memory), Some(TargetMemory(s, memory))).Some?
  }

  /** The exact target in tenths of a megabyte. */
  function IdealTenths(s: Settings, memory: real): real
    requires s.targetMemory > 0.0
  {
    memory * 1000.0 / s.targetMemory
  }

  /** n is the nearest integer to x, ties going to the even one. */
  predicate Nearest(n: int, x: real) {
    -0.5 <= n as real - x <= 0.5 && (n as real - x == 0.5 || n as real - x == -0.5 ==> n % 2 == 0)
  }

  /** The target rounded to one decimal is the nearest number of tenths. */
  lemma TenthsOf(s: Settings, memory: real) returns (n: int)
    requires s.targetMemory > 0.0
    ensures TargetMemory(s, memory) == n as real / 10.0 && Nearest(n, IdealTenths(s, memory))
  {
    hide Round;
    SamePercent(memory, s.targetMemory);
    n := RoundedTenths(memory / (s.targetMemory / 100.0), TargetMemory(s, memory));
  }

  lemma RoundedTenths(x: real, r: real) returns (n: int)
    requires IsRounding(x, 10, r)
    ensures r == n as real / 10.0 && Nearest(n, x * 10.0)
  {
    var ten := 10 as real;
    n := (r * ten).Floor;
    assert r * ten == n as real;
  }

  lemma SamePercent(memory: real, target: real)
    requires target > 0.0
    ensures memory / (target / 100.0) * 10.0 == memory * 1000.0 / target
  {
    var x := memory / (target / 100.0);
    assert x * (target / 100.0) == memory;
    assert x * 10.0 * target == memory * 1000.0;
  }

  lemma IdealTimesTarget(s: Settings, memory: real)
    requires s.targetMemory > 0.0
    ensures s.targetMemory * IdealTenths(s, memory) == memory * 1000.0
  {
  }

  /** The advice fires again exactly when usage is beyond a share of the rounded limit. */
  lemma RefiresBy(s: Settings, memory: real, n: int)
    requires SaneMemory(s) && memory >= 0.0 && TargetMemory(s, memory) == n as real / 10.0
    ensures MemoryRefires(s, memory) <==>
      n >= 1 && (memory * 1000.0 >= s.memoryHigh * n as real || memory * 1000.0 <= s.memoryLow * n as real)
  {
    hide TargetMemory;
    var limit := n as real / 10.0;
    if n >= 1 {
      PercentIs(memory, limit, s.memoryHigh);
      PercentIs(memory, limit, s.memoryLow);
      assert s.memoryHigh * limit * 10.0 == s.memoryHigh * n as real;
      assert s.memoryLow * limit * 10.0 == s.memoryLow * n as real;
    }
  }

  /** The average is large enough for one decimal, compared with how far the target lies below the
      upper and above the lower threshold. */
  predicate ClearOfHigh(memory: real, t: real, high: real) {
    2000.0 * memory * (high - t) > t * high
  }

  predicate ClearOfLow(memory: real, t: real, low: real) {
    2000.0 * memory * (t - low) > t * low
  }

  /** A rounded target settles for every average that is large enough. */
  lemma MemorySettles(s: Settings, memory: real)
    requires SaneMemory(s)
    requires ClearOfHigh(memory, s.targetMemory, s.memoryHigh) && ClearOfLow(memory, s.targetMemory, s.memoryLow)
    ensures !MemoryRefires(s, memory)
  {
    hide ClearOfHigh, ClearOfLow, MemoryRefires, TargetMemory, IdealTenths;
    var n := TenthsOf(s, memory);
    var x := IdealTenths(s, memory);
    IdealTimesTarget(s, memory);
    PositiveAverage(memory, s.targetMemory, s.memoryHigh);
    FarFromHigh(x, n as real, s.targetMemory, s.memoryHigh, memory);
    FarFromLow(x, n as real, s.targetMemory, s.memoryLow, memory);
    RefiresBy(s, memory, n);
  }

  lemma PositiveAverage(memory: real, t: real, high: real)
    requires 0.0 < t < high && ClearOfHigh(memory, t, high)
    ensures memory > 0.0
  {
    assert t * high > 0.0;
    if memory <= 0.0 { NotPositive(memory, high - t); }
  }

  lemma NotPositive(memory: real, gap: real)
    requires memory <= 0.0 && gap > 0.0
    ensures 2000.0 * memory * gap <= 0.0
  {
  }

  lemma FarFromHigh(x: real, n: real, t: real, high: real, memory: real)
    requires 0.0 < t < high && n >= x - 0.5 && t * x == memory * 1000.0
    requires ClearOfHigh(memory, t, high)
    ensures memory * 1000.0 < high * n
  {
    var used, gap := t * x, x * (high - t);
    assert 2000.0 * memory * (high - t) == t * (2.0 * gap) by { Regroup(t, x, high - t, memory); }
    CancelFactor(t, 2.0 * gap, high);
    var below, share := (x - 0.5) * high, n * high;
    assert gap == x * high - used;
    assert below == x * high - 0.5 * high;
    TimesAtMost(high, x - 0.5, n);
    assert used < below <= share;
  }

  lemma FarFromLow(x: real, n: real, t: real, low: real, memory: real)
    requires 0.0 <= low < t && n <= x + 0.5 && t * x == memory * 1000.0
    requires ClearOfLow(memory, t, low)
    ensures memory * 1000.0 > low * n
  {
    var used, gap := t * x, x * (t - low);
    assert 2000.0 * memory * (t - low) == t * (2.0 * gap) by { Regroup(t, x, t - low, memory); }
    CancelFactor(t, 2.0 * gap, low);
    var above, share := (x + 0.5) * low, n * low;
    assert gap == used - x * low;
    assert above == x * low + 0.5 * low;
    TimesAtMost(low, n, x + 0.5);
    assert used > above >= share;
  }

  lemma Regroup(t: real, x: real, d: real, memory: real)
    requires t * x == memory * 1000.0
    ensures 2000.0 * memory * d == t * (2.0 * (x * d))
  {
    assert t * (2.0 * (x * d)) == 2.0 * (t * x) * d;
  }

  lemma CancelFactor(t: real, a: real, b: real)
    requires t > 0.0 && t * a > t * b
    ensures a > b
  {
  }

  /** Memory advice settles for every average if and only if the thresholds lie far enough from the
      target for one decimal: the upper one at least half as high again, the lower one at most half. */
  lemma MemoryAlwaysSettlesIff(s: Settings)
    requires SaneMemory(s)
    ensures (forall memory :: memory >= 0.0 ==> !MemoryRefires(s, memory)) <==>
            2.0 * s.memoryHigh >= 3.0 * s.targetMemory && 2.0 * s.memoryLow <= s.targetMemory
  {
    hide MemoryRefires;
    if 2.0 * s.memoryHigh >= 3.0 * s.targetMemory && 2.0 * s.memoryLow <= s.targetMemory {
      forall memory | memory >= 0.0 ensures !MemoryRefires(s, memory) { WideGapSettles(s, memory); }
    } else if 2.0 * s.memoryHigh < 3.0 * s.targetMemory {
      OneTenthRefires(s, s.memoryHigh);
    } else {
      OneTenthRefires(s, s.memoryLow);
    }
  }

  lemma WideGapSettles(s: Settings, memory: real)
    requires SaneMemory(s) && memory >= 0.0
    requires 2.0 * s.memoryHigh >= 3.0 * s.targetMemory && 2.0 * s.memoryLow <= s.targetMemory
    ensures !MemoryRefires(s, memory)
  {
    var n := TenthsOf(s, memory);
    IdealTimesTarget(s, memory);
    RefiresBy(s, memory, n);
    hide IdealTenths, TargetMemory, MemoryRefires;
    if n >= 1 { NearestWithin(s.targetMemory, s.memoryLow, s.memoryHigh, IdealTenths(s, memory), n); }
  }

  lemma NearestWithin(t: real, low: real, high: real, x: real, n: int)
    requires 0.0 < t && 2.0 * high >= 3.0 * t && 2.0 * low <= t && n >= 1 && Nearest(n, x)
    ensures low * n as real < t * x < high * n as real
  {
    Within(t, low, high, x, n as real);
  }

  lemma Within(t: real, low: real, high: real, x: real, k: real)
    requires 0.0 < t && 2.0 * high >= 3.0 * t && 2.0 * low <= t && k > 0.0 && 0.5 * k < x < 1.5 * k
    ensures low * k < t * x < high * k
  {
    var half, most := 0.5 * k, 1.5 * k;
    TimesLess(t, half, x);
    TimesLess(t, x, most);
    TimesAtMost(k, 1.5 * t, high);
    TimesAtMost(k, low, 0.5 * t);
    assert t * half == 0.5 * t * k && t * most == 1.5 * t * k;
  }

  lemma TimesLess(t: real, a: real, b: real)
    requires t > 0.0 && a < b
    ensures t * a < t * b
  {
  }

  lemma TimesAtMost(k: real, a: real, b: real)
    requires k >= 0.0 && a <= b
    ensures a * k <= b * k
  {
  }

  /** When a threshold lies within half of the target, the average that is exactly this share of a
      limit of one tenth gets that very limit. */
  lemma OneTenthRefires(s: Settings, share: real)
    requires SaneMemory(s) && (share == s.memoryHigh || share == s.memoryLow)
    requires s.targetMemory < 2.0 * share < 3.0 * s.targetMemory
    ensures share / 1000.0 >= 0.0 && MemoryRefires(s, share / 1000.0)
  {
    hide MemoryRefires, TargetMemory, IdealTenths;
    var memory := share / 1000.0;
    assert memory * 1000.0 == share;
    var n := TenthsOf(s, memory);
    IdealTimesTarget(s, memory);
    Between(s.targetMemory, IdealTenths(s, memory), share);
    assert n == 1;
    RefiresBy(s, memory, n);
  }

  lemma Between(t: real, x: real, share: real)
    requires 0.0 < t && t * x == share && t < 2.0 * share < 3.0 * t
    ensures 0.5 < x < 1.5
  {
    CancelFactor(t, x, 0.5);
    CancelFactor(t, 1.5, x);
  }

  /** With the default settings: exactly in two narrow ranges below 0.2 MB. Below the first the
      target rounds to a limit of 0.1 or 0, and a limit of 0 switches memory advice off. */
  lemma MemoryRefiresIff(memory: real)
    requires memory >= 0.0
    ensures MemoryRefires(DEFAULTS, memory) <==> 0.085 <= memory < 0.105 || 0.17 <= memory <= 0.175
  {
    DefaultsAreSane();
    var n := TenthsOf(DEFAULTS, memory);
    TenthsByRange(memory, n);
    RefiresBy(DEFAULTS, memory, n);
  }

  lemma TenthsByRange(memory: real, n: int)
    requires memory >= 0.0 && Nearest(n, memory * 1000.0 / 70.0)
    ensures n >= 0
    ensures n == 0 <==> memory <= 0.035
    ensures n == 1 <==> 0.035 < memory < 0.105
    ensures n == 2 <==> 0.105 <= memory <= 0.175
  {
  }

  /** The target moves the limit in the advised direction, up to the rounding to one decimal, and
      strictly for every limit that is large compared with the distance of target and threshold. */
  lemma MemoryTargetMovesLimit(s: Settings, memory: real, limit: real)
    requires SaneMemory(s) && limit > 0.0 && MemoryAdvice(s, Some(memory), Some(limit)).Some?
    ensures var r := MemoryAdvice(s, Some(memory), Some(limit)).value;
      var target := r.targetMemoryMb.value;
      (r.kind.IncreaseMemory? ==> target + 0.05 > limit) &&
      (r.kind.IncreaseMemory? && 20.0 * limit * (s.memoryHigh - s.targetMemory) > s.targetMemory ==> target > limit) &&
      (r.kind.ReduceMemory? ==> target - 0.05 < limit) &&
      (r.kind.ReduceMemory? && 20.0 * limit * (s.targetMemory - s.memoryLow) > s.targetMemory ==> target < limit)
  {
    hide TargetMemory, IdealTenths;
    var n := TenthsOf(s, memory);
    IdealTimesTarget(s, memory);
    PercentIs(memory, limit, s.memoryHigh);
    PercentIs(memory, limit, s.memoryLow);
    TargetMoves(n as real, IdealTenths(s, memory), s.targetMemory, s.memoryLow, s.memoryHigh, memory, limit);
  }

  lemma TargetMoves(n: real, x: real, t: real, low: real, high: real, memory: real, limit: real)
    requires 0.0 <= low < t < high && limit > 0.0 && t * x == memory * 1000.0 && -0.5 <= n - x <= 0.5
    ensures memory * 100.0 >= high * limit ==>
      n / 10.0 + 0.05 > limit && (20.0 * limit * (high - t) > t ==> n / 10.0 > limit)
    ensures memory * 100.0 <= low * limit ==>
      n / 10.0 - 0.05 < limit && (20.0 * limit * (t - low) > t ==> n / 10.0 < limit)
  {
    if memory * 100.0 >= high * limit { RaisedAbove(x, t, high, limit); }
    if memory * 100.0 <= low * limit { LoweredBelow(x, t, low, limit); }
  }

  lemma RaisedAbove(x: real, t: real, high: real, limit: real)
    requires 0.0 < t < high && limit > 0.0 && t * x >= 10.0 * (high * limit)
    ensures x > 10.0 * limit
    ensures 20.0 * limit * (high - t) > t ==> x > 10.0 * limit + 0.5
  {
    assert high * limit > t * limit;
    CancelFactor(t, x, 10.0 * limit);
    if 20.0 * limit * (high - t) > t {
      assert t * (10.0 * limit + 0.5) == 10.0 * (t * limit) + 0.5 * t;
      assert 20.0 * limit * (high - t) == 20.0 * (high * limit) - 20.0 * (t * limit);
      CancelFactor(t, x, 10.0 * limit + 0.5);
    }
  }

  lemma LoweredBelow(x: real, t: real, low: real, limit: real)
    requires 0.0 <= low < t && limit > 0.0 && t * x <= 10.0 * (low * limit)
    ensures x < 10.0 * limit
    ensures 20.0 * limit * (t - low) > t ==> x < 10.0 * limit - 0.5
  {
    assert low * limit < t * limit;
    CancelFactor(t, 10.0 * limit, x);
    if 20.0 * limit * (t - low) > t {
      assert t * (10.0 * limit - 0.5) == 10.0 * (t * limit) - 0.5 * t;
      assert 20.0 * limit * (t - low) == 20.0 * (t * limit) - 20.0 * (low * limit);
      CancelFactor(t, 10.0 * limit - 0.5, x);
    }
  }
}
