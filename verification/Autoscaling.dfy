/** One evaluation of the hybrid autoscaler (cloudhelm/autoscaling.py). Averages and
    percentages are exact rationals. */
module Autoscaling {
  import opened Wrappers
  import opened Model

  // ---------------------------------------------------------------- what is measured

  function CapacityOf(config: Config, instance: Instance): nat {
    if instance.capacityLimit != 0 then instance.capacityLimit else config.capacity
  }

  predicate Fresh(w: World, instance: Instance, now: Time) {
    instance.monitored && instance.updatedAt >= now - w.service.config.stale
  }

  predicate ContainerHealthy(w: World, instance: Instance) {
    instance.container.Some? ==>
      && instance.container.value < |w.containers|
      && var c := w.containers[instance.container.value]; c.present && c.running && !c.unhealthy
  }

  predicate Available(w: World, instance: Instance, now: Time) {
    && Fresh(w, instance, now) && instance.pool != AcsRelease
    && instance.healthy && instance.ready && instance.accepting && ContainerHealthy(w, instance)
  }

  /** A monitored local instance that is down without having been taken out on purpose. */
  predicate LocalDown(w: World, instance: Instance, now: Time) {
    && instance.monitored && instance.pool == Local && !Available(w, instance, now)
    && instance.desired !in {Draining, Maintenance, Restoring}
  }

  /** Sums over the first `n` instances. */
  function Businesses(w: World, n: nat, now: Time): nat
    requires n <= |w.instances|
  {
    if n == 0 then 0
    else Businesses(w, n - 1, now) + if Fresh(w, w.instances[n - 1], now) then w.instances[n - 1].active else 0
  }

  function AvailableCapacity(w: World, n: nat, now: Time): nat
    requires n <= |w.instances|
  {
    if n == 0 then 0
    else
      AvailableCapacity(w, n - 1, now)
        + if Available(w, w.instances[n - 1], now) then CapacityOf(w.service.config, w.instances[n - 1]) else 0
  }

  function HealthyLocalCapacity(w: World, n: nat, now: Time): nat
    requires n <= |w.instances|
  {
    if n == 0 then 0
    else
      HealthyLocalCapacity(w, n - 1, now)
        + if Available(w, w.instances[n - 1], now) && w.instances[n - 1].pool == Local
          then CapacityOf(w.service.config, w.instances[n - 1]) else 0
  }

  function MissingCapacity(w: World, n: nat, now: Time): nat
    requires n <= |w.instances|
  {
    if n == 0 then 0
    else
      MissingCapacity(w, n - 1, now)
        + if LocalDown(w, w.instances[n - 1], now) then CapacityOf(w.service.config, w.instances[n - 1]) else 0
  }

  predicate LocalFailure(w: World, now: Time) {
    exists i :: 0 <= i < |w.instances| && LocalDown(w, w.instances[i], now)
  }

  function Window(samples: seq<Sample>, from: Time): (r: seq<Sample>)
    ensures forall sample :: sample in r <==> sample in samples && sample.at >= from
  {
    if samples == [] then []
    else
      var front := Window(samples[..|samples| - 1], from);
      if samples[|samples| - 1].at >= from then front + [samples[|samples| - 1]] else front
  }

  function TotalBusinesses(samples: seq<Sample>): nat {
    if samples == [] then 0 else TotalBusinesses(samples[..|samples| - 1]) + samples[|samples| - 1].businesses
  }

  function TotalCapacity(samples: seq<Sample>): nat {
    if samples == [] then 0 else TotalCapacity(samples[..|samples| - 1]) + samples[|samples| - 1].capacity
  }

  function Earliest(samples: seq<Sample>): Time
    requires samples != []
  {
    var last := samples[|samples| - 1].at;
    if |samples| == 1 then last
    else var front := Earliest(samples[..|samples| - 1]); if front <= last then front else last
  }

  function Latest(samples: seq<Sample>): Time
    requires samples != []
  {
    var last := samples[|samples| - 1].at;
    if |samples| == 1 then last
    else var front := Latest(samples[..|samples| - 1]); if front >= last then front else last
  }

  datatype Load = Load(
    average: real, utilization: real, ready: bool, failure: bool, missing: nat, healthyLocal: nat)

  function Mean(total: nat, count: nat): real {
    if count == 0 then 0.0 else total as real / count as real
  }

  function Utilization(average: real, capacity: real): real {
    if capacity == 0.0 then 0.0 else average * 100.0 / capacity
  }

  /** The samples cover at least 80 percent of the window. */
  predicate Covered(window: seq<Sample>, length: Time) {
    |window| >= 2 && 5 * (Latest(window) - Earliest(window)) >= 4 * length
  }

  function Sampled(w: World, now: Time): World {
    var n := |w.instances|;
    w.(samples := w.samples + [Sample(now, Businesses(w, n, now), AvailableCapacity(w, n, now))])
  }

  function LoadOf(w: World, now: Time): Load {
    var window := Window(w.samples, now - w.service.config.window);
    var average := Mean(TotalBusinesses(window), |window|);
    Load(average, Utilization(average, Mean(TotalCapacity(window), |window|)),
         Covered(window, w.service.config.window), LocalFailure(w, now),
         MissingCapacity(w, |w.instances|, now), HealthyLocalCapacity(w, |w.instances|, now))
  }

  // ---------------------------------------------------------------- arithmetic of targets

  function Max(a: int, b: int): int { if a >= b then a else b }

  function Min(a: int, b: int): int { if a <= b then a else b }

  /** `math.ceil` on exact rationals. */
  function Ceil(x: real): int { -((-x).Floor) }

  function FailureTarget(config: Config, load: Load): nat
    requires config.capacity >= 1
  {
    var wanted := if load.failure then Max(config.failover, Ceil(load.missing as real / config.capacity as real)) else 0;
    CeilNonNegative(load.missing as real / config.capacity as real);
    Min(config.maxReplicas, wanted)
  }

  function LoadTarget(config: Config, load: Load): int
    requires config.capacity >= 1 && config.upPercent > 0.0
  {
    var required := load.average / (config.upPercent / 100.0);
    var lacking := required - load.healthyLocal as real;
    Ceil((if lacking > 0.0 then lacking else 0.0) / config.capacity as real)
  }

  lemma CeilNonNegative(x: real)
    requires x >= 0.0
    ensures Ceil(x) >= 0
  {}

  lemma CeilLeast(x: real, n: int)
    ensures Ceil(x) <= n <==> x <= n as real
  {}

  /** Dividing by a positive capacity and rounding up is the least covering count. */
  lemma CeilCovers(need: real, capacity: nat, n: int)
    requires capacity >= 1
    ensures Ceil(need / capacity as real) <= n <==> need <= (n * capacity) as real
  {
    CeilLeast(need / capacity as real, n);
    var c := capacity as real;
    assert (n * capacity) as real == n as real * c;
    if need / c <= n as real {
      assert need == (need / c) * c;
      Scale(need / c, n as real, c);
    }
    if need <= n as real * c {
      if need / c > n as real {
        Scale(n as real, need / c, c);
        assert need == (need / c) * c;
        StrictScale(n as real, need / c, c);
      }
    }
  }

  lemma Scale(a: real, b: real, c: real)
    requires a <= b && c > 0.0
    ensures a * c <= b * c
  {}

  lemma StrictScale(a: real, b: real, c: real)
    requires a < b && c > 0.0
    ensures a * c < b * c
  {}

  /** The load target is the least replica count whose capacity, on top of the healthy local
      capacity, carries the average load at the scale-up threshold. */
  lemma LoadTargetIsLeast(config: Config, load: Load, n: nat)
    requires ValidConfig(config) && load.average >= 0.0
    ensures LoadTarget(config, load) >= 0
    ensures LoadTarget(config, load) <= n <==>
      load.average / (config.upPercent / 100.0) <= (load.healthyLocal + n * config.capacity) as real
  {
    var required := load.average / (config.upPercent / 100.0);
    var lacking := required - load.healthyLocal as real;
    var need := if lacking > 0.0 then lacking else 0.0;
    CeilNonNegative(need / config.capacity as real);
    CeilCovers(need, config.capacity, n);
    assert n * config.capacity >= 0;
  }

  // ---------------------------------------------------------------- the decision

  datatype Decision =
    | ScaleUp(target: nat)
    | Hold(status: ScaleStatus, cancel: bool)
    | DrainOne(instance: nat)
    | ScaleDown(instance: nat, target: nat)

  predicate Cooling(s: Service, now: Time) {
    s.lastScaledAt.Some? && now - s.lastScaledAt.value < s.config.cooldown
  }

  predicate Withdrawn(desired: Desired) { desired in {Drain, Draining, Maintenance} }

  /** A fresh, healthy elastic instance. */
  predicate FreshAcs(w: World, i: nat, now: Time)
    requires i < |w.instances|
  {
    Fresh(w, w.instances[i], now) && w.instances[i].pool == Acs && w.instances[i].healthy
  }

  predicate DrainedAcs(w: World, i: nat, now: Time)
    requires i < |w.instances|
  {
    && FreshAcs(w, i, now) && Withdrawn(w.instances[i].desired)
    && !w.instances[i].accepting && w.instances[i].active == 0
  }

  function FirstDrained(w: World, n: nat, now: Time): (r: Option<nat>)
    requires n <= |w.instances|
    ensures r.Some? ==> r.value < n && DrainedAcs(w, r.value, now) && forall i :: 0 <= i < r.value ==> !DrainedAcs(w, i, now)
    ensures r.None? ==> forall i :: 0 <= i < n ==> !DrainedAcs(w, i, now)
  {
    if n == 0 then None
    else if FirstDrained(w, n - 1, now).Some? then FirstDrained(w, n - 1, now)
    else if DrainedAcs(w, n - 1, now) then Some(n - 1)
    else None
  }

  predicate Lighter(a: Instance, b: Instance) {
    a.active < b.active || (a.active == b.active && a.updatedAt < b.updatedAt)
  }

  predicate ServingAcs(w: World, i: nat, now: Time)
    requires i < |w.instances|
  {
    FreshAcs(w, i, now) && w.instances[i].desired == Serve
  }

  /** The first of the serving elastic instances with the least load, then the oldest report. */
  function LeastLoaded(w: World, n: nat, now: Time): (r: Option<nat>)
    requires n <= |w.instances|
    ensures r.Some? ==> r.value < n && ServingAcs(w, r.value, now)
    ensures r.Some? ==> forall i :: 0 <= i < n && ServingAcs(w, i, now) ==> !Lighter(w.instances[i], w.instances[r.value])
    ensures r.Some? ==> forall i :: 0 <= i < r.value && ServingAcs(w, i, now) ==> Lighter(w.instances[r.value], w.instances[i])
    ensures r.None? ==> forall i :: 0 <= i < n ==> !ServingAcs(w, i, now)
  {
    if n == 0 then None
    else
      var best := LeastLoaded(w, n - 1, now);
      if !ServingAcs(w, n - 1, now) then best
      else if best.None? || Lighter(w.instances[n - 1], w.instances[best.value]) then Some(n - 1)
      else best
  }

  function UpTarget(config: Config, load: Load, current: nat): int
    requires ValidConfig(config)
  {
    var target := Max(Max(current + config.upStep, FailureTarget(config, load)), LoadTarget(config, load));
    Min(config.maxReplicas, Max(config.minReplicas, target))
  }

  predicate WantsMore(w: World, load: Load, current: nat)
    requires ValidConfig(w.service.config)
  {
    || (load.failure && current < FailureTarget(w.service.config, load))
    || (load.ready && load.utilization >= w.service.config.upPercent)
  }

  function Decide(w: World, load: Load, current: nat, now: Time): (d: Decision)
    requires ValidConfig(w.service.config)
    ensures d.DrainOne? ==> d.instance < |w.instances| && ServingAcs(w, d.instance, now)
    ensures d.ScaleDown? ==> d.instance < |w.instances| && DrainedAcs(w, d.instance, now)
  {
    var config := w.service.config;
    var cooling := Cooling(w.service, now);
    if WantsMore(w, load, current) && current < config.maxReplicas then
      if cooling && !load.failure then Hold(Cooldown, true)
      else ScaleUp(UpTarget(config, load, current))
    else if load.failure then Hold(FailoverActive, true)
    else if Active(w.service.phase) then Hold(ReleaseProtection, true)
    else if !load.ready then Hold(Collecting, true)
    else if load.utilization >= config.downPercent then Hold(Stable, true)
    else if current <= config.minReplicas then Hold(AtMinimum, true)
    else if cooling then Hold(Cooldown, false)
    else
      match FirstDrained(w, |w.instances|, now)
      case Some(i) => ScaleDown(i, Max(config.minReplicas, current - 1))
      case None =>
        match LeastLoaded(w, |w.instances|, now)
        case Some(i) => DrainOne(i)
        case None => Hold(WaitingForReports, false)
  }

  // ---------------------------------------------------------------- the effects

  /** `_cancel_drains`: elastic instances only. */
  function DrainsCancelled(w: World): World {
    w.(instances := seq(|w.instances|, i requires 0 <= i < |w.instances| =>
         if w.instances[i].monitored && w.instances[i].pool == Acs && Withdrawn(w.instances[i].desired)
         then w.instances[i].(desired := Serve) else w.instances[i]))
  }

  /** The provider during one evaluation: whether reading, preferring a pod and writing
      succeed, and what another writer stored between the read and the write. */
  datatype Provider = Provider(read: bool, prefer: bool, write: bool, rival: Option<nat>)

  /** The register the write finds. */
  function AtWrite(cloud: Cloud, p: Provider): nat {
    if p.rival.Some? then p.rival.value else cloud.replicas
  }

  /** The conditional write: it succeeds only on the value that was read. */
  predicate WriteSucceeds(cloud: Cloud, expected: nat, p: Provider) {
    p.write && AtWrite(cloud, p) == expected
  }

  function AfterWrite(cloud: Cloud, expected: nat, target: nat, p: Provider): Cloud {
    cloud.(replicas := if WriteSucceeds(cloud, expected, p) then target else AtWrite(cloud, p))
  }

  function WithStatus(w: World, status: ScaleStatus): World {
    w.(service := w.service.(status := status))
  }

  function ScaledUp(w: World, load: Load, target: nat, now: Time, p: Provider): World {
    var current := w.cloud.replicas;
    var quiet := DrainsCancelled(w);
    if WriteSucceeds(w.cloud, current, p) then
      quiet.(cloud := AfterWrite(w.cloud, current, target, p),
             service := w.service.(desiredReplicas := target, lastScaledAt := Some(now),
                                   status := if load.failure then ScalingUpFailover else ScalingUp))
    else WithStatus(quiet.(cloud := AfterWrite(w.cloud, current, target, p)), ScaleFailed)
  }

  /** A rival's write between the read and a preference that fails is still there. */
  function ScaledDown(w: World, i: nat, target: nat, now: Time, p: Provider): World
    requires i < |w.instances|
  {
    var current := w.cloud.replicas;
    var tried := p.(write := p.write && p.prefer);
    var after := w.(cloud := AfterWrite(w.cloud, current, target, tried));
    if WriteSucceeds(w.cloud, current, tried) then
      after.(service := w.service.(desiredReplicas := target, lastScaledAt := Some(now), status := ScalingDown))
    else WithStatus(SetDesired(after, i, Serve), ScaleFailed)
  }

  function Applied(w: World, load: Load, decision: Decision, now: Time, p: Provider): World
    requires decision.DrainOne? ==> decision.instance < |w.instances|
    requires decision.ScaleDown? ==> decision.instance < |w.instances|
  {
    match decision
    case Hold(status, cancel) => WithStatus(if cancel then DrainsCancelled(w) else w, status)
    case ScaleUp(target) => ScaledUp(w, load, target, now, p)
    case DrainOne(i) => WithStatus(SetDesired(w, i, Draining), DrainRequested)
    case ScaleDown(i, target) => ScaledDown(w, i, target, now, p)
  }

  /** The sample is stored and the provider's replica count has been read. */
  function Seen(w: World, now: Time): World {
    Sampled(w, now).(service := w.service.(currentReplicas := w.cloud.replicas, desiredReplicas := w.cloud.replicas))
  }

  function Decided(w: World, now: Time): (d: Decision)
    requires ValidConfig(w.service.config)
    ensures d.DrainOne? ==> d.instance < |w.instances| && ServingAcs(w, d.instance, now)
    ensures d.ScaleDown? ==> d.instance < |w.instances| && DrainedAcs(w, d.instance, now)
  {
    Decide(w, LoadOf(w, now), w.cloud.replicas, now)
  }

  /** The decision taken on stored samples and read replicas, and its effect. */
  function Acted(w: World, now: Time, p: Provider): World
    requires ValidConfig(w.service.config)
  {
    Applied(w, LoadOf(w, now), Decided(w, now), now, p)
  }

  /** The evaluation gets as far as a decision. */
  predicate Decides(w: World, settings: Settings, p: Provider) {
    w.service.config.autoscaling && settings.autoscaling && p.read
  }

  /** `evaluate_service`. */
  function Evaluated(w: World, now: Time, settings: Settings, p: Provider): World
    requires ValidConfig(w.service.config)
  {
    if Decides(w, settings, p) then Acted(Seen(w, now), now, p)
    else if !w.service.config.autoscaling then WithStatus(DrainsCancelled(Sampled(w, now)), Monitoring)
    else WithStatus(Sampled(w, now), if !settings.autoscaling then ProviderDisabled else ProviderError)
  }

  // ---------------------------------------------------------------- what one evaluation guarantees

  /** The projected utilisation with `n` replicas is at most the threshold. */
  predicate CarriesLoad(config: Config, load: Load, n: nat) {
    load.average * 100.0 <= config.upPercent * (load.healthyLocal + n * config.capacity) as real
  }

  /** `n` replicas make up for the local instances that are down. */
  predicate ReplacesMissing(config: Config, load: Load, n: nat) {
    load.missing <= n * config.capacity && config.failover <= n
  }

  /** An upward target goes strictly up and stays within the limits; below the maximum it
      also brings the projected utilisation to the threshold or under it and, when local
      instances failed, replaces their capacity. */
  lemma UpTargetIsSafe(config: Config, load: Load, current: nat)
    requires ValidConfig(config) && load.average >= 0.0 && current < config.maxReplicas
    ensures var target := UpTarget(config, load, current);
      && current < target <= config.maxReplicas && config.minReplicas <= target
      && (target < config.maxReplicas ==> CarriesLoad(config, load, target))
      && (target < config.maxReplicas && load.failure ==> ReplacesMissing(config, load, target))
  {
    hide UpTarget, LoadTarget, FailureTarget, CarriesLoad, ReplacesMissing;
    UpTargetBounds(config, load, current);
    var target := UpTarget(config, load, current);
    if target < config.maxReplicas {
      TargetCarriesLoad(config, load, target);
      if load.failure { TargetReplacesMissing(config, load, target); }
    }
  }

  lemma UpTargetBounds(config: Config, load: Load, current: nat)
    requires ValidConfig(config) && current < config.maxReplicas
    ensures var target := UpTarget(config, load, current);
      && current < target <= config.maxReplicas && config.minReplicas <= target
      && (target < config.maxReplicas ==> FailureTarget(config, load) <= target && LoadTarget(config, load) <= target)
  {
    hide LoadTarget, FailureTarget;
  }

  lemma TargetReplacesMissing(config: Config, load: Load, target: nat)
    requires ValidConfig(config) && load.failure && FailureTarget(config, load) <= target < config.maxReplicas
    ensures ReplacesMissing(config, load, target)
  {
    CeilCovers(load.missing as real, config.capacity, target);
  }

  lemma TargetCarriesLoad(config: Config, load: Load, target: nat)
    requires ValidConfig(config) && load.average >= 0.0 && LoadTarget(config, load) <= target
    ensures CarriesLoad(config, load, target)
  {
    LoadTargetIsLeast(config, load, target);
    Project(load.average, config.upPercent, (load.healthyLocal + target * config.capacity) as real);
  }

  lemma Project(average: real, percent: real, capacity: real)
    requires percent > 0.0 && average / (percent / 100.0) <= capacity
    ensures average * 100.0 <= percent * capacity
  {
    var part := percent / 100.0;
    assert average == (average / part) * part;
    Scale(average / part, capacity, part);
  }

  lemma AverageIsNonNegative(w: World, now: Time)
    ensures LoadOf(w, now).average >= 0.0
  {}

  lemma LocalFailureMeansMissing(w: World, n: nat, now: Time)
    requires n <= |w.instances| && ValidConfig(w.service.config)
    ensures MissingCapacity(w, n, now) > 0 <==> exists i :: 0 <= i < n && LocalDown(w, w.instances[i], now)
  {}

  /** The replica register after one evaluation, compared with what the write found: left
      alone, moved strictly up within the maximum, or moved down by exactly one and not
      below the minimum - and never down while a release is active. */
  lemma ReplicaWritesAreSafe(w: World, now: Time, settings: Settings, p: Provider)
    requires ValidConfig(w.service.config)
    ensures SafeWrite(w, Evaluated(w, now, settings, p).cloud.replicas, p)
  {
    if Decides(w, settings, p) {
      ActedWritesAreSafe(Seen(w, now), now, p);
    }
  }

  ghost predicate SafeWrite(w: World, after: nat, p: Provider) {
    var before, config := w.cloud.replicas, w.service.config;
    || after == before
    || after == AtWrite(w.cloud, p)
    || (AtWrite(w.cloud, p) == before < after <= config.maxReplicas)
    || (AtWrite(w.cloud, p) == before && after == before - 1 >= config.minReplicas && !Active(w.service.phase))
  }

  lemma ActedWritesAreSafe(w: World, now: Time, p: Provider)
    requires ValidConfig(w.service.config)
    ensures SafeWrite(w, Acted(w, now, p).cloud.replicas, p)
  {
    AverageIsNonNegative(w, now);
    DecisionWritesAreSafe(w, LoadOf(w, now), now, p);
  }

  lemma DecisionWritesAreSafe(w: World, load: Load, now: Time, p: Provider)
    requires ValidConfig(w.service.config) && load.average >= 0.0
    ensures SafeWrite(w, Applied(w, load, Decide(w, load, w.cloud.replicas, now), now, p).cloud.replicas, p)
  {
    if w.cloud.replicas < w.service.config.maxReplicas {
      UpTargetIsSafe(w.service.config, load, w.cloud.replicas);
    }
  }

  /** Same instances, except for the desired state of elastic ones. */
  ghost predicate OnlyElasticDesired(before: seq<Instance>, after: seq<Instance>) {
    && |after| == |before|
    && forall i :: 0 <= i < |before| ==>
         && after[i] == before[i].(desired := after[i].desired)
         && (before[i].pool != Acs ==> after[i] == before[i])
  }

  lemma AppliedTouchesElasticOnly(w: World, load: Load, decision: Decision, now: Time, p: Provider)
    requires decision.DrainOne? ==> decision.instance < |w.instances| && w.instances[decision.instance].pool == Acs
    requires decision.ScaleDown? ==> decision.instance < |w.instances| && w.instances[decision.instance].pool == Acs
    ensures OnlyElasticDesired(w.instances, Applied(w, load, decision, now, p).instances)
  {
    hide DrainsCancelled;
    CancellingTouchesElasticOnly(w);
  }

  lemma CancellingTouchesElasticOnly(w: World)
    ensures OnlyElasticDesired(w.instances, DrainsCancelled(w).instances)
  {}

  lemma ActedTouchesElasticOnly(w: World, now: Time, p: Provider)
    requires ValidConfig(w.service.config)
    ensures OnlyElasticDesired(w.instances, Acted(w, now, p).instances)
  {
    hide Applied, Decide, LoadOf;
    AppliedTouchesElasticOnly(w, LoadOf(w, now), Decided(w, now), now, p);
  }

  /** The autoscaler never changes an instance outside its own pool, and of those only the
      desired state. */
  lemma OnlyElasticInstancesChange(w: World, now: Time, settings: Settings, p: Provider)
    requires ValidConfig(w.service.config)
    ensures OnlyElasticDesired(w.instances, Evaluated(w, now, settings, p).instances)
  {
    hide Acted, DrainsCancelled, Businesses, AvailableCapacity;
    CancellingTouchesElasticOnly(Sampled(w, now));
    if Decides(w, settings, p) {
      ActedTouchesElasticOnly(Seen(w, now), now, p);
    }
  }
}
