/** When the autoscaler scales, by how much, and which instances it drains: on the rows, the
    samples and the configuration, whatever the decision cascade looks like
    (cloudhelm/autoscaling.py). */
module ScalingTriggers {
  import opened Wrappers
  import opened Model
  import opened Autoscaling

  // ---------------------------------------------------------------- what there is to see

  function Sum(s: seq<nat>): nat {
    if s == [] then 0 else Sum(s[..|s| - 1]) + s[|s| - 1]
  }

  /** The instance is watched and has reported lately. */
  ghost predicate Reporting(w: World, x: Instance, now: Time) {
    x.monitored && x.updatedAt >= now - w.service.config.stale
  }

  /** It takes work: reporting, well, and not in a container that is gone or ill. */
  ghost predicate Working(w: World, x: Instance, now: Time) {
    && Reporting(w, x, now) && x.pool != AcsRelease && x.healthy && x.ready && x.accepting
    && match x.container
       case None => true
       case Some(c) => c < |w.containers| && w.containers[c].present && w.containers[c].running && !w.containers[c].unhealthy
  }

  /** A watched local instance does not work, and nobody has taken it out. */
  ghost predicate Down(w: World, x: Instance, now: Time) {
    x.monitored && x.pool == Local && !Working(w, x, now) && (x.desired == Serve || x.desired == Drain)
  }

  ghost function Capacity(w: World, x: Instance): nat {
    if x.capacityLimit > 0 then x.capacityLimit else w.service.config.capacity
  }

  datatype Group = AllWorking | LocalWorking | LocalDowns

  ghost predicate In(w: World, x: Instance, now: Time, group: Group) {
    match group
    case AllWorking => Working(w, x, now)
    case LocalWorking => Working(w, x, now) && x.pool == Local
    case LocalDowns => Down(w, x, now)
  }

  ghost function Capacities(w: World, now: Time, group: Group): (r: seq<nat>)
    ensures |r| == |w.instances|
  {
    seq(|w.instances|, i requires 0 <= i < |w.instances| =>
      if In(w, w.instances[i], now, group) then Capacity(w, w.instances[i]) else 0)
  }

  ghost function Works(w: World, now: Time): (r: seq<nat>)
    ensures |r| == |w.instances|
  {
    seq(|w.instances|, i requires 0 <= i < |w.instances| =>
      if Reporting(w, w.instances[i], now) then w.instances[i].active else 0)
  }

  /** The samples of this evaluation: the stored ones and its own. */
  ghost function Samples(w: World, now: Time): seq<Sample> {
    w.samples + [Sample(now, Sum(Works(w, now)), Sum(Capacities(w, now, AllWorking)))]
  }

  datatype Measure = OfWork | OfCapacity | OfCount

  function ValueOf(sample: Sample, measure: Measure): nat {
    match measure
    case OfWork => sample.businesses
    case OfCapacity => sample.capacity
    case OfCount => 1
  }

  ghost function Values(samples: seq<Sample>, from: Time, measure: Measure): (r: seq<nat>)
    ensures |r| == |samples|
  {
    seq(|samples|, i requires 0 <= i < |samples| => if samples[i].at >= from then ValueOf(samples[i], measure) else 0)
  }

  /** Totals over the samples of the window. */
  ghost function Total(w: World, now: Time, measure: Measure): nat {
    Sum(Values(Samples(w, now), now - w.service.config.window, measure))
  }

  /** Two samples of the window lie four fifths of it apart. */
  ghost predicate Spanned(w: World, now: Time) {
    exists a, b :: a in Samples(w, now) && b in Samples(w, now) && a.at >= now - w.service.config.window && b.at >= now - w.service.config.window
      && 5 * (b.at - a.at) >= 4 * w.service.config.window
  }

  /** Utilisation reaches the percentage, cross-multiplied. */
  ghost predicate Reaches(w: World, now: Time, percent: real) {
    && Total(w, now, OfCapacity) > 0
    && Total(w, now, OfWork) as real * 100.0 >= percent * Total(w, now, OfCapacity) as real
  }

  /** Utilisation, which counts as none without capacity, stays under the percentage. */
  ghost predicate StaysUnder(w: World, now: Time, percent: real) {
    if Total(w, now, OfCapacity) == 0 then percent > 0.0
    else Total(w, now, OfWork) as real * 100.0 < percent * Total(w, now, OfCapacity) as real
  }

  ghost predicate Failing(w: World, now: Time) {
    exists i :: 0 <= i < |w.instances| && Down(w, w.instances[i], now)
  }

  ghost function Lost(w: World, now: Time): nat {
    Sum(Capacities(w, now, LocalDowns))
  }

  ghost predicate CoolingDown(w: World, now: Time) {
    w.service.lastScaledAt.Some? && now < w.service.lastScaledAt.value + w.service.config.cooldown
  }

  /** `n` replicas stand in for the local instances that are down. */
  ghost predicate StandsIn(w: World, now: Time, n: nat) {
    Failing(w, now) ==> n >= w.service.config.failover && n * w.service.config.capacity >= Lost(w, now)
  }

  /** `n` replicas, with the working local instances, keep the average load at the upper
      percentage or under it. */
  ghost predicate Carries(w: World, now: Time, n: nat) {
    var kept := Sum(Capacities(w, now, LocalWorking)) + n * w.service.config.capacity;
    Total(w, now, OfWork) as real * 100.0 <= w.service.config.upPercent * (kept * Total(w, now, OfCount)) as real
  }

  /** More replicas are due, and permitted. */
  ghost predicate Rises(w: World, now: Time) {
    && w.cloud.replicas < w.service.config.maxReplicas
    && (!StandsIn(w, now, w.cloud.replicas) || (Spanned(w, now) && Reaches(w, now, w.service.config.upPercent)))
    && (Failing(w, now) || !CoolingDown(w, now))
  }

  /** Fewer replicas would do. */
  ghost predicate Oversized(w: World, now: Time) {
    && Spanned(w, now) && StaysUnder(w, now, w.service.config.downPercent)
    && w.cloud.replicas > w.service.config.minReplicas
    && !Failing(w, now) && !Active(w.service.phase)
  }

  ghost predicate Elastic(w: World, x: Instance, now: Time) {
    Reporting(w, x, now) && x.pool == Acs && x.healthy
  }

  /** An elastic instance that was taken out and has nothing left to do. */
  ghost predicate Emptied(w: World, x: Instance, now: Time) {
    Elastic(w, x, now) && x.desired in {Drain, Draining, Maintenance} && !x.accepting && x.active == 0
  }

  ghost predicate SomeEmptied(w: World, now: Time) {
    exists i :: 0 <= i < |w.instances| && Emptied(w, w.instances[i], now)
  }

  // ---------------------------------------------------------------- the measurements are these

  lemma SumOfPrefix(s: seq<nat>, n: nat)
    requires n < |s|
    ensures Sum(s[..n + 1]) == Sum(s[..n]) + s[n]
  {
    assert s[..n + 1][..n] == s[..n];
  }

  lemma WorkingIsAvailable(w: World, x: Instance, now: Time)
    ensures Fresh(w, x, now) <==> Reporting(w, x, now)
    ensures Available(w, x, now) <==> Working(w, x, now)
    ensures LocalDown(w, x, now) <==> Down(w, x, now)
    ensures CapacityOf(w.service.config, x) == Capacity(w, x)
  {}

  lemma {:induction false} BusinessesAre(w: World, n: nat, now: Time)
    requires n <= |w.instances|
    ensures Businesses(w, n, now) == Sum(Works(w, now)[..n])
  {
    hide Fresh, Reporting;
    if n > 0 {
      BusinessesAre(w, n - 1, now);
      WorkingIsAvailable(w, w.instances[n - 1], now);
      SumOfPrefix(Works(w, now), n - 1);
    }
  }

  lemma {:induction false} CapacitiesAre(w: World, n: nat, now: Time)
    requires n <= |w.instances|
    ensures AvailableCapacity(w, n, now) == Sum(Capacities(w, now, AllWorking)[..n])
    ensures HealthyLocalCapacity(w, n, now) == Sum(Capacities(w, now, LocalWorking)[..n])
    ensures MissingCapacity(w, n, now) == Sum(Capacities(w, now, LocalDowns)[..n])
  {
    hide Available, Working, LocalDown, Down, CapacityOf, Capacity;
    if n > 0 {
      CapacitiesAre(w, n - 1, now);
      WorkingIsAvailable(w, w.instances[n - 1], now);
      SumOfPrefix(Capacities(w, now, AllWorking), n - 1);
      SumOfPrefix(Capacities(w, now, LocalWorking), n - 1);
      SumOfPrefix(Capacities(w, now, LocalDowns), n - 1);
    }
  }

  lemma MeasuredInstances(w: World, now: Time)
    ensures Businesses(w, |w.instances|, now) == Sum(Works(w, now))
    ensures AvailableCapacity(w, |w.instances|, now) == Sum(Capacities(w, now, AllWorking))
    ensures HealthyLocalCapacity(w, |w.instances|, now) == Sum(Capacities(w, now, LocalWorking))
    ensures MissingCapacity(w, |w.instances|, now) == Lost(w, now)
    ensures LocalFailure(w, now) <==> Failing(w, now)
  {
    hide Capacities, Works, Available, Working, LocalDown, Down;
    var n := |w.instances|;
    BusinessesAre(w, n, now);
    CapacitiesAre(w, n, now);
    assert Works(w, now)[..n] == Works(w, now);
    assert forall group :: Capacities(w, now, group)[..n] == Capacities(w, now, group);
    forall i | 0 <= i < n ensures LocalDown(w, w.instances[i], now) <==> Down(w, w.instances[i], now) {
      WorkingIsAvailable(w, w.instances[i], now);
    }
  }

  lemma {:induction false} TotalsAre(samples: seq<Sample>, from: Time)
    ensures TotalBusinesses(Window(samples, from)) == Sum(Values(samples, from, OfWork))
    ensures TotalCapacity(Window(samples, from)) == Sum(Values(samples, from, OfCapacity))
    ensures |Window(samples, from)| == Sum(Values(samples, from, OfCount))
  {
    if samples != [] {
      var front, last := samples[..|samples| - 1], samples[|samples| - 1];
      TotalsAre(front, from);
      assert forall measure :: Values(samples, from, measure)[..|front|] == Values(front, from, measure);
      var window := Window(front, from);
      assert (window + [last])[..|window|] == window;
    }
  }

  lemma {:induction false} EarliestIs(samples: seq<Sample>)
    requires samples != []
    ensures exists a :: a in samples && a.at == Earliest(samples)
    ensures forall a :: a in samples ==> Earliest(samples) <= a.at
    ensures exists a :: a in samples && a.at == Latest(samples)
    ensures forall a :: a in samples ==> a.at <= Latest(samples)
  {
    var front, last := samples[..|samples| - 1], samples[|samples| - 1];
    assert last in samples && samples == front + [last];
    if |samples| > 1 {
      EarliestIs(front);
      var a :| a in front && a.at == Earliest(front);
      var b :| b in front && b.at == Latest(front);
      assert a in samples && b in samples;
    }
  }

  lemma CoveredIs(window: seq<Sample>, length: Time)
    requires length > 0
    ensures Covered(window, length) <==> exists a, b :: a in window && b in window && 5 * (b.at - a.at) >= 4 * length
  {
    hide Earliest, Latest;
    if window != [] {
      EarliestIs(window);
    }
  }

  /** The evaluation's own figures, and what they come to. */
  lemma LoadIs(w: World, now: Time)
    requires w.service.config.window > 0
    ensures var load, n := LoadOf(Seen(w, now), now), Total(w, now, OfCount);
      && load.failure == Failing(w, now) && load.missing == Lost(w, now)
      && load.healthyLocal == Sum(Capacities(w, now, LocalWorking)) && load.ready == Spanned(w, now)
      && n > 0 && load.average == Total(w, now, OfWork) as real / n as real
      && load.utilization == Utilization(load.average, Total(w, now, OfCapacity) as real / n as real)
  {
    hide Capacities, Works, Lost, Failing, LocalFailure, TotalBusinesses, TotalCapacity, Covered, Sum, Values, Window,
      Spanned, Total, Utilization, Sampled;
    MeasuredInstances(Seen(w, now), now);
    SeenIsMeasuredAlike(w, now);
    WindowIs(w, now);
  }

  lemma WindowIs(w: World, now: Time)
    requires w.service.config.window > 0
    ensures var window := Window(Seen(w, now).samples, now - w.service.config.window);
      && TotalBusinesses(window) == Total(w, now, OfWork) && TotalCapacity(window) == Total(w, now, OfCapacity)
      && |window| == Total(w, now, OfCount) && |window| > 0
      && (Covered(window, w.service.config.window) <==> Spanned(w, now))
  {
    hide Capacities, Works, TotalBusinesses, TotalCapacity, Covered, Sum, Values;
    var samples, from := Seen(w, now).samples, now - w.service.config.window;
    MeasuredInstances(w, now);
    assert samples == Samples(w, now);
    TotalsAre(samples, from);
    CoveredIs(Window(samples, from), w.service.config.window);
    assert samples[|w.samples|] in Window(samples, from);
  }

  lemma SeenIsMeasuredAlike(w: World, now: Time)
    ensures forall group :: Capacities(Seen(w, now), now, group) == Capacities(w, now, group)
    ensures Lost(Seen(w, now), now) == Lost(w, now)
    ensures Failing(Seen(w, now), now) <==> Failing(w, now)
  {
    var seen := Seen(w, now);
    forall i, group | 0 <= i < |w.instances|
      ensures In(seen, w.instances[i], now, group) <==> In(w, w.instances[i], now, group)
    {}
    forall group ensures Capacities(seen, now, group) == Capacities(w, now, group) {
      hide In;
    }
  }

  lemma UtilizationIs(work: nat, capacity: nat, n: nat, percent: real)
    requires n > 0
    ensures var u := Utilization(work as real / n as real, capacity as real / n as real);
      if capacity == 0 then u == 0.0 else u >= percent <==> work as real * 100.0 >= percent * capacity as real
  {
    if capacity > 0 {
      var b, c, k := work as real, capacity as real, n as real;
      Quotient(b, c, k);
      var u := b * 100.0 / c;
      assert u * c == b * 100.0;
      if u >= percent { Scale(percent, u, c); } else { StrictScale(u, percent, c); }
    }
  }

  lemma Quotient(b: real, c: real, k: real)
    requires c > 0.0 && k > 0.0
    ensures c / k != 0.0 && (b / k) * 100.0 / (c / k) == b * 100.0 / c
  {
    var x, y := b / k, c / k;
    assert x * k == b && y * k == c;
    assert y != 0.0;
    var q := x * 100.0 / y;
    assert q * y == x * 100.0;
    assert q * y * k == x * 100.0 * k;
    assert q * c == b * 100.0;
  }

  // ---------------------------------------------------------------- what follows from them

  /** The evaluation gets as far as a decision. */
  ghost predicate Connected(w: World, settings: Settings, p: Provider) {
    w.service.config.autoscaling && settings.autoscaling && p.read
  }

  /** Nobody else has written the count since it was read, and the provider takes the write. */
  ghost predicate Writable(w: World, p: Provider) {
    p.write && (p.rival.None? || p.rival.value == w.cloud.replicas)
  }

  lemma ThresholdsAre(w: World, now: Time)
    requires ValidConfig(w.service.config)
    ensures var load, config := LoadOf(Seen(w, now), now), w.service.config;
      && (load.utilization >= config.upPercent <==> Reaches(w, now, config.upPercent))
      && (load.utilization < config.downPercent <==> StaysUnder(w, now, config.downPercent))
      && (StaysUnder(w, now, config.downPercent) ==> !Reaches(w, now, config.upPercent))
  {
    hide LoadOf, Utilization, Total;
    var work, capacity, n := Total(w, now, OfWork), Total(w, now, OfCapacity), Total(w, now, OfCount);
    LoadIs(w, now);
    UtilizationIs(work, capacity, n, w.service.config.upPercent);
    UtilizationIs(work, capacity, n, w.service.config.downPercent);
  }

  lemma CarriesIs(w: World, now: Time, n: nat)
    requires ValidConfig(w.service.config)
    ensures LoadTarget(w.service.config, LoadOf(Seen(w, now), now)) <= n <==> Carries(w, now, n)
  {
    hide LoadOf, LoadTarget, Total, Capacities;
    var load, config, count := LoadOf(Seen(w, now), now), w.service.config, Total(w, now, OfCount);
    var work, kept := Total(w, now, OfWork), Sum(Capacities(w, now, LocalWorking)) + n * config.capacity;
    LoadIs(w, now);
    AverageIsNonNegative(Seen(w, now), now);
    LoadTargetIsLeast(config, load, n);
    Divided(work as real, count as real, config.upPercent, kept as real);
    assert (kept * count) as real == kept as real * count as real;
    assert config.upPercent * (kept as real * count as real) == config.upPercent * kept as real * count as real;
  }

  lemma Divided(work: real, count: real, percent: real, kept: real)
    requires count > 0.0 && percent > 0.0
    ensures work / count / (percent / 100.0) <= kept <==> work * 100.0 <= percent * kept * count
  {
    var average, part := work / count, percent / 100.0;
    var need := average / part;
    assert need * part == average && average * count == work;
    assert need * percent == average * 100.0;
    assert need * percent * count == work * 100.0;
    var scale := percent * count;
    assert scale > 0.0;
    assert need * scale == work * 100.0 && kept * scale == percent * kept * count;
    if need <= kept { Scale(need, kept, scale); } else { StrictScale(kept, need, scale); }
  }

  lemma StandsInIs(w: World, now: Time, n: nat)
    requires ValidConfig(w.service.config)
    ensures var load, config := LoadOf(Seen(w, now), now), w.service.config;
      && (n < config.maxReplicas ==> (FailureTarget(config, load) <= n <==> StandsIn(w, now, n)))
      && (FailureTarget(config, load) > n ==> !StandsIn(w, now, n))
  {
    hide LoadOf, Lost, Failing;
    LoadIs(w, now);
    CeilCovers(Lost(w, now) as real, w.service.config.capacity, n);
  }

  lemma DecisionIs(w: World, now: Time)
    requires ValidConfig(w.service.config)
    ensures var d := Decided(Seen(w, now), now);
      && (d.ScaleUp? <==> Rises(w, now))
      && (d.Hold? && d.cancel <==> !Rises(w, now) && !Oversized(w, now))
      && (d.ScaleDown? <==> Oversized(w, now) && !CoolingDown(w, now) && SomeEmptied(w, now))
      && (d.ScaleUp? ==> d.target == UpTarget(w.service.config, LoadOf(Seen(w, now), now), w.cloud.replicas))
      && (d.ScaleDown? ==> d.target == w.cloud.replicas - 1 && FirstDrained(Seen(w, now), |w.instances|, now) == Some(d.instance))
      && (Oversized(w, now) && CoolingDown(w, now) ==> d == Hold(Cooldown, false))
      && (Oversized(w, now) && !CoolingDown(w, now) && !SomeEmptied(w, now) ==>
            d == match LeastLoaded(Seen(w, now), |w.instances|, now)
                 case Some(i) => DrainOne(i)
                 case None => Hold(WaitingForReports, false))
  {
    hide LoadOf, Lost, Failing, Spanned, Reaches, StaysUnder, UpTarget, FailureTarget, StandsIn, FreshAcs, DrainedAcs, Emptied;
    LoadIs(w, now);
    ThresholdsAre(w, now);
    StandsInIs(w, now, w.cloud.replicas);
    NothingStandsIn(w, now, w.cloud.replicas);
    forall i | 0 <= i < |w.instances| ensures DrainedAcs(Seen(w, now), i, now) <==> Emptied(w, w.instances[i], now) {
      EmptiedIs(w, i, now);
    }
  }

  lemma NothingStandsIn(w: World, now: Time, n: nat)
    ensures !Failing(w, now) ==> StandsIn(w, now, n)
  {}

  lemma EmptiedIs(w: World, i: nat, now: Time)
    requires i < |w.instances|
    ensures DrainedAcs(Seen(w, now), i, now) <==> Emptied(w, w.instances[i], now)
    ensures ServingAcs(Seen(w, now), i, now) <==> Elastic(w, w.instances[i], now) && w.instances[i].desired == Serve
  {}

  /** As many replicas as are due. */
  ghost predicate Enough(w: World, now: Time, n: nat) {
    && n >= w.cloud.replicas + w.service.config.upStep && n >= w.service.config.minReplicas
    && StandsIn(w, now, n) && Carries(w, now, n)
  }

  lemma UpTargetIsLeast(w: World, now: Time)
    requires ValidConfig(w.service.config)
    ensures var r, max := UpTarget(w.service.config, LoadOf(Seen(w, now), now), w.cloud.replicas), w.service.config.maxReplicas;
      && 0 <= r <= max && (r == max || Enough(w, now, r)) && (forall n: nat :: n < r ==> !Enough(w, now, n))
  {
    hide LoadOf, LoadTarget, FailureTarget, StandsIn, Carries;
    var config, load := w.service.config, LoadOf(Seen(w, now), now);
    var r := UpTarget(config, load, w.cloud.replicas);
    if r < config.maxReplicas {
      CarriesIs(w, now, r);
      StandsInIs(w, now, r);
    }
    forall n: nat | n < r ensures !Enough(w, now, n) {
      CarriesIs(w, now, n);
      StandsInIs(w, now, n);
    }
  }

  // ---------------------------------------------------------------- the replica count

  /** The count rises exactly when it is below its maximum and outside the cooldown or under
      a local failure, and either the replicas do not stand in for what is down or the
      covered window reached the upper percentage; it rises to the least number that takes
      the whole step, stands in and carries the load, or to the maximum. It falls, by one,
      exactly when the covered window stays under the lower percentage, the count is above
      its minimum, nothing is down, no release is active, the cooldown is over and an emptied
      elastic instance is there. Without a connection nothing is written; what another writer
      stored in the meantime, or the provider refuses, stays. */
  lemma ReplicasExactly(w: World, now: Time, settings: Settings, p: Provider)
    requires ValidConfig(w.service.config)
    ensures var current, after := w.cloud.replicas, Evaluated(w, now, settings, p).cloud.replicas;
      var falls := Oversized(w, now) && !CoolingDown(w, now) && SomeEmptied(w, now);
      if !Connected(w, settings, p) then after == current
      else if Rises(w, now) && Writable(w, p) then
        && current < after <= w.service.config.maxReplicas
        && (after == w.service.config.maxReplicas || Enough(w, now, after))
        && (forall n: nat :: n < after ==> !Enough(w, now, n))
      else if falls && Writable(w, p) && p.prefer then after == current - 1
      else if Rises(w, now) || falls then after == (if p.rival.Some? then p.rival.value else current)
      else after == current
  {
    hide Rises, Oversized, Enough, SomeEmptied, CoolingDown, Decided, UpTarget, LoadOf, Businesses, AvailableCapacity;
    if Connected(w, settings, p) {
      DecisionIs(w, now);
      UpTargetIsLeast(w, now);
      RisesAboveCurrent(w, now);
    }
  }

  lemma RisesAboveCurrent(w: World, now: Time)
    requires ValidConfig(w.service.config)
    ensures Rises(w, now) ==> w.cloud.replicas < UpTarget(w.service.config, LoadOf(Seen(w, now), now), w.cloud.replicas)
  {
    hide LoadOf, LoadTarget, FailureTarget, StandsIn, Reaches, Spanned, Failing;
  }

  // ---------------------------------------------------------------- the instances

  ghost predicate Serves(w: World, x: Instance, now: Time) {
    Elastic(w, x, now) && x.desired == Serve
  }

  /** The emptied elastic instance that comes first. */
  ghost predicate FirstEmptied(w: World, i: nat, now: Time) {
    i < |w.instances| && Emptied(w, w.instances[i], now) && forall j :: 0 <= j < i ==> !Emptied(w, w.instances[j], now)
  }

  /** Of the serving elastic instances, the first of those with the least work that have been
      silent the longest. */
  ghost predicate Lightest(w: World, i: nat, now: Time) {
    && i < |w.instances| && Serves(w, w.instances[i], now)
    && forall j :: 0 <= j < |w.instances| && j != i && Serves(w, w.instances[j], now) ==>
         var x, y := w.instances[i], w.instances[j];
         || x.active < y.active
         || (x.active == y.active && (x.updatedAt < y.updatedAt || (x.updatedAt == y.updatedAt && i < j)))
  }

  lemma ChoiceIs(w: World, now: Time, i: nat)
    requires i < |w.instances|
    ensures FirstDrained(Seen(w, now), |w.instances|, now) == Some(i) <==> FirstEmptied(w, i, now)
    ensures LeastLoaded(Seen(w, now), |w.instances|, now) == Some(i) <==> Lightest(w, i, now)
  {
    hide DrainedAcs, Emptied, ServingAcs, Elastic, Businesses, AvailableCapacity, FirstDrained, LeastLoaded;
    forall j | 0 <= j < |w.instances|
      ensures DrainedAcs(Seen(w, now), j, now) <==> Emptied(w, w.instances[j], now)
      ensures ServingAcs(Seen(w, now), j, now) <==> Serves(w, w.instances[j], now)
    {
      EmptiedIs(w, j, now);
    }
  }

  /** A watched elastic instance that was taken out serves again. */
  function CancelledDesired(x: Instance): Desired {
    if x.monitored && x.pool == Acs && x.desired in {Drain, Draining, Maintenance} then Serve else x.desired
  }

  /** What the effect of a decision does to one instance. */
  lemma AppliedTo(v: World, load: Load, d: Decision, now: Time, p: Provider, i: nat)
    requires i < |v.instances| && (d.DrainOne? || d.ScaleDown? ==> d.instance < |v.instances|)
    ensures var all := Applied(v, load, d, now, p).instances;
      && |all| == |v.instances| && all[i] == v.instances[i].(desired := all[i].desired)
      && all[i].desired == match d
           case Hold(_, cancel) => if cancel then CancelledDesired(v.instances[i]) else v.instances[i].desired
           case ScaleUp(_) => CancelledDesired(v.instances[i])
           case DrainOne(k) => if k == i then Draining else v.instances[i].desired
           case ScaleDown(k, _) => if k == i && !(Writable(v, p) && p.prefer) then Serve else v.instances[i].desired
  {}

  lemma WithoutDecision(w: World, now: Time, settings: Settings, p: Provider, i: nat)
    requires ValidConfig(w.service.config) && i < |w.instances| && !Connected(w, settings, p)
    ensures var all := Evaluated(w, now, settings, p).instances;
      && |all| == |w.instances| && all[i] == w.instances[i].(desired := all[i].desired)
      && all[i].desired == if w.service.config.autoscaling then w.instances[i].desired else CancelledDesired(w.instances[i])
  {
    hide Businesses, AvailableCapacity;
  }

  /** What becomes of each instance: only its desired state can change. While there is nothing
      to give up, whoever was taken out serves again, and so it does when scaling is switched
      off. Without a connection, or in the cooldown, nothing happens. Otherwise, if emptied
      instances are there, the first of them goes, or serves again if that fails; and if none
      is, exactly the lightest serving one is asked to drain. */
  lemma InstancesExactly(w: World, now: Time, settings: Settings, p: Provider, i: nat)
    requires ValidConfig(w.service.config) && i < |w.instances|
    ensures var all, before := Evaluated(w, now, settings, p).instances, w.instances[i];
      && |all| == |w.instances| && all[i] == before.(desired := all[i].desired)
      && all[i].desired ==
           if !w.service.config.autoscaling || (Connected(w, settings, p) && !Oversized(w, now)) then
             CancelledDesired(before)
           else if !Connected(w, settings, p) || CoolingDown(w, now) then before.desired
           else if SomeEmptied(w, now) then
             if FirstEmptied(w, i, now) && !(Writable(w, p) && p.prefer) then Serve else before.desired
           else if Lightest(w, i, now) then Draining
           else before.desired
  {
    hide Rises, Oversized, SomeEmptied, CoolingDown, UpTarget, LoadOf, Businesses, AvailableCapacity, FirstEmptied, Lightest,
      Decided, FirstDrained, LeastLoaded, Applied;
    if Connected(w, settings, p) {
      DecisionIs(w, now);
      ChoiceIs(w, now, i);
      AppliedTo(Seen(w, now), LoadOf(Seen(w, now), now), Decided(Seen(w, now), now), now, p, i);
    } else {
      WithoutDecision(w, now, settings, p, i);
    }
  }

  // ---------------------------------------------------------------- what is shown

  /** The count was written. */
  ghost predicate Writes(w: World, now: Time, settings: Settings, p: Provider) {
    && Connected(w, settings, p) && Writable(w, p)
    && (Rises(w, now) || (p.prefer && Oversized(w, now) && !CoolingDown(w, now) && SomeEmptied(w, now)))
  }

  /** The service row after an evaluation: the count that was read, the one asked for, and the
      time of the last scaling, which is now exactly if the count was written. */
  lemma FiguresExactly(w: World, now: Time, settings: Settings, p: Provider)
    requires ValidConfig(w.service.config)
    ensures var before, after, cloud := w.service, Evaluated(w, now, settings, p).service, Evaluated(w, now, settings, p).cloud;
      && after.currentReplicas == (if Connected(w, settings, p) then w.cloud.replicas else before.currentReplicas)
      && after.desiredReplicas ==
           (if Writes(w, now, settings, p) then cloud.replicas
            else if Connected(w, settings, p) then w.cloud.replicas else before.desiredReplicas)
      && after.lastScaledAt == (if Writes(w, now, settings, p) then Some(now) else before.lastScaledAt)
  {
    hide Rises, Oversized, SomeEmptied, CoolingDown, UpTarget, LoadOf, Businesses, AvailableCapacity, Decided, FirstDrained,
      LeastLoaded;
    if Connected(w, settings, p) { DecisionIs(w, now); }
  }

  /** What the status shown after an evaluation tells. */
  lemma StatusTells(w: World, now: Time, settings: Settings, p: Provider)
    requires ValidConfig(w.service.config) && Connected(w, settings, p)
    ensures var status := Evaluated(w, now, settings, p).service.status;
      && (status == ScalingUp <==> Rises(w, now) && Writable(w, p) && !Failing(w, now))
      && (status == ScalingUpFailover <==> Rises(w, now) && Writable(w, p) && Failing(w, now))
      && (status == FailoverActive <==> Failing(w, now) && !Rises(w, now))
      && (status == ReleaseProtection ==> Active(w.service.phase) && !Rises(w, now) && !Failing(w, now))
      && (status == Collecting ==> !Spanned(w, now) && !Failing(w, now) && !Active(w.service.phase))
      && (status == Stable ==> Spanned(w, now) && !StaysUnder(w, now, w.service.config.downPercent) && !Rises(w, now))
      && (status == AtMinimum ==> StaysUnder(w, now, w.service.config.downPercent))
      && (status == AtMinimum ==> w.cloud.replicas <= w.service.config.minReplicas)
      && (status == Cooldown ==> CoolingDown(w, now))
      && (status in {ScalingDown, DrainRequested, WaitingForReports} ==> Oversized(w, now) && !CoolingDown(w, now))
      && (status == ScalingDown ==> SomeEmptied(w, now) && Writable(w, p) && p.prefer)
      && (status == ScaleFailed ==> !Writable(w, p) || !p.prefer)
      && status !in {Monitoring, ProviderDisabled, ProviderError}
  {
    hide LoadOf, Lost, Failing, Spanned, Reaches, StaysUnder, UpTarget, FailureTarget, StandsIn, FreshAcs, DrainedAcs, Emptied,
      SomeEmptied, Businesses, AvailableCapacity, FirstDrained, LeastLoaded, Evaluated, Applied;
    DecisionIs(w, now);
    LoadIs(w, now);
    ThresholdsAre(w, now);
    StandsInIs(w, now, w.cloud.replicas);
    NothingStandsIn(w, now, w.cloud.replicas);
    StatusOfDecision(w, now, settings, p);
  }

  lemma StatusOfDecision(w: World, now: Time, settings: Settings, p: Provider)
    requires ValidConfig(w.service.config) && Connected(w, settings, p)
    ensures Evaluated(w, now, settings, p).service.status ==
      match Decided(Seen(w, now), now)
      case Hold(status, _) => status
      case ScaleUp(_) =>
        if !Writable(w, p) then ScaleFailed else if LoadOf(Seen(w, now), now).failure then ScalingUpFailover else ScalingUp
      case DrainOne(_) => DrainRequested
      case ScaleDown(_, _) => if Writable(w, p) && p.prefer then ScalingDown else ScaleFailed
  {
    hide LoadOf, Decided, Businesses, AvailableCapacity;
  }
}
