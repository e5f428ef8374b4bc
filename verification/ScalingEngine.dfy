/** `cloudhelm/autoscaling.py` as it works: sums over the rows in loops, then one cascade of
    decisions that assigns the service row and the drain states in place. */
module ScalingEngine {
  import opened Wrappers
  import opened Model
  import opened Autoscaling
  import opened Rows

  /** `_cancel_drains`. */
  method CancelDrains(db: Session)
    modifies db`instances
    ensures db.State() == DrainsCancelled(old(db.State()))
  {
    ghost var before := db.instances;
    for i := 0 to |db.instances|
      invariant |db.instances| == |before| && db.instances[i..] == before[i..]
      invariant db.instances[..i] == DrainsCancelled(old(db.State())).instances[..i]
    {
      assert db.instances[i] == before[i];
      var row := db.instances[i];
      if row.monitored && row.pool == Acs && Withdrawn(row.desired) {
        db.SetDesired(i, Serve);
      }
      assert db.instances[i] == DrainsCancelled(old(db.State())).instances[i];
      assert db.instances[..i + 1] == db.instances[..i] + [db.instances[i]];
    }
  }

  /** The totals the evaluation takes from the rows. */
  method Totals(db: Session, now: Time)
    returns (businesses: nat, capacity: nat, healthyLocal: nat, missing: nat, failure: bool)
    ensures var w, n := db.State(), |db.instances|;
      && businesses == Businesses(w, n, now) && capacity == AvailableCapacity(w, n, now)
      && healthyLocal == HealthyLocalCapacity(w, n, now) && missing == MissingCapacity(w, n, now)
      && failure == LocalFailure(w, now)
  {
    hide Available, LocalDown, Fresh, CapacityOf;
    businesses, capacity, healthyLocal, missing, failure := 0, 0, 0, 0, false;
    for i := 0 to |db.instances|
      invariant businesses == Businesses(db.State(), i, now) && capacity == AvailableCapacity(db.State(), i, now)
      invariant healthyLocal == HealthyLocalCapacity(db.State(), i, now) && missing == MissingCapacity(db.State(), i, now)
      invariant failure <==> exists j :: 0 <= j < i && LocalDown(db.State(), db.instances[j], now)
    {
      var row := db.instances[i];
      if Fresh(db.State(), row, now) { businesses := businesses + row.active; }
      if Available(db.State(), row, now) {
        capacity := capacity + CapacityOf(db.service.config, row);
        if row.pool == Local { healthyLocal := healthyLocal + CapacityOf(db.service.config, row); }
      }
      if LocalDown(db.State(), row, now) {
        missing := missing + CapacityOf(db.service.config, row);
        failure := true;
      }
    }
  }

  /** The samples of the window, their sums and their ends. */
  method ReadWindow(samples: seq<Sample>, from: Time, length: Time)
    returns (average: real, utilization: real, ready: bool)
    ensures var window := Window(samples, from); var mean := Mean(TotalBusinesses(window), |window|);
      && average == mean && utilization == Utilization(mean, Mean(TotalCapacity(window), |window|))
      && ready == Covered(window, length)
  {
    ghost var window := Window(samples[..0], from);
    var count, businesses, capacity, first, last := 0, 0, 0, 0, 0;
    for i := 0 to |samples|
      invariant window == Window(samples[..i], from) && count == |window|
      invariant businesses == TotalBusinesses(window) && capacity == TotalCapacity(window)
      invariant window != [] ==> first == Earliest(window) && last == Latest(window)
    {
      assert samples[..i + 1][..i] == samples[..i];
      if samples[i].at >= from {
        ghost var longer := window + [samples[i]];
        assert longer[..|window|] == window;
        first := if count == 0 || samples[i].at < first then samples[i].at else first;
        last := if count == 0 || samples[i].at > last then samples[i].at else last;
        count, businesses, capacity := count + 1, businesses + samples[i].businesses, capacity + samples[i].capacity;
        window := longer;
      }
    }
    assert samples[..|samples|] == samples;
    average := Mean(businesses, count);
    utilization := Utilization(average, Mean(capacity, count));
    ready := count >= 2 && 5 * (last - first) >= 4 * length;
  }

  /** The first drained elastic instance. */
  method FindDrained(db: Session, now: Time) returns (found: Option<nat>)
    ensures found == FirstDrained(db.State(), |db.instances|, now)
  {
    found := None;
    for i := 0 to |db.instances|
      invariant found == FirstDrained(db.State(), i, now)
    {
      if found.None? && DrainedAcs(db.State(), i, now) { found := Some(i); }
    }
  }

  /** `min` over the serving elastic instances: the first of the least. */
  method FindLeastLoaded(db: Session, now: Time) returns (found: Option<nat>)
    ensures found == LeastLoaded(db.State(), |db.instances|, now)
  {
    found := None;
    for i := 0 to |db.instances|
      invariant found == LeastLoaded(db.State(), i, now)
    {
      if ServingAcs(db.State(), i, now) {
        if found.None? || Lighter(db.instances[i], db.instances[found.value]) { found := Some(i); }
      }
    }
  }

  /** The conditional write; false stands for the provider's refusal or failure. */
  method SetReplicas(db: Session, expected: nat, target: nat, p: Provider) returns (written: bool)
    modifies db`cloud
    ensures written == WriteSucceeds(old(db.cloud), expected, p)
    ensures db.State() == old(db.State()).(cloud := AfterWrite(old(db.cloud), expected, target, p))
  {
    if p.rival.Some? { db.cloud := db.cloud.(replicas := p.rival.value); }
    written := p.write && db.cloud.replicas == expected;
    if written { db.cloud := db.cloud.(replicas := target); }
  }

  method SetStatus(db: Session, status: ScaleStatus)
    modifies db`service
    ensures db.State() == WithStatus(old(db.State()), status)
  {
    db.service := db.service.(status := status);
  }

  method ScaleUpTo(db: Session, load: Load, now: Time, p: Provider)
    requires ValidConfig(db.service.config)
    modifies db
    ensures db.State() == ScaledUp(old(db.State()), load, TargetOf(old(db.State()), load), now, p)
  {
    hide DrainsCancelled, FailureTarget, LoadTarget;
    var config, current := db.service.config, db.cloud.replicas;
    CancelDrains(db);
    var target := Max(Max(current + config.upStep, FailureTarget(config, load)), LoadTarget(config, load));
    target := Min(config.maxReplicas, Max(config.minReplicas, target));
    var written := SetReplicas(db, current, target, p);
    if written {
      db.service := db.service.(desiredReplicas := target, lastScaledAt := Some(now),
                                status := if load.failure then ScalingUpFailover else ScalingUp);
    } else {
      SetStatus(db, ScaleFailed);
    }
  }

  function TargetOf(w: World, load: Load): nat
    requires ValidConfig(w.service.config)
  {
    UpTarget(w.service.config, load, w.cloud.replicas)
  }

  method ScaleDownTo(db: Session, i: nat, target: nat, now: Time, p: Provider)
    requires i < |db.instances|
    modifies db
    ensures db.State() == ScaledDown(old(db.State()), i, target, now, p)
  {
    var current := db.cloud.replicas;
    var written := SetReplicas(db, current, target, p.(write := p.write && p.prefer));
    if written {
      db.service := db.service.(desiredReplicas := target, lastScaledAt := Some(now), status := ScalingDown);
    } else {
      db.SetDesired(i, Serve);
      SetStatus(db, ScaleFailed);
    }
  }

  method HoldAt(db: Session, status: ScaleStatus, cancel: bool)
    modifies db
    ensures db.State() == WithStatus(if cancel then DrainsCancelled(old(db.State())) else old(db.State()), status)
  {
    hide DrainsCancelled;
    if cancel { CancelDrains(db); }
    SetStatus(db, status);
  }

  /** The cascade after the replica count has been read. */
  method Act(db: Session, load: Load, now: Time, p: Provider)
    requires ValidConfig(db.service.config)
    modifies db
    ensures db.State() == Applied(old(db.State()), load, Decide(old(db.State()), load, old(db.cloud.replicas), now), now, p)
  {
    hide DrainsCancelled, FailureTarget, LoadTarget, FirstDrained, LeastLoaded, ScaledUp, ScaledDown, ServingAcs, DrainedAcs;
    var config, current, cooling := db.service.config, db.cloud.replicas, Cooling(db.service, now);
    var short := load.failure && current < FailureTarget(config, load);
    var busy := load.ready && load.utilization >= config.upPercent;
    if (short || busy) && current < config.maxReplicas {
      if cooling && !load.failure {
        HoldAt(db, Cooldown, true);
      } else {
        ScaleUpTo(db, load, now, p);
      }
      return;
    }
    if load.failure { HoldAt(db, FailoverActive, true); return; }
    if Active(db.service.phase) { HoldAt(db, ReleaseProtection, true); return; }
    if !load.ready { HoldAt(db, Collecting, true); return; }
    if load.utilization >= config.downPercent { HoldAt(db, Stable, true); return; }
    if current <= config.minReplicas { HoldAt(db, AtMinimum, true); return; }
    if cooling { HoldAt(db, Cooldown, false); return; }
    var drained := FindDrained(db, now);
    if drained.Some? {
      ScaleDownTo(db, drained.value, Max(config.minReplicas, current - 1), now, p);
      return;
    }
    var candidate := FindLeastLoaded(db, now);
    if candidate.None? { HoldAt(db, WaitingForReports, false); return; }
    db.SetDesired(candidate.value, Draining);
    SetStatus(db, DrainRequested);
  }

  /** Storing the sample and the replica count does not change what the rows add up to. */
  lemma {:induction false} SameTotals(w: World, seen: World, n: nat, now: Time)
    requires seen.instances == w.instances && seen.containers == w.containers && seen.service.config == w.service.config
    requires n <= |w.instances|
    ensures MissingCapacity(seen, n, now) == MissingCapacity(w, n, now)
    ensures HealthyLocalCapacity(seen, n, now) == HealthyLocalCapacity(w, n, now)
    ensures LocalFailure(seen, now) == LocalFailure(w, now)
  {
    if n > 0 { SameTotals(w, seen, n - 1, now); }
    forall i | 0 <= i < |w.instances| ensures LocalDown(seen, w.instances[i], now) == LocalDown(w, w.instances[i], now) {}
  }

  /** `evaluate_service`. */
  method EvaluateService(db: Session, now: Time, settings: Settings, p: Provider)
    requires ValidConfig(db.service.config)
    modifies db
    ensures db.State() == Evaluated(old(db.State()), now, settings, p)
  {
    hide Window, Covered, LocalFailure, Decide, Applied, Mean, Utilization, Businesses, AvailableCapacity, DrainsCancelled,
      MissingCapacity, HealthyLocalCapacity, TotalBusinesses, TotalCapacity;
    SameTotals(db.State(), Seen(db.State(), now), |db.instances|, now);
    var businesses, capacity, healthyLocal, missing, failure := Totals(db, now);
    db.samples := db.samples + [Sample(now, businesses, capacity)];
    var average, utilization, ready := ReadWindow(db.samples, now - db.service.config.window, db.service.config.window);
    if !db.service.config.autoscaling { HoldAt(db, Monitoring, true); return; }
    if !settings.autoscaling { HoldAt(db, ProviderDisabled, false); return; }
    if !p.read { HoldAt(db, ProviderError, false); return; }
    db.service := db.service.(currentReplicas := db.cloud.replicas, desiredReplicas := db.cloud.replicas);
    Act(db, Load(average, utilization, ready, failure, missing, healthyLocal), now, p);
  }
}
