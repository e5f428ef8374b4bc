/** What holds of the autoscaler over whole runs, with release ticks and everybody else in between. */
module ScaleRuns {
  import opened Wrappers
  import opened ImageReference
  import opened Model
  import opened Releases
  import opened Actors
  import opened Autoscaling
  import opened ReleaseInvariant
  import opened Runs
  import opened ReleaseRuns

  // ---------------------------------------------------------------- replicas during a release

  lemma TickLeavesReplicas(w: World, now: Time, settings: Settings, p: Answers)
    requires Inv(w) && Active(w.service.phase)
    ensures Tick(w, now, settings, p).cloud.replicas == w.cloud.replicas
    ensures Tick(w, now, settings, p).service.lastScaledAt == w.service.lastScaledAt
  {
    hide Core, ImagesFixed, GuardKept, Failed, Preflight, Rollout, Canonical, SameImage, GuardIsServing, RepositoryOf,
      RecordVersion, CleanStop;
    FailureCarried(w, now);
    FailureCarried(DrainGuards(w, w.release.value.id), now);
    if w.service.phase == PreflightingLocal {
      PreflightKeeps(w, now, settings);
    } else if LocalPhase(w.service.phase) {
      RolloutKeeps(w, now, settings);
    }
  }

  /** In every run, while a release is active, neither the release nor the autoscaler lowers
      the replica count: only another writer of the register does. */
  lemma ReplicasNotLoweredDuringRelease(t: Trace, n: nat)
    requires Execution(t) && n < |t.run| && Active(t.states[n].service.phase)
    requires t.states[n + 1].cloud.replicas < t.states[n].cloud.replicas
    ensures
      || t.run[n].event.WorkloadEdited?
      || (t.run[n].event.ScaleTick? && t.run[n].event.provider.rival == Some(t.states[n + 1].cloud.replicas))
  {
    hide Execution, Tick, Started, Evaluated, Core, ImagesFixed, GuardKept, VersionsDistinct;
    StepOf(t, n);
    var s, m := t.states[n], t.run[n];
    if m.event.ReleaseTick? {
      TickLeavesReplicas(s, m.now, t.settings, m.event.answers);
    } else if m.event.StartRelease? {
      StartWhileActive(s, m.event.image, m.now);
    } else if m.event.ScaleTick? {
      ReplicaWritesAreSafe(s, m.now, t.settings, m.event.provider);
    }
  }

  // ---------------------------------------------------------------- successful scalings

  /** The evaluation asks the provider to remove this drained instance's replica, and succeeds. */
  function Removal(s: World, m: Moment, settings: Settings): (r: Option<nat>)
    requires ValidConfig(s.service.config)
    ensures r.Some? ==> m.event.ScaleTick? && r.value < |s.instances|
  {
    if m.event.ScaleTick? && Decides(s, settings, m.event.provider)
      && Decided(Seen(s, m.now), m.now).ScaleDown?
      && m.event.provider.prefer && WriteSucceeds(s.cloud, s.cloud.replicas, m.event.provider)
    then Some(Decided(Seen(s, m.now), m.now).instance)
    else None
  }

  /** The evaluation changes the replica count. */
  predicate Scales(s: World, m: Moment, settings: Settings)
    requires ValidConfig(s.service.config)
  {
    || Removal(s, m, settings).Some?
    || (m.event.ScaleTick? && Decides(s, settings, m.event.provider)
        && Decided(Seen(s, m.now), m.now).ScaleUp? && WriteSucceeds(s.cloud, s.cloud.replicas, m.event.provider))
  }

  lemma ScalingIsStamped(s: World, m: Moment, settings: Settings)
    requires ValidConfig(s.service.config) && m.event.ScaleTick?
    ensures Effect(s, m, settings).service.lastScaledAt ==
      if Scales(s, m, settings) then Some(m.now) else s.service.lastScaledAt
  {
    hide LoadOf, Decide, Businesses, AvailableCapacity;
  }

  /** A removal is decided on a fresh elastic instance that was drained, outside the cooldown. */
  lemma RemovalIsDrained(s: World, m: Moment, settings: Settings)
    requires ValidConfig(s.service.config) && Removal(s, m, settings).Some?
    ensures var i := Removal(s, m, settings).value;
      && i < |s.instances| && s.instances[i].pool == Acs && s.instances[i].monitored && s.instances[i].healthy
      && !s.instances[i].accepting && s.instances[i].active == 0 && Withdrawn(s.instances[i].desired)
      && s.instances[i].updatedAt >= m.now - s.service.config.stale
    ensures !Cooling(s.service, m.now) && !Active(s.service.phase)
  {
    hide LoadOf, Businesses, AvailableCapacity, WantsMore;
  }

  // ---------------------------------------------------------------- report times

  /** Names never change; a row's report time changes only by a report under its name; new
      rows are stamped with the present. */
  ghost predicate RowsKept(before: seq<Instance>, after: seq<Instance>, m: Moment) {
    && |before| <= |after|
    && (forall i :: 0 <= i < |before| ==>
          && after[i].name == before[i].name
          && (|| after[i].updatedAt == before[i].updatedAt
              || (m.event.Reports? && m.event.report.name == before[i].name && after[i].updatedAt == m.now)))
    && (forall i :: |before| <= i < |after| ==> after[i].updatedAt == m.now)
  }

  /** Same names and report times. */
  ghost predicate SameRows(before: seq<Instance>, after: seq<Instance>) {
    && |after| == |before|
    && forall i :: 0 <= i < |before| ==>
         && after[i].name == before[i].name && after[i].updatedAt == before[i].updatedAt
         && (after[i].desired == Maintenance ==> before[i].desired == Maintenance)
  }

  lemma FailureRows(w: World, now: Time)
    ensures SameRows(w.instances, Failed(w, now).instances)
  {}

  lemma {:induction false} PreflightFromRows(w: World, k: nat, now: Time, settings: Settings)
    requires w.release.Some? && k <= |w.release.value.steps|
    ensures SameRows(w.instances, PreflightFrom(w, k, now, settings).instances)
    decreases |w.release.value.steps| - k
  {
    hide SameImage, Resolve, CanQueue, Failed;
    var steps := w.release.value.steps;
    FailureRows(w, now);
    if k < |steps| {
      if steps[k].status != StepPending {
        PreflightFromRows(w, k + 1, now, settings);
      } else {
        var found := ResolveStep(w, steps[k]);
        if found.Some? {
          var bound := Rebound(w, steps[k].instance, found.value);
          FailureRows(bound, now);
          PreflightFromRows(SetStep(bound, k, steps[k].(status := StepCompleted)), k + 1, now, settings);
        }
      }
    }
  }

  lemma PreflightRows(w: World, now: Time, settings: Settings)
    requires w.release.Some?
    ensures SameRows(w.instances, Preflight(w, now, settings).instances)
  {
    hide PreflightFrom, Failed;
    FailureRows(w, now);
    PreflightFromRows(w, 0, now, settings);
  }

  lemma {:induction false} RolloutFromRows(w: World, k: nat, now: Time, settings: Settings)
    requires w.release.Some? && k <= |w.release.value.steps|
    ensures SameRows(w.instances, RolloutFrom(w, k, now, settings).0.instances)
    decreases |w.release.value.steps| - k
  {
    hide SameImage, Resolve, CanQueue, Failed, Advance;
    var steps := w.release.value.steps;
    FailureRows(w, now);
    if k < |steps| {
      if steps[k].status == StepCompleted {
        RolloutFromRows(w, k + 1, now, settings);
      } else {
        var step, found := steps[k], ResolveStep(w, steps[k]);
        if found.Some? {
          var bound := Rebound(w, step.instance, found.value);
          AdvanceRows(bound, k, found.value, now, settings);
          RolloutFromRows(SetStep(SetDesired(bound, step.instance, Serve), k, step.(status := StepCompleted)), k + 1, now, settings);
        }
      }
    }
  }

  lemma AdvanceRows(w: World, k: nat, container: nat, now: Time, settings: Settings)
    requires w.release.Some? && k < |w.release.value.steps|
    requires w.release.value.steps[k].instance < |w.instances| && container < |w.containers|
    ensures SameRows(w.instances, Advance(w, k, container, now, settings).instances)
  {
    hide Failed, CanQueue;
    FailureRows(w, now);
  }

  lemma VerifiedRows(w: World, k: nat, t: nat, now: Time)
    requires w.release.Some? && k < |w.release.value.steps| && t < |w.tasks|
    ensures SameRows(w.instances, Verified(w, k, t, now).instances)
  {
    hide Failed, SameImage, Resolve, BackInService;
    FailureRows(w, now);
    var step, found := w.release.value.steps[k], ResolveStep(w, w.release.value.steps[k]);
    if found.Some? { FailureRows(Rebound(w, step.instance, found.value), now); }
  }

  lemma RolloutRows(w: World, now: Time, settings: Settings)
    requires w.release.Some?
    ensures SameRows(w.instances, Rollout(w, now, settings).0.instances)
  {
    hide RolloutFrom, Verified, Failed;
    FailureRows(w, now);
    RolloutFromRows(w, 0, now, settings);
    if w.service.taskId.Some? && w.service.taskId.value < |w.tasks| {
      var k := StepOfTask(w.release.value.steps, w.service.taskId.value);
      if k.Some? { VerifiedRows(w, k.value, w.service.taskId.value, now); }
    }
  }

  lemma TickRows(w: World, now: Time, settings: Settings, p: Answers)
    ensures SameRows(w.instances, Tick(w, now, settings, p).instances)
  {
    hide Failed, Preflight, Rollout, EnsureGuard, SetWorkloadImage, Canonical, SameImage, GuardIsServing, HasGuards,
      GuardsDrained, GuardInstance, RecordVersion;
    FailureRows(w, now);
    if w.release.Some? {
      PreflightRows(w, now, settings);
      RolloutRows(w, now, settings);
      FailureRows(DrainGuards(w, w.release.value.id), now);
    }
  }

  lemma StartedRows(w: World, raw: string, now: Time)
    ensures SameRows(w.instances, Started(w, raw, now).instances)
  {
    hide StartCheck, Canonical, ImageOf, LocalInstances, ByName, IndexOfVersion;
  }

  lemma EffectRows(s: World, m: Moment, settings: Settings)
    requires ValidConfig(s.service.config)
    ensures RowsKept(s.instances, Effect(s, m, settings).instances, m)
  {
    hide Evaluated, Started, ActionCreated, Dispatched, ResultStored, HeartbeatStored, Bound, Configured, Reported, Tick;
    RowsUntouched(s, m, settings);
    match m.event
    case ReleaseTick(p) => TickRows(s, m.now, settings, p);
    case ScaleTick(p) => EvaluationOnlyScales(s, m.now, settings, p);
    case StartRelease(image) => StartedRows(s, image, m.now);
    case Reports(r) => ReportRows(s, r, m, settings);
    case Label(name, c) => LabelRows(s, name, c, m);
    case SamplesPruned(_) =>
    case Enter(_) =>
    case Exit(_) =>
    case Monitor(_, _) =>
    case Limit(_, _) =>
    case Configure(_) =>
    case CreateAction(_, _, _) =>
    case NextTask(_) =>
    case TaskResult(_, _, _, _) =>
    case Heartbeat(_, _) =>
    case WorkloadEdited(_, _) =>
  }

  lemma ReportRows(s: World, r: Report, m: Moment, settings: Settings)
    requires m.event == Reports(r)
    ensures RowsKept(s.instances, Reported(s, r, m.now, settings).instances, m)
  {
    hide ReportRefused, AfterReport;
  }

  lemma LabelRows(s: World, name: int, c: nat, m: Moment)
    ensures RowsKept(s.instances, Bound(s, name, c, m.now).instances, m)
  {
    hide Freed, IndexOfName;
  }

  lemma EffectStamps(s: World, m: Moment, settings: Settings)
    requires Inv(s)
    ensures Effect(s, m, settings).service.lastScaledAt in {s.service.lastScaledAt, Some(m.now)}
  {
    hide Evaluated, Started, ActionCreated, Dispatched, ResultStored, HeartbeatStored, Bound, Configured, Reported, Tick,
      Core, ImagesFixed, GuardKept, VersionsDistinct;
    if m.event.ReleaseTick? {
      if Active(s.service.phase) {
        TickLeavesReplicas(s, m.now, settings, m.event.answers);
      } else {
        TickOfInactive(s, m.now, settings, m.event.answers);
      }
    } else if m.event.ScaleTick? {
      ScalingIsStamped(s, m, settings);
    } else {
      StampUntouched(s, m, settings);
    }
  }

  lemma StampUntouched(s: World, m: Moment, settings: Settings)
    requires ValidConfig(s.service.config) && !m.event.ReleaseTick? && !m.event.ScaleTick?
    ensures Effect(s, m, settings).service.lastScaledAt == s.service.lastScaledAt
  {
    hide StartCheck, Canonical, ValidateTagChange, ImageOf, LocalInstances, ByName, IndexOfVersion, WithSnapshots, Absent,
      Freed, IndexOfName, ReportRefused, NextPending;
  }

  // ---------------------------------------------------------------- over a run

  ghost predicate Monotone(run: seq<Moment>) {
    forall a, b :: 0 <= a <= b < |run| ==> run[a].now <= run[b].now
  }

  // The next two predicates speak of any state equal to the one at the position: a proof unfolds
  // the decision only where it mentions `Scales` or `Removal` of that state.

  /** The autoscaler changes the replica count in the state at this position. */
  ghost predicate ScalesAt(t: Trace, n: nat) {
    && Execution(t) && n < |t.run|
    && forall s :: s == t.states[n] && ValidConfig(s.service.config) ==> Scales(s, t.run[n], t.settings)
  }

  /** It removes instance `i` in the state at this position. */
  ghost predicate RemovesAt(t: Trace, n: nat, i: nat) {
    && Execution(t) && n < |t.run|
    && forall s :: s == t.states[n] && ValidConfig(s.service.config) ==> Removal(s, t.run[n], t.settings) == Some(i)
  }

  lemma RemovesAtIs(t: Trace, n: nat, i: nat)
    requires RemovesAt(t, n, i)
    ensures Execution(t) && n < |t.run| && |t.states| == |t.run| + 1
    ensures Inv(t.states[n]) && Removal(t.states[n], t.run[n], t.settings) == Some(i)
    ensures ScalesAt(t, n)
  {
    hide Execution, Removal, ActiveInv, VersionsDistinct, ValidConfig;
    ExecutionKeepsInv(t, n);
  }

  /** After a successful scaling the recorded time never falls behind it. */
  lemma {:induction false} StampHolds(t: Trace, a: nat, b: nat)
    requires ScalesAt(t, a) && Monotone(t.run) && a < b <= |t.run|
    ensures t.states[b].service.lastScaledAt.Some? && t.states[b].service.lastScaledAt.value >= t.run[a].now
    decreases b
  {
    hide Execution, Scales, ActiveInv, VersionsDistinct, ValidConfig, Effect;
    StepOf(t, b - 1);
    if a == b - 1 {
      assert Scales(t.states[a], t.run[a], t.settings);
      ScalesIsTick(t.states[a], t.run[a], t.settings);
      ScalingIsStamped(t.states[a], t.run[a], t.settings);
    } else {
      StampHolds(t, a, b - 1);
      EffectStamps(t.states[b - 1], t.run[b - 1], t.settings);
    }
  }

  lemma ScalesIsTick(s: World, m: Moment, settings: Settings)
    requires ValidConfig(s.service.config) && Scales(s, m, settings)
    ensures m.event.ScaleTick?
  {
    hide Decided, WriteSucceeds;
  }

  /** Reports are never dated after the present. */
  ghost predicate DatedBy(instances: seq<Instance>, now: Time) {
    forall i :: 0 <= i < |instances| ==> instances[i].updatedAt <= now
  }

  lemma {:induction false} ReportsArePast(t: Trace, n: nat)
    requires Execution(t) && Monotone(t.run) && n < |t.run| && DatedBy(t.states[0].instances, t.run[0].now)
    ensures DatedBy(t.states[n].instances, t.run[n].now)
  {
    hide Execution, ActiveInv, VersionsDistinct, ValidConfig, Effect;
    if n > 0 {
      StepOf(t, n - 1);
      ReportsArePast(t, n - 1);
      EffectRows(t.states[n - 1], t.run[n - 1], t.settings);
    }
  }

  /** Nobody reports under the name between the two positions. */
  ghost predicate Silent(run: seq<Moment>, a: nat, b: nat, name: int)
    requires b <= |run|
  {
    forall n :: a <= n < b && run[n].event.Reports? ==> run[n].event.report.name != name
  }

  lemma {:induction false} SilentRow(t: Trace, a: nat, b: nat, i: nat)
    requires Execution(t) && a <= b <= |t.run| && i < |t.states[a].instances|
    requires Silent(t.run, a, b, t.states[a].instances[i].name)
    ensures i < |t.states[b].instances|
    ensures t.states[b].instances[i].name == t.states[a].instances[i].name
    ensures t.states[b].instances[i].updatedAt == t.states[a].instances[i].updatedAt
    decreases b
  {
    hide Execution, ActiveInv, VersionsDistinct, ValidConfig, Effect;
    if a < b {
      StepOf(t, b - 1);
      SilentRow(t, a, b - 1, i);
      EffectRows(t.states[b - 1], t.run[b - 1], t.settings);
    }
  }

  /** No scale-down within the cooldown of any earlier successful scaling. */
  lemma RemovalsRespectCooldown(t: Trace, a: nat, b: nat, j: nat)
    requires Monotone(t.run) && a < b && ScalesAt(t, a) && RemovesAt(t, b, j)
    ensures t.run[b].now - t.run[a].now >= t.states[b].service.config.cooldown
  {
    hide Execution, ActiveInv, VersionsDistinct, ScalesAt, RemovesAt, Removal, ValidConfig;
    RemovesAtIs(t, b, j);
    StampHolds(t, a, b);
    RemovalIsDrained(t.states[b], t.run[b], t.settings);
  }

  /** In every run with a monotone clock: two scale-downs name different elastic instances,
      provided the report of a removed pod goes stale before the cooldown ends and the pod
      stays silent. Each was fresh, withdrawn, not accepting and without business. */
  lemma RemovalsAreDistinct(t: Trace, a: nat, b: nat, i: nat, j: nat)
    requires Monotone(t.run) && a < b && RemovesAt(t, a, i) && RemovesAt(t, b, j)
    requires DatedBy(t.states[0].instances, t.run[0].now)
    requires t.states[b].service.config.stale < t.states[b].service.config.cooldown
    requires i < |t.states[a].instances| && Silent(t.run, a, b, t.states[a].instances[i].name)
    ensures i != j
    ensures var s := t.states[b];
      && j < |s.instances| && s.instances[j].pool == Acs && Withdrawn(s.instances[j].desired)
      && !s.instances[j].accepting && s.instances[j].active == 0
      && s.instances[j].updatedAt >= t.run[b].now - s.service.config.stale
  {
    hide Removal, Silent, Effect, ActiveInv, VersionsDistinct, ValidConfig, ScalesAt, RemovesAt;
    RemovesAtIs(t, a, i);
    RemovesAtIs(t, b, j);
    RemovalIsDrained(t.states[b], t.run[b], t.settings);
    ReportsArePast(t, a);
    SilentRow(t, a, b, i);
    RemovalsRespectCooldown(t, a, b, j);
  }
}
