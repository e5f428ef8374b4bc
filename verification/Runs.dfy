/** Whole runs: any interleaving of release ticks, autoscaler evaluations, business reports,
    operators, agents and other writers, each one atomic step. */
module Runs {
  import opened Wrappers
  import opened ImageReference
  import opened Model
  import opened Releases
  import opened Actors
  import opened Autoscaling
  import opened ReleaseInvariant

  datatype Event =
    | ReleaseTick(answers: Answers)
    | ScaleTick(provider: Provider)
    | SamplesPruned(from: Time)
    | Reports(report: Report)
    | Enter(instance: nat)
    | Exit(instance: nat)
    | Monitor(instance: nat, monitored: bool)
    | Limit(instance: nat, capacity: nat)
    | Configure(config: Config)
    | StartRelease(image: string)
    | CreateAction(container: nat, action: Action, image: string)
    | NextTask(node: nat)
    | TaskResult(node: nat, task: nat, success: bool, docker: Option<string>)
    | Heartbeat(node: nat, snapshots: seq<Snapshot>)
    | Label(name: int, container: nat)
    | WorkloadEdited(replicas: nat, image: string)

  datatype Moment = Moment(now: Time, event: Event)

  /** One actor's atomic step. The workload may also be edited at the provider directly. */
  function Effect(w: World, m: Moment, settings: Settings): World
    requires ValidConfig(w.service.config)
  {
    match m.event
    case ReleaseTick(p) => Tick(w, m.now, settings, p)
    case ScaleTick(p) => Evaluated(w, m.now, settings, p)
    case SamplesPruned(from) => w.(samples := Window(w.samples, from))
    case Reports(r) => Reported(w, r, m.now, settings)
    case Enter(i) => EnteredMaintenance(w, i)
    case Exit(i) => ExitedMaintenance(w, i)
    case Monitor(i, monitored) => MonitoringSet(w, i, monitored)
    case Limit(i, limit) => CapacitySet(w, i, limit)
    case Configure(config) => Configured(w, config)
    case StartRelease(image) => ReleaseRequested(w, image, m.now, settings)
    case CreateAction(c, action, image) => ActionCreated(w, c, action, image, m.now, settings)
    case NextTask(node) => Dispatched(w, node, m.now)
    case TaskResult(node, t, success, docker) => ResultStored(w, node, t, success, docker, m.now)
    case Heartbeat(node, snapshots) => HeartbeatStored(w, node, snapshots, m.now)
    case Label(name, c) => Bound(w, name, c, m.now)
    case WorkloadEdited(replicas, image) =>
      w.(cloud := w.cloud.(replicas := replicas, workloadImage := image))
  }

  // ---------------------------------------------------------------- the other actors

  /** Rows stay in their pool; while a release is active no serving local instance is
      withdrawn, and none is put into the legacy drain state. */
  ghost predicate Steady(before: seq<Instance>, after: seq<Instance>, active: bool) {
    && |before| <= |after|
    && forall i :: 0 <= i < |before| ==>
         && after[i].pool == before[i].pool
         && (active && before[i].pool == Local ==>
               && (before[i].desired == Serve ==> after[i].desired == Serve)
               && (before[i].desired != Drain ==> after[i].desired != Drain))
  }

  /** The release's own fields are left alone, and so is the configuration while it is active. */
  ghost predicate SameRelease(before: Service, after: Service) {
    && after.phase == before.phase && after.taskId == before.taskId
    && after.desiredImage == before.desiredImage && after.previousImage == before.previousImage
    && after.startedAt == before.startedAt && after.nextRelease == before.nextRelease
    && (after.config == before.config || (!Active(before.phase) && ValidConfig(after.config)))
  }

  ghost predicate Undisturbed(w: World, after: World) {
    && after.release == w.release && after.versions == w.versions
    && after.cloud.guards == w.cloud.guards
    && SameRelease(w.service, after.service)
    && |w.tasks| <= |after.tasks|
    && Steady(w.instances, after.instances, Active(w.service.phase))
  }

  lemma SteadyKeepsCore(steps: seq<Step>, before: seq<Instance>, after: seq<Instance>,
      taskId: Option<nat>, m: nat, n: nat, phase: Phase)
    requires Core(steps, before, taskId, m, phase) && Steady(before, after, true) && m <= n
    ensures Core(steps, after, taskId, n, phase)
  {
    hide Shaped, Carries;
  }

  lemma UndisturbedKeepsInv(w: World, after: World)
    requires Inv(w) && Undisturbed(w, after)
    ensures Inv(after)
  {
    hide Core, Canonical, Steady;
    if Active(w.service.phase) {
      SteadyKeepsCore(w.release.value.steps, w.instances, after.instances, w.service.taskId,
                      |w.tasks|, |after.tasks|, w.service.phase);
    }
  }

  lemma ReportUndisturbed(w: World, r: Report, now: Time, settings: Settings)
    ensures Undisturbed(w, Reported(w, r, now, settings))
  {}

  lemma MaintenanceUndisturbed(w: World, i: nat)
    ensures Undisturbed(w, EnteredMaintenance(w, i)) && Undisturbed(w, ExitedMaintenance(w, i))
  {}

  lemma OperatorsUndisturbed(w: World, i: nat, monitored: bool, limit: nat, config: Config)
    ensures Undisturbed(w, MonitoringSet(w, i, monitored))
    ensures Undisturbed(w, CapacitySet(w, i, limit))
    ensures Undisturbed(w, Configured(w, config))
  {}

  lemma AgentUndisturbed(w: World, node: nat, t: nat, success: bool, docker: Option<string>, now: Time)
    ensures Undisturbed(w, Dispatched(w, node, now))
    ensures Undisturbed(w, ResultStored(w, node, t, success, docker, now))
  {}

  lemma ActionUndisturbed(w: World, c: nat, action: Action, image: string, now: Time, settings: Settings)
    ensures Undisturbed(w, ActionCreated(w, c, action, image, now, settings))
  {
    hide Canonical, ValidateTagChange;
  }

  lemma HeartbeatUndisturbed(w: World, node: nat, snapshots: seq<Snapshot>, now: Time)
    ensures Undisturbed(w, HeartbeatStored(w, node, snapshots, now))
  {
    hide WithSnapshots, Absent;
  }

  lemma LabelUndisturbed(w: World, name: int, c: nat, now: Time)
    ensures Undisturbed(w, Bound(w, name, c, now))
  {
    hide Freed, IndexOfName;
  }

  /** What an evaluation leaves alone, whatever it decides. */
  ghost predicate OnlyScales(w: World, after: World) {
    && after.release == w.release && after.versions == w.versions && after.tasks == w.tasks
    && after.containers == w.containers && after.nodes == w.nodes
    && after.cloud == w.cloud.(replicas := after.cloud.replicas)
    && after.service == w.service.(status := after.service.status, lastScaledAt := after.service.lastScaledAt,
         currentReplicas := after.service.currentReplicas, desiredReplicas := after.service.desiredReplicas)
    && OnlyElasticDesired(w.instances, after.instances)
  }

  lemma AppliedOnlyScales(w: World, load: Load, decision: Decision, now: Time, p: Provider)
    requires decision.DrainOne? ==> decision.instance < |w.instances| && w.instances[decision.instance].pool == Acs
    requires decision.ScaleDown? ==> decision.instance < |w.instances| && w.instances[decision.instance].pool == Acs
    ensures OnlyScales(w, Applied(w, load, decision, now, p))
  {}

  lemma EvaluationOnlyScales(w: World, now: Time, settings: Settings, p: Provider)
    requires ValidConfig(w.service.config)
    ensures OnlyScales(w, Evaluated(w, now, settings, p))
  {
    hide LoadOf, Decide, Applied, Sampled;
    var seen := Seen(w, now);
    SampledOnlyAdds(w, now);
    if Decides(w, settings, p) {
      AppliedOnlyScales(seen, LoadOf(seen, now), Decided(seen, now), now, p);
    }
  }

  lemma SampledOnlyAdds(w: World, now: Time)
    ensures Sampled(w, now) == w.(samples := Sampled(w, now).samples)
  {}

  lemma EvaluationUndisturbed(w: World, now: Time, settings: Settings, p: Provider)
    requires ValidConfig(w.service.config)
    ensures Undisturbed(w, Evaluated(w, now, settings, p))
  {
    hide Evaluated;
    EvaluationOnlyScales(w, now, settings, p);
  }

  // ---------------------------------------------------------------- starting a release

  /** What a start request that is not refused has established. */
  lemma StartEstablishes(w: World, raw: string)
    requires StartCheck(w, raw).Success?
    ensures var target, chosen := StartCheck(w, raw).value, LocalInstances(w.instances);
      && !Active(w.service.phase) && chosen != []
      && (forall i :: i in chosen ==> Replaceable(w, i, target))
      && Canonical(raw) == Some(target)
      && exists i :: i in chosen && !SameImage(ImageOf(w, i), target)
  {
    hide LocalInstances, Replaceable, SameImage, ImageOf, Canonical;
  }

  /** The target of an accepted request is its own canonical text. */
  lemma TargetIsCanonical(w: World, raw: string, target: string, i: nat)
    requires Canonical(raw) == Some(target) && i < |w.instances| && Replaceable(w, i, target)
    ensures IsCanonical(target)
    ensures Canonical(ImageOf(w, i)).Some?
  {
    TagChangeExactly(ImageOf(w, i), target);
    CanonicalIdempotent(raw);
    hide Resolve, ParseTaggedImage, CanonicalText;
  }

  /** The source is its own canonical text too, unless that is too long to be read back. */
  lemma SourceOf(image: string, target: string)
    requires Canonical(image).Some? && IsCanonical(target)
    ensures var source := Text(Canonical(image));
      && ReadsBack(source)
      && (!SameImage(image, target) ==> source != target)
  {
    CanonicalIdempotent(image);
    hide ParseTaggedImage, CanonicalText;
  }

  ghost predicate Distinct(s: seq<nat>) {
    forall j, k :: 0 <= j < k < |s| ==> s[j] != s[k]
  }

  lemma ReorderedDistinct(a: seq<nat>, b: seq<nat>)
    requires Distinct(a) && multiset(a) == multiset(b)
    ensures Distinct(b) && |b| == |a| && forall i :: i in b <==> i in a
  {
    assert |multiset(a)| == |a| && |multiset(b)| == |b|;
    forall i ensures i in b <==> i in a {
      assert i in b <==> i in multiset(b);
      assert i in a <==> i in multiset(a);
    }
    forall j, k | 0 <= j < k < |b| ensures b[j] != b[k] {
      if b[j] == b[k] {
        TwiceCounted(b, j, k);
        OnceCounted(a, b[j]);
      }
    }
  }

  lemma TwiceCounted(s: seq<nat>, j: nat, k: nat)
    requires j < k < |s| && s[j] == s[k]
    ensures multiset(s)[s[j]] >= 2
  {
    assert s == s[..k] + [s[k]] + s[k + 1..];
    assert s[..k][j] == s[j];
  }

  lemma {:induction false} OnceCounted(s: seq<nat>, x: nat)
    requires Distinct(s)
    ensures multiset(s)[x] <= 1
  {
    if s != [] {
      var front, last := s[..|s| - 1], s[|s| - 1];
      assert s == front + [last];
      OnceCounted(front, x);
      assert last !in front;
    }
  }

  lemma PlanIsPlaced(w: World, ordered: seq<nat>, steps: seq<Step>, after: seq<Instance>)
    requires ordered != [] && Distinct(ordered) && |steps| == |ordered| && |after| == |w.instances|
    requires forall k :: 0 <= k < |ordered| ==> steps[k] == Step(ordered[k], StepPending, None)
    requires forall k :: 0 <= k < |ordered| ==>
      && ordered[k] < |w.instances|
      && w.instances[ordered[k]].pool == Local && w.instances[ordered[k]].desired == Serve
    requires forall i :: 0 <= i < |after| ==>
      after[i].pool == w.instances[i].pool && after[i].desired == w.instances[i].desired
    ensures Core(steps, after, None, |w.tasks|, PreflightingLocal)
  {}

  lemma PlannedKeepsCore(w: World, raw: string, now: Time)
    requires StartCheck(w, raw).Success?
    ensures ActiveCore(Started(w, raw, now))
  {
    hide Canonical, SameImage, ImageOf, Core, Resolve, Busy, ValidateTagChange;
    StartEstablishes(w, raw);
    var target, chosen := StartCheck(w, raw).value, LocalInstances(w.instances);
    var ordered := ByName(w.instances, chosen);
    ReorderedDistinct(chosen, ordered);
    var after := Started(w, raw, now);
    forall k | 0 <= k < |ordered|
      ensures ordered[k] < |w.instances| && w.instances[ordered[k]].pool == Local
      ensures w.instances[ordered[k]].desired == Serve
    {
      assert ordered[k] in chosen;
      assert Replaceable(w, ordered[k], target);
    }
    PlanIsPlaced(w, ordered, after.release.value.steps, after.instances);
  }

  /** The images of a new release: with one instance, its image is not the target yet. */
  lemma PlannedImages(w: World, raw: string, now: Time)
    requires StartCheck(w, raw).Success?
    ensures var after := Started(w, raw, now);
      ImagesFixed(after.release.value, after.service.desiredImage)
  {
    hide Canonical, SameImage, ImageOf, LocalInstances, Resolve, Replaceable;
    StartEstablishes(w, raw);
    var target, chosen := StartCheck(w, raw).value, LocalInstances(w.instances);
    var first := chosen[0];
    assert first in chosen;
    TargetIsCanonical(w, raw, target, first);
    SourceOf(ImageOf(w, first), target);
    var ordered := ByName(w.instances, chosen);
    assert |multiset(ordered)| == |ordered| && |multiset(chosen)| == |chosen|;
    if |chosen| == 1 {
      var i :| i in chosen && !SameImage(ImageOf(w, i), target);
      assert i == first;
    }
  }

  lemma VersionAdded(versions: seq<Version>, image: string, now: Time)
    requires VersionsDistinct(versions)
    ensures VersionsDistinct(
      if IndexOfVersion(versions, image).Some? then versions else versions + [Version(image, None, now)])
  {}

  lemma StartedFields(w: World, raw: string, now: Time)
    requires StartCheck(w, raw).Success?
    ensures var after := Started(w, raw, now);
      && after.cloud == w.cloud && after.service.config == w.service.config && after.release.Some?
      && after.service.phase == PreflightingLocal && after.service.nextRelease == w.service.nextRelease + 1
      && after.release.value.id == w.service.nextRelease && after.release.value.guard.None?
      && after.versions == (if IndexOfVersion(w.versions, after.release.value.source).Some? then w.versions
                            else w.versions + [Version(after.release.value.source, None, now)])
  {
    hide StartCheck, Canonical, ImageOf, LocalInstances, ByName;
  }

  lemma StartedKeepsInv(w: World, raw: string, now: Time)
    requires Inv(w)
    ensures Inv(Started(w, raw, now))
  {
    hide StartCheck, Core, ImagesFixed;
    if StartCheck(w, raw).Success? {
      PlannedKeepsCore(w, raw, now);
      PlannedImages(w, raw, now);
      StartedFields(w, raw, now);
      var after := Started(w, raw, now);
      VersionAdded(w.versions, after.release.value.source, now);
      hide Started, VersionsDistinct;
    }
  }

  // ---------------------------------------------------------------- runs

  /** Everything but a release tick and an accepted start leaves the release alone. */
  lemma OthersUndisturbed(w: World, m: Moment, settings: Settings)
    requires ValidConfig(w.service.config) && !m.event.ReleaseTick? && !m.event.StartRelease?
    ensures Undisturbed(w, Effect(w, m, settings))
  {
    hide Undisturbed, Evaluated, Reported, EnteredMaintenance, ExitedMaintenance, MonitoringSet, CapacitySet,
      Configured, ActionCreated, Dispatched, ResultStored, HeartbeatStored, Bound, ValidConfig;
    match m.event
    case ScaleTick(p) => EvaluationUndisturbed(w, m.now, settings, p);
    case Reports(r) => ReportUndisturbed(w, r, m.now, settings);
    case Enter(i) => MaintenanceUndisturbed(w, i);
    case Exit(i) => MaintenanceUndisturbed(w, i);
    case Monitor(i, monitored) => OperatorsUndisturbed(w, i, monitored, 0, w.service.config);
    case Limit(i, limit) => OperatorsUndisturbed(w, i, true, limit, w.service.config);
    case Configure(config) => OperatorsUndisturbed(w, 0, true, 0, config);
    case CreateAction(c, action, image) => ActionUndisturbed(w, c, action, image, m.now, settings);
    case NextTask(node) => AgentUndisturbed(w, node, 0, true, None, m.now);
    case TaskResult(node, t, success, docker) => AgentUndisturbed(w, node, t, success, docker, m.now);
    case Heartbeat(node, snapshots) => HeartbeatUndisturbed(w, node, snapshots, m.now);
    case Label(name, c) => LabelUndisturbed(w, name, c, m.now);
    case SamplesPruned(from) => SamplesUndisturbed(w, from);
    case WorkloadEdited(replicas, image) => EditUndisturbed(w, replicas, image);
  }

  lemma SamplesUndisturbed(w: World, from: Time)
    ensures Undisturbed(w, w.(samples := Window(w.samples, from)))
  {}

  lemma EditUndisturbed(w: World, replicas: nat, image: string)
    ensures Undisturbed(w, w.(cloud := w.cloud.(replicas := replicas, workloadImage := image)))
  {}

  lemma EffectKeepsInv(w: World, m: Moment, settings: Settings)
    requires Inv(w)
    ensures Inv(Effect(w, m, settings))
  {
    hide ActiveInv, VersionsDistinct;
    if m.event.ReleaseTick? {
      TickKeepsInv(w, m.now, settings, m.event.answers);
    } else if m.event.StartRelease? {
      StartedKeepsInv(w, m.event.image, m.now);
    } else {
      OthersUndisturbed(w, m, settings);
      UndisturbedKeepsInv(w, Effect(w, m, settings));
    }
  }

  /** A run: moments, and the states before, between and after them. */
  datatype Trace = Trace(states: seq<World>, run: seq<Moment>, settings: Settings)

  /** The next state is the one the step at this position leads to. */
  ghost predicate FollowsAt(t: Trace, n: nat)
    requires |t.states| == |t.run| + 1 && n < |t.run|
  {
    ValidConfig(t.states[n].service.config) && t.states[n + 1] == Effect(t.states[n], t.run[n], t.settings)
  }

  /** Atomic steps in any order, from a state that satisfies the invariant. */
  ghost predicate Execution(t: Trace) {
    && |t.states| == |t.run| + 1 && Inv(t.states[0])
    && forall n: nat :: n < |t.run| ==> FollowsAt(t, n)
  }

  /** The invariant holds in every state of every run. */
  lemma {:induction false} ExecutionKeepsInv(t: Trace, n: nat)
    requires Execution(t) && n <= |t.run|
    ensures |t.states| == |t.run| + 1 && Inv(t.states[n])
  {
    hide Inv, Effect;
    if n > 0 {
      ExecutionKeepsInv(t, n - 1);
      assert FollowsAt(t, n - 1);
      EffectKeepsInv(t.states[n - 1], t.run[n - 1], t.settings);
    }
  }

  lemma StepOf(t: Trace, n: nat)
    requires Execution(t) && n < |t.run|
    ensures |t.states| == |t.run| + 1 && Inv(t.states[n]) && Inv(t.states[n + 1])
    ensures t.states[n + 1] == Effect(t.states[n], t.run[n], t.settings)
  {
    hide Inv, Effect;
    ExecutionKeepsInv(t, n);
    ExecutionKeepsInv(t, n + 1);
    assert FollowsAt(t, n);
  }

  /** What happens determines the run. */
  lemma {:induction false} SameCourse(t: Trace, u: Trace, n: nat)
    requires Execution(t) && Execution(u) && t.states[0] == u.states[0] && t.settings == u.settings
    requires n <= |t.run| && n <= |u.run| && t.run[..n] == u.run[..n]
    ensures |t.states| == |t.run| + 1 && |u.states| == |u.run| + 1 && t.states[n] == u.states[n]
  {
    hide Inv, Effect;
    if n > 0 {
      assert t.run[n - 1] == t.run[..n][n - 1] == u.run[n - 1];
      assert t.run[..n - 1] == t.run[..n][..n - 1] == u.run[..n][..n - 1] == u.run[..n - 1];
      SameCourse(t, u, n - 1);
      assert FollowsAt(t, n - 1) && FollowsAt(u, n - 1);
    }
  }

  /** Whatever happens, in whatever order, there is a run in which it does. */
  lemma {:induction false} EveryRunExecutes(w: World, run: seq<Moment>, settings: Settings) returns (t: Trace)
    requires Inv(w)
    ensures Execution(t) && t.states[0] == w && t.run == run && t.settings == settings
  {
    hide Inv, Effect;
    if run == [] {
      t := Trace([w], [], settings);
    } else {
      var front, last := run[..|run| - 1], run[|run| - 1];
      var before := EveryRunExecutes(w, front, settings);
      t := Extended(before, last);
    }
  }

  lemma Extended(before: Trace, m: Moment) returns (t: Trace)
    requires Execution(before)
    ensures Execution(t) && t.states[0] == before.states[0] && t.run == before.run + [m] && t.settings == before.settings
  {
    hide Effect, ActiveInv, VersionsDistinct, ValidConfig;
    var s := before.states[|before.run|];
    ExecutionKeepsInv(before, |before.run|);
    t := Trace(before.states + [Effect(s, m, before.settings)], before.run + [m], before.settings);
    forall n: nat | n < |t.run| ensures FollowsAt(t, n) {
      if n < |before.run| { assert FollowsAt(before, n); }
    }
  }
}
