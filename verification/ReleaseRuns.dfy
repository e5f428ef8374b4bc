/** What holds of releases over whole runs. */
module ReleaseRuns {
  import opened Wrappers
  import opened ImageReference
  import opened Model
  import opened Releases
  import opened Actors
  import opened Autoscaling
  import opened ReleaseInvariant
  import opened ReleaseTicks
  import opened Runs

  // ---------------------------------------------------------------- serial rollout

  function Serving(steps: seq<Step>, instances: seq<Instance>): nat {
    if steps == [] then 0
    else
      var last := steps[|steps| - 1];
      Serving(steps[..|steps| - 1], instances)
        + if last.instance < |instances| && instances[last.instance].desired == Serve then 1 else 0
  }

  lemma {:induction false} AllServing(steps: seq<Step>, instances: seq<Instance>)
    requires forall k :: 0 <= k < |steps| ==>
      steps[k].instance < |instances| && instances[steps[k].instance].desired == Serve
    ensures Serving(steps, instances) == |steps|
  {
    if steps != [] { AllServing(steps[..|steps| - 1], instances); }
  }

  lemma {:induction false} AllButOneServing(steps: seq<Step>, instances: seq<Instance>, k: nat)
    requires k < |steps|
    requires forall j :: 0 <= j < |steps| && j != k ==>
      steps[j].instance < |instances| && instances[steps[j].instance].desired == Serve
    ensures Serving(steps, instances) >= |steps| - 1
  {
    var n := |steps| - 1;
    if k == n {
      AllServing(steps[..n], instances);
    } else {
      AllButOneServing(steps[..n], instances, k);
    }
  }

  /** In every state of every run, while a release is active: at most one step is draining,
      updating or verifying, all steps below it are completed, the instance of every other
      step serves, and so at least all but one of the local instances are in service. */
  lemma SerialRollout(t: Trace, n: nat)
    requires Execution(t) && n <= |t.run| && Active(t.states[n].service.phase)
    ensures var s := t.states[n];
      && s.release.Some?
      && var steps := s.release.value.steps;
         && (forall j, k :: 0 <= j < k < |steps| && InFlight(steps[k].status) ==> steps[j].status == StepCompleted)
         && (forall j, k :: 0 <= j < k < |steps| && InFlight(steps[j].status) ==> !InFlight(steps[k].status))
         && (forall k :: 0 <= k < |steps| ==> steps[k].instance < |s.instances|)
         && (forall k :: 0 <= k < |steps| && s.instances[steps[k].instance].desired != Serve ==> InFlight(steps[k].status))
         && Serving(steps, s.instances) >= |steps| - 1
  {
    hide Execution, ImagesFixed, GuardKept, Carries;
    ExecutionKeepsInv(t, n);
    var s := t.states[n];
    var steps := s.release.value.steps;
    if k :| 0 <= k < |steps| && InFlight(steps[k].status) {
      AllButOneServing(steps, s.instances, k);
    } else {
      AllServing(steps, s.instances);
    }
  }

  // ---------------------------------------------------------------- failing

  /** In every run: a release tick that stops an active release leaves no step in flight, no
      task of the release waiting for dispatch, and every instance serving or coming back. */
  lemma FailureIsClean(t: Trace, n: nat)
    requires Execution(t) && n < |t.run| && t.run[n].event.ReleaseTick?
    requires Active(t.states[n].service.phase) && t.states[n + 1].service.phase == ReleaseFailed
    ensures CleanStop(t.states[n].service.taskId, t.states[n + 1])
  {
    hide Execution, Inv, CleanStop, Tick;
    StepOf(t, n);
    TickFailsCleanly(t.states[n], t.run[n].now, t.settings, t.run[n].event.answers);
  }

  /** In every run: while a release is active, a step carries a task exactly when it is
      preparing, updating or verifying; that task is the recorded one; at most one step does,
      and one does exactly when a task is recorded. */
  lemma TaskRecordedExactly(t: Trace, n: nat)
    requires Execution(t) && n <= |t.run| && Active(t.states[n].service.phase)
    ensures var s := t.states[n];
      && s.release.Some?
      && var steps := s.release.value.steps;
         && (forall k :: 0 <= k < |steps| ==> (NeedsTask(steps[k].status) <==> steps[k].task.Some?))
         && (forall k :: 0 <= k < |steps| && steps[k].task.Some? ==> steps[k].task == s.service.taskId)
         && (forall j, k :: 0 <= j < k < |steps| && steps[j].task.Some? ==> steps[k].task.None?)
         && (s.service.taskId.Some? ==>
               s.service.taskId.value < |s.tasks| && exists k :: 0 <= k < |steps| && steps[k].task == s.service.taskId)
  {
    hide Execution, ImagesFixed, GuardKept, Placed, OthersServe, Shaped;
    ExecutionKeepsInv(t, n);
    var s := t.states[n];
    if s.service.taskId.Some? {
      var k: nat :| Carries(s.release.value.steps, k, s.service.taskId.value);
    }
  }

  /** The update task of a stopped release can still be completed: its result switches the
      container to the target exactly when it reports success with the new container's id,
      the task had no result before the release stopped, and the id is free. Neither expiring
      the task nor stopping the release prevents it. */
  lemma LateResultSwitchesImage(w: World, now: Time, success: bool, docker: Option<string>, later: Time)
    requires ActiveCore(w) && w.service.taskId.Some?
    requires var t := w.service.taskId.value;
      && t < |w.tasks| && w.tasks[t].action == UpdateImage && w.tasks[t].container < |w.containers|
      && w.containers[w.tasks[t].container].image != w.tasks[t].target
    ensures var t := w.service.taskId.value; var task := w.tasks[t];
      var after := ResultStored(Failed(w, now), task.node, t, success, docker, later);
      && after.service.phase == ReleaseFailed && |after.containers| == |w.containers|
      && (after.containers[task.container].image == task.target <==>
            && task.status !in {TaskSuccess, TaskFailed} && success && docker.Some? && task.target != ""
            && !Clashes(w.containers, task.container, docker.value))
  {
    hide Failed, OthersServe, Linked, Shaped, Clashes;
    FailureExpires(w, now);
    FailureMarks(w, now);
    FailureCarried(w, now);
  }

  /** A task an agent has fetched is pending again, for a stopping release to expire, exactly
      when it is overdue and not the task that the same request hands out. */
  lemma FetchedTaskIsPendingAgain(w: World, node: nat, now: Time, t: nat)
    requires t < |w.tasks| && w.tasks[t].status == TaskDispatched
    ensures t < |Dispatched(w, node, now).tasks|
    ensures Dispatched(w, node, now).tasks[t].status == TaskPending <==>
      Overdue(w.tasks[t], node, now) && NextPending(Redelivered(w.tasks, node, now), node) != Some(t)
  {
    hide NextPending;
  }

  // ---------------------------------------------------------------- a failed release's guard

  /** In every run: the guard of a release that failed after its creation, and while its only
      instance may still be coming back, is left alone from then on, whatever follows. */
  lemma FailedReleaseKeepsGuard(t: Trace, n: nat, b: nat)
    requires Execution(t) && n < b <= |t.run| && t.run[n].event.ReleaseTick?
    requires Active(t.states[n].service.phase) && t.states[n + 1].service.phase == ReleaseFailed
    requires t.states[n].release.Some? && |t.states[n].release.value.steps| == 1
    requires t.states[n].service.phase != PreflightingLocal && t.states[n].service.phase != PreparingGuard
    ensures var r := t.states[n].release.value; var guards := t.states[b].cloud.guards;
      r.id in guards && guards[r.id] == r.source
  {
    hide Execution, Core, ImagesFixed, VersionsDistinct, ValidConfig, Effect;
    StepOf(t, n);
    FailingTickKeepsGuards(t.states[n], t.run[n], t.settings);
    ForeignGuardStays(t, n + 1, b, t.states[n].release.value.id);
  }

  lemma FailingTickKeepsGuards(s: World, m: Moment, settings: Settings)
    requires Inv(s) && Active(s.service.phase) && m.event.ReleaseTick?
    requires Effect(s, m, settings).service.phase == ReleaseFailed
    ensures Effect(s, m, settings).cloud.guards == s.cloud.guards
  {
    hide Core, ImagesFixed, GuardKept, VersionsDistinct;
    TickFailureKeepsGuards(s, m.now, settings, m.event.answers);
  }

  /** A guard that does not belong to an active release. */
  ghost predicate Foreign(s: World, id: nat) {
    id in s.cloud.guards && (Active(s.service.phase) && s.release.Some? ==> s.release.value.id != id)
  }

  lemma EffectKeepsForeignGuard(s: World, m: Moment, settings: Settings, id: nat)
    requires Inv(s) && Foreign(s, id)
    ensures var after := Effect(s, m, settings);
      Foreign(after, id) && after.cloud.guards[id] == s.cloud.guards[id]
  {
    hide Tick, Started, StartCheck, Core, ImagesFixed, GuardKept, VersionsDistinct;
    if m.event.ReleaseTick? && Active(s.service.phase) {
      TickOrders(s, m.now, settings, m.event.answers);
      TickKeepsForeignGuard(s, m.now, settings, m.event.answers, id);
    } else if m.event.StartRelease? && settings.autoscaling && StartCheck(s, m.event.image).Success? {
      StartedFields(s, m.event.image, m.now);
    } else {
      QuietEffect(s, m, settings);
    }
  }

  lemma {:induction false} ForeignGuardStays(t: Trace, a: nat, b: nat, id: nat)
    requires Execution(t) && a <= b <= |t.run| && Foreign(t.states[a], id)
    ensures Foreign(t.states[b], id) && t.states[b].cloud.guards[id] == t.states[a].cloud.guards[id]
  {
    hide Execution, Inv, Effect;
    if a < b {
      StepOf(t, b - 1);
      ForeignGuardStays(t, a, b - 1, id);
      EffectKeepsForeignGuard(t.states[b - 1], t.run[b - 1], t.settings, id);
    }
  }

  // ---------------------------------------------------------------- what happened earlier

  /** Something one release tick found. */
  datatype Fact =
    | GuardWasConfirmed
    | RolloutWasReady
    | StepWasOnTarget(step: nat)
    | StepWasDrained(step: nat)

  ghost predicate Found(s: World, m: Moment, release: nat, fact: Fact) {
    && m.event.ReleaseTick? && Active(s.service.phase) && s.release.Some? && s.release.value.id == release
    && match fact
       case GuardWasConfirmed => GuardConfirmed(s, m.now, m.event.answers)
       case RolloutWasReady => RolloutReady(s, m.event.answers)
       case StepWasOnTarget(k) => k < |s.release.value.steps| && OnTarget(s, s.release.value.steps[k])
       case StepWasDrained(k) =>
         && k < |s.release.value.steps| && s.release.value.steps[k].status == StepDraining
         && s.release.value.steps[k].instance < |s.instances|
         && Drained(s.instances[s.release.value.steps[k].instance])
  }

  /** Some tick before the given position found it. */
  ghost predicate Happened(t: Trace, n: nat, release: nat, fact: Fact)
    requires n <= |t.run| <= |t.states|
  {
    exists i :: 0 <= i < n && Found(t.states[i], t.run[i], release, fact)
  }

  /** What must have been found before a release can be where it is. */
  ghost predicate Accounted(t: Trace, n: nat, s: World)
    requires n <= |t.run| <= |t.states|
  {
    Active(s.service.phase) && s.release.Some? ==>
      var r := s.release.value;
      && (|r.steps| == 1 && !Early(s.service.phase) ==> Happened(t, n, r.id, GuardWasConfirmed))
      && (s.service.phase == CleaningGuard ==> Happened(t, n, r.id, RolloutWasReady))
      && forall k :: 0 <= k < |r.steps| ==>
           && (r.steps[k].status == StepCompleted ==> Happened(t, n, r.id, StepWasOnTarget(k)))
           && (r.steps[k].status in {StepUpdating, StepVerifying} ==> Happened(t, n, r.id, StepWasDrained(k)))
  }

  /** A release tick of the run, at a position where a release is active. */
  ghost predicate TickAt(t: Trace, n: nat) {
    && Execution(t) && n < |t.run| && t.run[n].event.ReleaseTick?
    && Active(t.states[n].service.phase) && t.states[n].release.Some?
  }

  lemma GuardAccounted(t: Trace, n: nat)
    requires TickAt(t, n) && Accounted(t, n, t.states[n]) && |t.states[n].release.value.steps| == 1
    requires Active(t.states[n + 1].service.phase) && !Early(t.states[n + 1].service.phase)
    ensures Happened(t, n + 1, t.states[n].release.value.id, GuardWasConfirmed)
  {
    hide Execution, Tick, GuardConfirmed, Core, ImagesFixed, GuardKept;
    StepOf(t, n);
    var s, m := t.states[n], t.run[n];
    if Early(s.service.phase) {
      TickPassesGuard(s, m.now, t.settings, m.event.answers);
      assert Found(s, m, s.release.value.id, GuardWasConfirmed);
    }
  }

  lemma RolloutAccounted(t: Trace, n: nat)
    requires TickAt(t, n) && Accounted(t, n, t.states[n])
    requires t.states[n + 1].service.phase in {CleaningGuard, ReleaseCompleted}
    ensures Happened(t, n + 1, t.states[n].release.value.id, RolloutWasReady)
  {
    hide Execution, Tick, RolloutReady, Core, ImagesFixed, GuardKept;
    StepOf(t, n);
    var s, m := t.states[n], t.run[n];
    if s.service.phase != CleaningGuard {
      TickFinishesRollout(s, m.now, t.settings, m.event.answers);
      assert Found(s, m, s.release.value.id, RolloutWasReady);
    }
  }

  lemma StepAccounted(t: Trace, n: nat, k: nat)
    requires TickAt(t, n) && Accounted(t, n, t.states[n]) && k < |t.states[n].release.value.steps|
    ensures var after := t.states[n + 1]; var id := t.states[n].release.value.id;
      && after.release.Some? && k < |after.release.value.steps|
      && var status := after.release.value.steps[k].status;
         && (status == StepCompleted ==> Happened(t, n + 1, id, StepWasOnTarget(k)))
         && (status in {StepUpdating, StepVerifying} ==> Happened(t, n + 1, id, StepWasDrained(k)))
  {
    hide Execution, Tick, Core, ImagesFixed, GuardKept, OnTarget, Drained;
    StepOf(t, n);
    var s, m, after := t.states[n], t.run[n], t.states[n + 1];
    var id := s.release.value.id;
    TickMoves(s, m.now, t.settings, m.event.answers);
    assert Moves(s, s.release.value.steps[k], after.release.value.steps[k]);
    assert OnTarget(s, s.release.value.steps[k]) ==> Found(s, m, id, StepWasOnTarget(k));
    if after.release.value.steps[k].status == StepUpdating && s.release.value.steps[k].status == StepDraining {
      assert Found(s, m, id, StepWasDrained(k));
    }
  }

  lemma TickAccounted(t: Trace, n: nat)
    requires TickAt(t, n) && Accounted(t, n, t.states[n])
    ensures Accounted(t, n + 1, t.states[n + 1])
  {
    hide Execution, Happened, Tick, Core, ImagesFixed, GuardKept;
    StepOf(t, n);
    var s, m, after := t.states[n], t.run[n], t.states[n + 1];
    TickOrders(s, m.now, t.settings, m.event.answers);
    if Active(after.service.phase) {
      if |s.release.value.steps| == 1 && !Early(after.service.phase) { GuardAccounted(t, n); }
      if after.service.phase == CleaningGuard { RolloutAccounted(t, n); }
      forall k | 0 <= k < |s.release.value.steps|
        ensures after.release.value.steps[k].status == StepCompleted ==>
          Happened(t, n + 1, s.release.value.id, StepWasOnTarget(k))
        ensures after.release.value.steps[k].status in {StepUpdating, StepVerifying} ==>
          Happened(t, n + 1, s.release.value.id, StepWasDrained(k))
      {
        StepAccounted(t, n, k);
      }
    }
  }

  lemma SameReleaseAccounted(t: Trace, n: nat, s: World, after: World)
    requires n < |t.run| <= |t.states| && Accounted(t, n, s)
    requires after.release == s.release && after.service.phase == s.service.phase
    ensures Accounted(t, n + 1, after)
  {
    hide Found;
  }

  /** A new release is at its beginning. */
  lemma StartIsEarly(w: World, raw: string, now: Time)
    requires StartCheck(w, raw).Success?
    ensures var after := Started(w, raw, now);
      && after.service.phase == PreflightingLocal && after.release.Some?
      && forall k :: 0 <= k < |after.release.value.steps| ==> after.release.value.steps[k].status == StepPending
  {
    hide StartCheck, Canonical, ImageOf, LocalInstances, ByName, BindResolved, IndexOfVersion;
  }

  lemma EffectAccounted(t: Trace, n: nat)
    requires Execution(t) && n < |t.run| && Accounted(t, n, t.states[n])
    ensures Accounted(t, n + 1, t.states[n + 1])
  {
    hide Execution, Happened, Tick, Started, StartCheck, Core, ImagesFixed, GuardKept, VersionsDistinct, ValidConfig;
    StepOf(t, n);
    var s, m := t.states[n], t.run[n];
    if m.event.ReleaseTick? && Active(s.service.phase) {
      assert TickAt(t, n);
      TickAccounted(t, n);
    } else if m.event.StartRelease? && t.settings.autoscaling && StartCheck(s, m.event.image).Success? {
      StartIsEarly(s, m.event.image, m.now);
    } else {
      QuietEffect(s, m, t.settings);
      SameReleaseAccounted(t, n, s, t.states[n + 1]);
    }
  }

  /** Anything but a tick of an active release and an accepted start. */
  lemma QuietEffect(s: World, m: Moment, settings: Settings)
    requires ValidConfig(s.service.config)
    requires m.event.ReleaseTick? ==> !Active(s.service.phase)
    requires m.event.StartRelease? ==> !settings.autoscaling || StartCheck(s, m.event.image).Failure?
    ensures Undisturbed(s, Effect(s, m, settings))
  {
    hide StartCheck;
    if !m.event.ReleaseTick? && !m.event.StartRelease? {
      OthersUndisturbed(s, m, settings);
    } else {
      assert Effect(s, m, settings) == s;
    }
  }

  /** A run that begins without a release. */
  ghost predicate FromRest(t: Trace) {
    Execution(t) && !Active(t.states[0].service.phase)
  }

  lemma {:induction false} RunAccounted(t: Trace, n: nat)
    requires FromRest(t) && n <= |t.run|
    ensures Accounted(t, n, t.states[n])
  {
    hide Execution, Happened;
    if n > 0 {
      RunAccounted(t, n - 1);
      EffectAccounted(t, n - 1);
    }
  }

  // ---------------------------------------------------------------- single-instance protection

  /** In every run that begins without a release: while the only local instance of a release
      is withdrawn, the guard that runs the old image exists and has been found ready and
      serving by an earlier tick of the same release. */
  lemma SingleInstanceProtected(t: Trace, n: nat)
    requires FromRest(t) && n <= |t.run|
    requires var s := t.states[n];
      && Active(s.service.phase) && s.release.Some? && |s.release.value.steps| == 1
      && s.release.value.steps[0].instance < |s.instances|
      && s.instances[s.release.value.steps[0].instance].desired != Serve
    ensures var s := t.states[n]; var r := s.release.value;
      && r.id in s.cloud.guards && s.cloud.guards[r.id] == r.source && r.source != r.target
      && Happened(t, n, r.id, GuardWasConfirmed)
  {
    hide Execution, Happened;
    ExecutionKeepsInv(t, n);
    RunAccounted(t, n);
  }

  /** In every such run a guard disappears only in a cleaning tick of its own release, after
      its step completed and was found on the target image, the provider reported the rollout
      ready, and every registered guard instance was in maintenance without business. */
  lemma GuardDeletedLast(t: Trace, n: nat, id: nat)
    requires FromRest(t) && n < |t.run|
    requires id in t.states[n].cloud.guards && id !in t.states[n + 1].cloud.guards
    ensures t.run[n].event.ReleaseTick?
    ensures var s := t.states[n];
      && s.service.phase == CleaningGuard && s.release.Some? && s.release.value.id == id
      && |s.release.value.steps| == 1 && s.release.value.steps[0].status == StepCompleted
      && (forall i :: 0 <= i < |s.instances| && GuardInstance(s, i, id) ==> Drained(s.instances[i]))
    ensures Happened(t, n, id, StepWasOnTarget(0)) && Happened(t, n, id, RolloutWasReady)
  {
    hide Execution, Happened, Tick, Started, StartCheck, Core, ImagesFixed, GuardKept, Drained, VersionsDistinct;
    StepOf(t, n);
    RunAccounted(t, n);
    var s, m := t.states[n], t.run[n];
    if m.event.ReleaseTick? && Active(s.service.phase) {
      TickDeletesGuard(s, m.now, t.settings, m.event.answers, id);
    } else if m.event.StartRelease? && t.settings.autoscaling && StartCheck(s, m.event.image).Success? {
      StartedFields(s, m.event.image, m.now);
    } else {
      QuietEffect(s, m, t.settings);
    }
  }

  // ---------------------------------------------------------------- the workload comes last

  /** In every run that begins without a release: a release tick writes the workload image
      only when every step is completed, each having been found on the target image by a tick
      of this release, and what it writes is the target. */
  lemma WorkloadWrittenLast(t: Trace, n: nat)
    requires FromRest(t) && n < |t.run| && t.run[n].event.ReleaseTick?
    requires t.states[n + 1].cloud.workloadImage != t.states[n].cloud.workloadImage
    ensures var s := t.states[n];
      && Active(s.service.phase) && s.release.Some?
      && var r := s.release.value;
         && (forall k :: 0 <= k < |r.steps| ==> r.steps[k].status == StepCompleted)
         && (forall k :: 0 <= k < |r.steps| ==> Happened(t, n, r.id, StepWasOnTarget(k)))
         && t.states[n + 1].cloud.workloadImage == r.target && s.service.desiredImage == Some(r.target)
  {
    hide Execution, Happened, Tick, Core, GuardKept, IsCanonical, ReadsBack;
    StepOf(t, n);
    RunAccounted(t, n);
    var s, m := t.states[n], t.run[n];
    if Active(s.service.phase) {
      TickWritesWorkload(s, m.now, t.settings, m.event.answers);
    } else {
      TickOfInactive(s, m.now, t.settings, m.event.answers);
    }
  }

  lemma TickOfInactive(w: World, now: Time, settings: Settings, p: Answers)
    requires !Active(w.service.phase)
    ensures Tick(w, now, settings, p) == w
  {}

  /** In every such run a release is completed only when every step is, after the provider
      reported the rollout of the target ready; one version row records it. */
  lemma CompletedMeansReady(t: Trace, n: nat)
    requires FromRest(t) && n < |t.run|
    requires Active(t.states[n].service.phase) && t.states[n + 1].service.phase == ReleaseCompleted
    ensures var s, after := t.states[n], t.states[n + 1];
      && s.release.Some?
      && var r := s.release.value;
         && (forall k :: 0 <= k < |r.steps| ==> r.steps[k].status == StepCompleted)
         && (forall k :: 0 <= k < |r.steps| ==> Happened(t, n, r.id, StepWasOnTarget(k)))
         && Happened(t, n + 1, r.id, RolloutWasReady)
         && RecordedOnce(after.versions, r.target, r.id, t.run[n].now)
  {
    hide Execution, Happened, Tick, Core, GuardKept, IsCanonical, ReadsBack, RecordedOnce;
    StepOf(t, n);
    RunAccounted(t, n);
    var s, m := t.states[n], t.run[n];
    if m.event.ReleaseTick? {
      TickRecords(s, m.now, t.settings, m.event.answers);
      RolloutAccounted(t, n);
    } else if m.event.StartRelease? {
      StartWhileActive(s, m.event.image, m.now);
    } else {
      OthersUndisturbed(s, m, t.settings);
    }
  }

  lemma StartWhileActive(w: World, raw: string, now: Time)
    requires Active(w.service.phase)
    ensures Started(w, raw, now) == w
  {}

  // ---------------------------------------------------------------- termination

  /** Releases are numbered upwards; a number is drawn only by an accepted start. */
  lemma NumbersGrow(s: World, m: Moment, settings: Settings)
    requires Inv(s)
    ensures Effect(s, m, settings).service.nextRelease >= s.service.nextRelease
    ensures Effect(s, m, settings).service.nextRelease == s.service.nextRelease ==>
      (m.event.StartRelease? ==> !settings.autoscaling || StartCheck(s, m.event.image).Failure?)
    ensures Effect(s, m, settings).service.nextRelease != s.service.nextRelease ==>
      m.event.StartRelease? && settings.autoscaling && StartCheck(s, m.event.image).Success?
  {
    hide Tick, Started, StartCheck, Core, ImagesFixed, GuardKept, VersionsDistinct;
    if m.event.ReleaseTick? && Active(s.service.phase) {
      TickOrders(s, m.now, settings, m.event.answers);
    } else if m.event.StartRelease? && settings.autoscaling && StartCheck(s, m.event.image).Success? {
      StartedFields(s, m.event.image, m.now);
    } else {
      QuietEffect(s, m, settings);
    }
  }

  lemma {:induction false} RunNumbersGrow(t: Trace, a: nat, b: nat)
    requires Execution(t) && a <= b <= |t.run|
    ensures t.states[b].service.nextRelease >= t.states[a].service.nextRelease
  {
    hide Execution, Inv, Effect, StartCheck;
    if a < b {
      RunNumbersGrow(t, a, b - 1);
      StepOf(t, b - 1);
      NumbersGrow(t.states[b - 1], t.run[b - 1], t.settings);
    }
  }

  /** No start is accepted between the two positions. */
  ghost predicate NoStart(t: Trace, a: nat, b: nat) {
    a <= b <= |t.run| && b < |t.states| && t.states[b].service.nextRelease == t.states[a].service.nextRelease
  }

  lemma NoStartBefore(t: Trace, a: nat, b: nat)
    requires Execution(t) && a < b && NoStart(t, a, b)
    ensures NoStart(t, a, b - 1)
    ensures t.run[b - 1].event.StartRelease? ==>
      !t.settings.autoscaling || StartCheck(t.states[b - 1], t.run[b - 1].event.image).Failure?
  {
    hide Execution, Inv, Effect, StartCheck;
    StepOf(t, b - 1);
    RunNumbersGrow(t, a, b - 1);
    NumbersGrow(t.states[b - 1], t.run[b - 1], t.settings);
  }

  /** The tick of an active release that did not merely wait. */
  predicate Progresses(s: World, m: Moment, after: World) {
    m.event.ReleaseTick? && Active(s.service.phase) && !Waits(s, after)
  }

  function ProgressTicks(t: Trace, a: nat, b: nat): nat
    requires a <= b <= |t.run| && |t.states| == |t.run| + 1
  {
    if a == b then 0
    else ProgressTicks(t, a, b - 1) + if Progresses(t.states[b - 1], t.run[b - 1], t.states[b]) then 1 else 0
  }

  lemma EffectLowersRemaining(s: World, m: Moment, settings: Settings)
    requires Inv(s)
    requires m.event.StartRelease? ==> !settings.autoscaling || StartCheck(s, m.event.image).Failure?
    ensures var after := Effect(s, m, settings);
      Remaining(after) + (if Progresses(s, m, after) then 1 else 0) <= Remaining(s)
  {
    hide Tick, StartCheck, Core, ImagesFixed, GuardKept, VersionsDistinct, StepRanks, PhaseRank;
    if m.event.ReleaseTick? && Active(s.service.phase) {
      TickAdvances(s, m.now, settings, m.event.answers);
    } else {
      QuietEffect(s, m, settings);
    }
  }

  /** Whatever the environment does, one release makes only so many ticks that do not wait:
      what is left of it falls with each of them, and nothing raises it. */
  lemma {:induction false} BoundedProgress(t: Trace, a: nat, b: nat)
    requires Execution(t) && NoStart(t, a, b)
    ensures ProgressTicks(t, a, b) + Remaining(t.states[b]) <= Remaining(t.states[a])
  {
    hide Execution, Inv, Effect, Remaining, Progresses, StartCheck;
    if a < b {
      NoStartBefore(t, a, b);
      BoundedProgress(t, a, b - 1);
      StepOf(t, b - 1);
      EffectLowersRemaining(t.states[b - 1], t.run[b - 1], t.settings);
    }
  }

  lemma {:induction false} PendingRanks(steps: seq<Step>)
    requires forall k :: 0 <= k < |steps| ==> steps[k].status == StepPending
    ensures StepRanks(steps) == 6 * |steps|
  {
    if steps != [] { PendingRanks(steps[..|steps| - 1]); }
  }

  /** A start is accepted at this position. */
  ghost predicate StartsAt(t: Trace, n: nat) {
    n + 1 < |t.states| && t.states[n + 1].service.nextRelease != t.states[n].service.nextRelease
  }

  /** A release of n instances therefore ends within 7 + 6n ticks that do not wait. */
  lemma LinearlyManyTicks(t: Trace, a: nat, b: nat)
    requires Execution(t) && StartsAt(t, a) && NoStart(t, a + 1, b)
    ensures var begun := t.states[a + 1];
      && begun.release.Some? && |begun.release.value.steps| == |LocalInstances(t.states[a].instances)|
      && var bound := 7 + 6 * |begun.release.value.steps|;
         && ProgressTicks(t, a + 1, b) <= bound
         && (ProgressTicks(t, a + 1, b) == bound ==> !Active(t.states[b].service.phase))
  {
    hide Execution, StartCheck, ProgressTicks, LocalInstances, StepRanks, Started, Core, ImagesFixed, GuardKept,
      VersionsDistinct;
    StepOf(t, a);
    var w, now := t.states[a], t.run[a].now;
    NumbersGrow(w, t.run[a], t.settings);
    BoundedProgress(t, a + 1, b);
    StartIsEarly(w, t.run[a].event.image, now);
    StartedSteps(w, t.run[a].event.image, now);
    PendingRanks(t.states[a + 1].release.value.steps);
  }

  lemma StartedSteps(w: World, raw: string, now: Time)
    requires StartCheck(w, raw).Success?
    ensures Started(w, raw, now).release.Some?
    ensures |Started(w, raw, now).release.value.steps| == |LocalInstances(w.instances)|
  {
    hide StartCheck, Canonical, ImageOf, BindResolved, IndexOfVersion;
    var chosen := LocalInstances(w.instances);
    var ordered := ByName(w.instances, chosen);
    assert |multiset(ordered)| == |ordered| && |multiset(chosen)| == |chosen|;
  }

  // ---------------------------------------------------------------- images

  lemma EffectOrders(s: World, m: Moment, settings: Settings)
    requires Inv(s) && s.release.Some?
    requires m.event.StartRelease? ==> !settings.autoscaling || StartCheck(s, m.event.image).Failure?
    ensures var after := Effect(s, m, settings);
      && after.release.Some? && SameOrder(s.release.value, after.release.value)
      && after.service.desiredImage == s.service.desiredImage
      && after.service.previousImage == s.service.previousImage
  {
    hide Tick, StartCheck, Core, ImagesFixed, GuardKept, VersionsDistinct;
    if m.event.ReleaseTick? && Active(s.service.phase) {
      TickOrders(s, m.now, settings, m.event.answers);
    } else {
      QuietEffect(s, m, settings);
    }
  }

  /** The desired image, the image to roll back to, the source, the target and the order of
      the steps stay what they were, until the next start. */
  lemma {:induction false} ImagesStayFixed(t: Trace, a: nat, b: nat)
    requires Execution(t) && NoStart(t, a, b) && t.states[a].release.Some?
    ensures var w, s := t.states[a], t.states[b];
      && s.release.Some? && SameOrder(w.release.value, s.release.value)
      && s.service.desiredImage == w.service.desiredImage
      && s.service.previousImage == w.service.previousImage
  {
    hide Execution, Inv, Effect, StartCheck;
    if a < b {
      NoStartBefore(t, a, b);
      ImagesStayFixed(t, a, b - 1);
      StepOf(t, b - 1);
      EffectOrders(t.states[b - 1], t.run[b - 1], t.settings);
    }
  }

  /** Rolling back leads away from the target exactly when the first local instance did not
      run the target when the release started. */
  lemma PreviousImageCanBeTheTarget(w: World, raw: string, now: Time)
    requires StartCheck(w, raw).Success?
    ensures var s, first := Started(w, raw, now).service, LocalInstances(w.instances)[0];
      s.previousImage == s.desiredImage <==> SameImage(ImageOf(w, first), StartCheck(w, raw).value)
  {
    hide LocalInstances, Resolve, ImageOf, Replaceable, BindResolved, ByName, IndexOfVersion;
    StartEstablishes(w, raw);
    var target, chosen := StartCheck(w, raw).value, LocalInstances(w.instances);
    assert chosen[0] in chosen;
    TargetIsCanonical(w, raw, target, chosen[0]);
    hide ParseTaggedImage, CanonicalText;
  }

  // ---------------------------------------------------------------- updated only when unrouted

  /** Step `k` of the active release is being updated by its agent. */
  predicate BeingUpdated(s: World, k: nat) {
    && Active(s.service.phase) && s.release.Some? && k < |s.release.value.steps|
    && s.release.value.steps[k].status == StepUpdating
  }

  function DesiredOf(s: World, k: nat): Desired {
    if s.release.Some? && k < |s.release.value.steps| && s.release.value.steps[k].instance < |s.instances|
    then s.instances[s.release.value.steps[k].instance].desired else Serve
  }

  /** Operator calls that send an instance back into service. */
  predicate SendsBack(event: Event, i: nat) {
    event == Exit(i) || event == Monitor(i, false)
  }

  lemma AdvanceQueuesInMaintenance(w: World, k: nat, container: nat, now: Time, settings: Settings, j: nat)
    requires ActiveCore(w) && k < |w.release.value.steps| && container < |w.containers|
    requires BeingUpdated(Advance(w, k, container, now, settings), j)
    requires j < |w.release.value.steps| && w.release.value.steps[j].status != StepUpdating
    ensures DesiredOf(Advance(w, k, container, now, settings), j) == Maintenance
  {
    hide Failed, CanQueue, OthersServe, Linked, Shaped;
    FailurePlan(w, now);
  }

  lemma FailedNotUpdated(w: World, now: Time, j: nat)
    requires w.release.Some?
    ensures !BeingUpdated(Failed(w, now), j)
  {
    hide Failed;
    FailurePlan(w, now);
  }

  lemma {:induction false} RolloutQueuesInMaintenance(w: World, k: nat, now: Time, settings: Settings, j: nat)
    requires ActiveCore(w) && LocalPhase(w.service.phase) && w.service.taskId.None?
    requires k <= |w.release.value.steps|
    requires BeingUpdated(RolloutFrom(w, k, now, settings).0, j)
    requires j < |w.release.value.steps| && w.release.value.steps[j].status != StepUpdating
    ensures DesiredOf(RolloutFrom(w, k, now, settings).0, j) == Maintenance
    decreases |w.release.value.steps| - k
  {
    hide Core, SameImage, Resolve, CanQueue, Failed, Advance, DesiredOf;
    var steps := w.release.value.steps;
    FailedNotUpdated(w, now, j);
    if k < |steps| {
      if steps[k].status == StepCompleted {
        RolloutQueuesInMaintenance(w, k + 1, now, settings, j);
      } else {
        var step, found := steps[k], ResolveStep(w, steps[k]);
        if found.Some? {
          var bound := Rebound(w, step.instance, found.value);
          BindingKeepsCore(w, step.instance, found.value);
          if SameImage(w.containers[found.value].image, Text(w.service.desiredImage)) {
            CompleteKeepsCore(bound, k);
            RolloutQueuesInMaintenance(
              SetStep(SetDesired(bound, step.instance, Serve), k, step.(status := StepCompleted)), k + 1, now, settings, j);
          } else {
            AdvanceQueuesInMaintenance(bound, k, found.value, now, settings, j);
          }
        }
      }
    }
  }

  /** The step being updated is the one that carries the recorded task. */
  lemma UpdatedCarries(w: World, k: nat)
    requires ActiveCore(w) && BeingUpdated(w, k)
    ensures w.service.taskId.Some?
    ensures StepOfTask(w.release.value.steps, w.service.taskId.value) == Some(k)
  {
    hide OthersServe, Placed, Shaped;
    if w.service.taskId.Some? { CarrierIsFound(w); }
  }

  lemma InFlightIsLocal(w: World, k: nat)
    requires ActiveCore(w) && Active(w.service.phase) && k < |w.release.value.steps|
    requires InFlight(w.release.value.steps[k].status)
    ensures LocalPhase(w.service.phase)
  {}

  lemma RolloutKeepsMaintenance(w: World, now: Time, settings: Settings, j: nat)
    requires ActiveCore(w) && LocalPhase(w.service.phase)
    requires BeingUpdated(w, j) ==> DesiredOf(w, j) == Maintenance
    requires BeingUpdated(Rollout(w, now, settings).0, j)
    ensures DesiredOf(Rollout(w, now, settings).0, j) == Maintenance
  {
    hide Core, RolloutFrom, Verified, Failed;
    FailurePlan(w, now);
    RolloutPlan(w, now, settings);
    if BeingUpdated(w, j) { UpdatedCarries(w, j); }
    if w.service.taskId.None? {
      RolloutQueuesInMaintenance(w, 0, now, settings, j);
    } else {
      CarrierIsFound(w);
      var t := w.service.taskId.value;
      VerifiedLeavesUpdating(w, StepOfTask(w.release.value.steps, t).value, t, now, j);
    }
  }

  lemma VerifiedLeavesUpdating(w: World, k: nat, t: nat, now: Time, j: nat)
    requires ActiveCore(w) && k < |w.release.value.steps| && t < |w.tasks| && Carries(w.release.value.steps, k, t)
    ensures !BeingUpdated(Verified(w, k, t, now), j)
  {
    hide Failed, SameImage, Resolve, BackInService, OthersServe, Placed, Shaped, Linked;
    FailurePlan(w, now);
    var step := w.release.value.steps[k];
    if ResolveStep(w, step).Some? && step.instance < |w.instances| {
      FailurePlan(Rebound(w, step.instance, ResolveStep(w, step).value), now);
    }
  }

  lemma TickKeepsMaintenance(s: World, m: Moment, settings: Settings, j: nat)
    requires Inv(s) && Active(s.service.phase) && m.event.ReleaseTick?
    requires BeingUpdated(s, j) ==> DesiredOf(s, j) == Maintenance
    requires BeingUpdated(Effect(s, m, settings), j)
    ensures DesiredOf(Effect(s, m, settings), j) == Maintenance
  {
    hide Core, ImagesFixed, GuardKept, Failed, Rollout, DesiredOf;
    FailurePlan(s, m.now);
    TickMoves(s, m.now, settings, m.event.answers);
    var before, after := s.release.value.steps, Effect(s, m, settings).release.value.steps;
    assert j < |before|;
    MovesToUpdating(s, before[j], after[j]);
    InFlightIsLocal(s, j);
    var rolled := Rollout(s, m.now, settings);
    RolloutKeeps(s, m.now, settings);
    if rolled.1 {
      assert before[j].instance == after[j].instance;
    } else if BeingUpdated(rolled.0, j) {
      RolloutKeepsMaintenance(s, m.now, settings, j);
    }
  }

  lemma MovesToUpdating(w: World, before: Step, after: Step)
    requires Moves(w, before, after) && after.status == StepUpdating
    ensures before.status == StepUpdating || before.status == StepDraining
  {}

  /** Of all other actors only an operator's exit or monitoring call moves an instance out of
      maintenance while a release is active, and those always do. */
  lemma OnlyOperatorsSendBack(s: World, m: Moment, settings: Settings, i: nat)
    requires ValidConfig(s.service.config) && Active(s.service.phase) && !m.event.ReleaseTick?
    requires i < |s.instances| && s.instances[i].pool == Local && s.instances[i].desired == Maintenance
    ensures i < |Effect(s, m, settings).instances|
    ensures Effect(s, m, settings).instances[i].desired == Maintenance <==> !SendsBack(m.event, i)
  {
    hide Evaluated, Started, ActionCreated, Dispatched, ResultStored, HeartbeatStored, Bound, Configured, Reported,
      EnteredMaintenance, ExitedMaintenance, MonitoringSet, CapacitySet;
    RowsUntouched(s, m, settings);
    match m.event
    case ScaleTick(p) => EvaluationOnlyScales(s, m.now, settings, p);
    case StartRelease(image) => StartWhileActive(s, image, m.now);
    case Reports(r) => ReportLeavesMaintenance(s, r, m.now, settings, i);
    case Label(name, c) => LabelLeavesDesired(s, name, c, m.now, i);
    case SamplesPruned(_) =>
    case Enter(j) => OperatorCalls(s, i, j, true, 0);
    case Exit(j) => OperatorCalls(s, i, j, true, 0);
    case Monitor(j, monitored) => OperatorCalls(s, i, j, monitored, 0);
    case Limit(j, limit) => OperatorCalls(s, i, j, true, limit);
    case Configure(_) =>
    case CreateAction(_, _, _) =>
    case NextTask(_) =>
    case TaskResult(_, _, _, _) =>
    case Heartbeat(_, _) =>
    case WorkloadEdited(_, _) =>
  }

  lemma OperatorCalls(s: World, i: nat, j: nat, monitored: bool, limit: nat)
    requires Active(s.service.phase)
    requires i < |s.instances| && s.instances[i].pool == Local && s.instances[i].desired == Maintenance
    ensures EnteredMaintenance(s, j) == s
    ensures i < |ExitedMaintenance(s, j).instances|
    ensures ExitedMaintenance(s, j).instances[i].desired == Maintenance <==> j != i
    ensures i < |MonitoringSet(s, j, monitored).instances|
    ensures MonitoringSet(s, j, monitored).instances[i].desired == Maintenance <==> j != i || monitored
    ensures i < |CapacitySet(s, j, limit).instances| && CapacitySet(s, j, limit).instances[i].desired == Maintenance
  {}

  lemma RowsUntouched(s: World, m: Moment, settings: Settings)
    requires ValidConfig(s.service.config)
    ensures m.event.Configure? || m.event.CreateAction? || m.event.NextTask? || m.event.TaskResult? || m.event.Heartbeat? ==>
      Effect(s, m, settings).instances == s.instances
  {
    hide Canonical, ValidateTagChange, WithSnapshots, Absent, NextPending;
  }

  lemma ReportLeavesMaintenance(s: World, r: Report, now: Time, settings: Settings, i: nat)
    requires i < |s.instances| && s.instances[i].desired == Maintenance
    ensures i < |Reported(s, r, now, settings).instances|
    ensures Reported(s, r, now, settings).instances[i].desired == Maintenance
  {
    hide ReportRefused;
  }

  lemma LabelLeavesDesired(s: World, name: int, c: nat, now: Time, i: nat)
    requires i < |s.instances|
    ensures i < |Bound(s, name, c, now).instances|
    ensures Bound(s, name, c, now).instances[i].desired == s.instances[i].desired
  {
    hide Freed, IndexOfName;
  }

  // ---------------------------------------------------------------- over the whole update

  /** The instance step `k` of the current release replaces. */
  function InstanceOf(s: World, k: nat): nat {
    if s.release.Some? && k < |s.release.value.steps| then s.release.value.steps[k].instance else 0
  }

  lemma StepIsLocal(s: World, k: nat)
    requires ActiveCore(s) && k < |s.release.value.steps|
    ensures InstanceOf(s, k) < |s.instances| && s.instances[InstanceOf(s, k)].pool == Local
  {}

  /** Step `k` was not being updated at `q`, and has been at every position since. */
  ghost predicate UpdatedSince(t: Trace, q: nat, n: nat, k: nat) {
    && Execution(t) && q < n <= |t.run|
    && !BeingUpdated(t.states[q], k) && forall p :: q < p <= n ==> BeingUpdated(t.states[p], k)
  }

  /** An operator has sent the instance back since its update was queued. */
  ghost predicate SentBack(t: Trace, q: nat, n: nat, i: nat)
    requires n <= |t.run|
  {
    exists j :: q < j < n && SendsBack(t.run[j].event, i)
  }

  lemma UpdatedSameInstance(s: World, m: Moment, settings: Settings, k: nat)
    requires Inv(s) && BeingUpdated(s, k)
    ensures InstanceOf(Effect(s, m, settings), k) == InstanceOf(s, k)
  {
    hide Started, Tick, Core, ImagesFixed, GuardKept, VersionsDistinct;
    if m.event.ReleaseTick? {
      TickOrders(s, m.now, settings, m.event.answers);
    } else if m.event.StartRelease? {
      StartWhileActive(s, m.event.image, m.now);
    } else {
      OthersUndisturbed(s, m, settings);
    }
  }

  /** An update begins only by a tick, which finds the instance drained and leaves it so. */
  lemma UpdateBegins(s: World, m: Moment, settings: Settings, k: nat)
    requires Inv(s) && !BeingUpdated(s, k) && BeingUpdated(Effect(s, m, settings), k)
    ensures m.event.ReleaseTick? && DesiredOf(Effect(s, m, settings), k) == Maintenance
    ensures InstanceOf(s, k) == InstanceOf(Effect(s, m, settings), k) < |s.instances|
    ensures Drained(s.instances[InstanceOf(s, k)])
  {
    hide Tick, Started, StartCheck, Core, ImagesFixed, GuardKept, VersionsDistinct, DesiredOf;
    if m.event.ReleaseTick? && Active(s.service.phase) {
      TickKeepsMaintenance(s, m, settings, k);
      TickOrders(s, m.now, settings, m.event.answers);
      TickMoves(s, m.now, settings, m.event.answers);
      hide Drained;
      assert Moves(s, s.release.value.steps[k], Effect(s, m, settings).release.value.steps[k]);
    } else if m.event.StartRelease? && settings.autoscaling && StartCheck(s, m.event.image).Success? {
      StartIsEarly(s, m.event.image, m.now);
    } else {
      QuietEffect(s, m, settings);
    }
  }

  /** A tick after which the step is still being updated has changed nothing. */
  lemma TickWaitsWhileUpdating(s: World, m: Moment, settings: Settings, k: nat)
    requires Inv(s) && BeingUpdated(s, k) && m.event.ReleaseTick? && BeingUpdated(Effect(s, m, settings), k)
    ensures Effect(s, m, settings) == s
  {
    hide Core, ImagesFixed, GuardKept, Failed, Rollout;
    FailurePlan(s, m.now);
    InFlightIsLocal(s, k);
    var rolled := Rollout(s, m.now, settings);
    RolloutKeeps(s, m.now, settings);
    RolloutWaitsWhileUpdating(s, m.now, settings, k);
  }

  lemma RolloutWaitsWhileUpdating(w: World, now: Time, settings: Settings, k: nat)
    requires ActiveCore(w) && LocalPhase(w.service.phase) && BeingUpdated(w, k)
    ensures BeingUpdated(Rollout(w, now, settings).0, k) ==> Rollout(w, now, settings) == (w, false)
  {
    hide Core, RolloutFrom, Verified, Failed;
    FailedNotUpdated(w, now, k);
    UpdatedCarries(w, k);
    CarrierIsFound(w);
    VerifiedLeavesUpdating(w, k, w.service.taskId.value, now, k);
  }

  /** A local instance on its way back, or back, stays so under every other actor while a
      release is active. */
  lemma OthersDoNotWithdraw(s: World, m: Moment, settings: Settings, i: nat)
    requires ValidConfig(s.service.config) && Active(s.service.phase) && !m.event.ReleaseTick?
    requires i < |s.instances| && s.instances[i].pool == Local && s.instances[i].desired in {Serve, Restoring}
    ensures i < |Effect(s, m, settings).instances|
    ensures Effect(s, m, settings).instances[i].desired in {Serve, Restoring}
  {
    hide Evaluated, Started, ActionCreated, Dispatched, ResultStored, HeartbeatStored, Bound, Configured, Reported,
      MonitoringSet;
    RowsUntouched(s, m, settings);
    match m.event
    case ScaleTick(p) => EvaluationOnlyScales(s, m.now, settings, p);
    case StartRelease(image) => StartWhileActive(s, image, m.now);
    case Reports(r) => ReportDoesNotWithdraw(s, r, m.now, settings, i);
    case Label(name, c) => LabelLeavesDesired(s, name, c, m.now, i);
    case Monitor(j, monitored) => MonitoringDoesNotWithdraw(s, j, monitored, i);
    case SamplesPruned(_) =>
    case Enter(_) =>
    case Exit(_) =>
    case Limit(_, _) =>
    case Configure(_) =>
    case CreateAction(_, _, _) =>
    case NextTask(_) =>
    case TaskResult(_, _, _, _) =>
    case Heartbeat(_, _) =>
    case WorkloadEdited(_, _) =>
  }

  lemma ReportDoesNotWithdraw(s: World, r: Report, now: Time, settings: Settings, i: nat)
    requires i < |s.instances| && s.instances[i].desired in {Serve, Restoring}
    ensures i < |Reported(s, r, now, settings).instances|
    ensures Reported(s, r, now, settings).instances[i].desired in {Serve, Restoring}
  {
    hide ReportRefused;
  }

  lemma MonitoringDoesNotWithdraw(s: World, j: nat, monitored: bool, i: nat)
    requires i < |s.instances| && s.instances[i].desired in {Serve, Restoring}
    ensures i < |MonitoringSet(s, j, monitored).instances|
    ensures MonitoringSet(s, j, monitored).instances[i].desired in {Serve, Restoring}
  {}

  /** One step of an update that goes on. */
  lemma UpdateContinues(s: World, m: Moment, settings: Settings, k: nat)
    requires Inv(s) && BeingUpdated(s, k) && BeingUpdated(Effect(s, m, settings), k)
    requires DesiredOf(s, k) in {Maintenance, Serve, Restoring}
    ensures DesiredOf(Effect(s, m, settings), k) in {Maintenance, Serve, Restoring}
    ensures DesiredOf(Effect(s, m, settings), k) == Maintenance <==>
      DesiredOf(s, k) == Maintenance && !SendsBack(m.event, InstanceOf(s, k))
  {
    hide Tick, Effect, Core, ImagesFixed, GuardKept, VersionsDistinct, ValidConfig;
    StepIsLocal(s, k);
    UpdatedSameInstance(s, m, settings, k);
    if m.event.ReleaseTick? {
      TickWaitsWhileUpdating(s, m, settings, k);
    } else if DesiredOf(s, k) == Maintenance {
      OnlyOperatorsSendBack(s, m, settings, InstanceOf(s, k));
      SentBackServes(s, m, settings, InstanceOf(s, k));
    } else {
      OthersDoNotWithdraw(s, m, settings, InstanceOf(s, k));
    }
  }

  lemma SentBackServes(s: World, m: Moment, settings: Settings, i: nat)
    requires ValidConfig(s.service.config)
    requires i < |s.instances| && s.instances[i].pool == Local && s.instances[i].desired == Maintenance
    ensures i < |ExitedMaintenance(s, i).instances| && ExitedMaintenance(s, i).instances[i].desired == Restoring
    ensures i < |MonitoringSet(s, i, false).instances| && MonitoringSet(s, i, false).instances[i].desired == Serve
    ensures SendsBack(m.event, i) && i < |Effect(s, m, settings).instances| ==>
      Effect(s, m, settings).instances[i].desired in {Serve, Restoring}
  {}

  /** The exact course of an update: its instance is in maintenance until, and only until, an
      operator sends it back, and then coming back or serving. */
  lemma {:induction false} MaintenanceUntilSentBack(t: Trace, q: nat, n: nat, k: nat)
    requires UpdatedSince(t, q, n, k)
    ensures DesiredOf(t.states[n], k) in {Maintenance, Serve, Restoring}
    ensures DesiredOf(t.states[n], k) == Maintenance <==> !SentBack(t, q, n, InstanceOf(t.states[n], k))
    decreases n
  {
    hide Inv, Effect, DesiredOf, SendsBack, BeingUpdated;
    StepOf(t, n - 1);
    if n == q + 1 {
      UpdateBegins(t.states[q], t.run[q], t.settings, k);
    } else {
      MaintenanceUntilSentBack(t, q, n - 1, k);
      UpdateContinues(t.states[n - 1], t.run[n - 1], t.settings, k);
      UpdatedSameInstance(t.states[n - 1], t.run[n - 1], t.settings, k);
      SentBackGrows(t, q, n, InstanceOf(t.states[n], k));
    }
  }

  lemma SentBackGrows(t: Trace, q: nat, n: nat, i: nat)
    requires q + 1 < n <= |t.run|
    ensures SentBack(t, q, n, i) <==> SentBack(t, q, n - 1, i) || SendsBack(t.run[n - 1].event, i)
  {}

  /** In every run, for a step being updated since position `q`: a tick at `q` found its
      instance in maintenance, not accepting and without business; since then the instance is
      in maintenance if and only if no operator has sent it back, and otherwise restoring or
      serving; as long as nobody has, it is never routed. */
  lemma UpdatedOnlyWhenUnrouted(t: Trace, q: nat, n: nat, k: nat, now: Time)
    requires UpdatedSince(t, q, n, k)
    ensures var s, i := t.states[n], InstanceOf(t.states[n], k);
      && i < |s.instances| && s.instances[i].desired in {Maintenance, Serve, Restoring}
      && (s.instances[i].desired == Maintenance <==> !SentBack(t, q, n, i))
      && (!SentBack(t, q, n, i) ==> !Discoverable(s, i, now, t.settings))
    ensures t.run[q].event.ReleaseTick?
    ensures var i := InstanceOf(t.states[n], k); i < |t.states[q].instances| && Drained(t.states[q].instances[i])
  {
    hide Inv, Effect, SendsBack, EffectiveHost, SentBack;
    MaintenanceUntilSentBack(t, q, n, k);
    UpdateSameInstance(t, q, n, k);
    StepOf(t, q);
    UpdateBegins(t.states[q], t.run[q], t.settings, k);
    UpdatedIsLocal(t, n, k);
  }

  lemma UpdatedIsLocal(t: Trace, n: nat, k: nat)
    requires Execution(t) && n <= |t.run| && BeingUpdated(t.states[n], k)
    ensures |t.states| == |t.run| + 1 && InstanceOf(t.states[n], k) < |t.states[n].instances|
  {
    hide Execution, Core, ImagesFixed, GuardKept;
    ExecutionKeepsInv(t, n);
    StepIsLocal(t.states[n], k);
  }

  lemma {:induction false} UpdateSameInstance(t: Trace, q: nat, n: nat, k: nat)
    requires UpdatedSince(t, q, n, k)
    ensures InstanceOf(t.states[n], k) == InstanceOf(t.states[q + 1], k)
    decreases n
  {
    hide Inv, Effect, BeingUpdated;
    if n > q + 1 {
      StepOf(t, n - 1);
      UpdateSameInstance(t, q, n - 1, k);
      UpdatedSameInstance(t.states[n - 1], t.run[n - 1], t.settings, k);
    }
  }

  /** In a run that begins without a release every update has such a beginning. */
  lemma {:induction false} UpdateHasBegun(t: Trace, n: nat, k: nat) returns (q: nat)
    requires FromRest(t) && n <= |t.run| && BeingUpdated(t.states[n], k)
    ensures UpdatedSince(t, q, n, k)
  {
    hide Inv, Effect;
    if BeingUpdated(t.states[n - 1], k) {
      q := UpdateHasBegun(t, n - 1, k);
    } else {
      q := n - 1;
    }
  }

  lemma {:induction false} IndexByNames(a: seq<Instance>, b: seq<Instance>, name: int)
    requires |a| == |b| && forall i :: 0 <= i < |a| ==> a[i].name == b[i].name
    ensures IndexOfName(a, name) == IndexOfName(b, name)
  {
    if a != [] { IndexByNames(a[..|a| - 1], b[..|b| - 1], name); }
  }

  /** The row after an exit from maintenance and a healthy report. */
  function Reopened(row: Instance, r: Report, now: Time): Instance {
    row.(active := r.active, healthy := r.healthy, ready := r.ready, accepting := r.accepting, endpoint := r.endpoint,
         host := r.host, releaseTag := r.releaseTag, updatedAt := now, desired := Serve)
  }

  lemma ExitThenReport(s: World, i: nat, r: Report, now: Time, settings: Settings)
    requires i < |s.instances| && s.instances[i].pool == Local && s.instances[i].desired == Maintenance
    requires IndexOfName(s.instances, r.name) == Some(i) && !ReportRefused(s, r, settings)
    requires r.healthy && r.ready && r.accepting
    ensures Reported(ExitedMaintenance(s, i), r, now, settings) == SetInstance(s, i, Reopened(s.instances[i], r, now))
  {
    var restoring := ExitedMaintenance(s, i);
    IndexByNames(s.instances, restoring.instances, r.name);
    assert !ReportRefused(restoring, r, settings);
    assert restoring.instances[i := Reopened(s.instances[i], r, now)] == s.instances[i := Reopened(s.instances[i], r, now)];
  }

  /** Such a call can route the instance during its update: after an exit from maintenance and
      the next healthy report it serves and accepts again while its task is still running. */
  lemma ExitReroutesDuringUpdate(t: Trace, n: nat, k: nat, r: Report, now: Time)
    requires Execution(t) && n + 1 < |t.run| && BeingUpdated(t.states[n], k) && DesiredOf(t.states[n], k) == Maintenance
    requires InstanceOf(t.states[n], k) < |t.states[n].instances|
    requires t.run[n].event == Exit(InstanceOf(t.states[n], k)) && t.run[n + 1] == Moment(now, Reports(r))
    requires IndexOfName(t.states[n].instances, r.name) == Some(InstanceOf(t.states[n], k))
    requires !ReportRefused(t.states[n], r, t.settings) && r.healthy && r.ready && r.accepting
    ensures var s, after, i := t.states[n], t.states[n + 2], InstanceOf(t.states[n], k);
      && BeingUpdated(after, k) && after == SetInstance(s, i, Reopened(s.instances[i], r, now))
      && (Discoverable(after, i, now, t.settings) <==> RoutableAfter(s, i, r, t.settings))
  {
    hide Execution, Effect, Core, ImagesFixed, GuardKept, Reported, ReportRefused, ExitedMaintenance, VersionsDistinct,
      EffectiveHost, IndexOfName, Discoverable, RoutableAfter, ValidConfig;
    StepOf(t, n);
    StepOf(t, n + 1);
    var s, i := t.states[n], InstanceOf(t.states[n], k);
    StepIsLocal(s, k);
    ExitAndReportEffects(s, i, r, t.run[n], t.run[n + 1], t.settings);
    ExitThenReport(s, i, r, now, t.settings);
    ReopenedIsRoutable(s, i, r, now, t.settings);
  }

  lemma ExitAndReportEffects(s: World, i: nat, r: Report, exit: Moment, report: Moment, settings: Settings)
    requires ValidConfig(s.service.config) && exit.event == Exit(i) && report.event == Reports(r)
    ensures Effect(s, exit, settings) == ExitedMaintenance(s, i)
    ensures ValidConfig(ExitedMaintenance(s, i).service.config)
    ensures Effect(ExitedMaintenance(s, i), report, settings) ==
      Reported(ExitedMaintenance(s, i), r, report.now, settings)
  {
    hide Reported;
  }

  /** Its address is known and allowed, and its container is healthy. */
  predicate RoutableAfter(s: World, i: nat, r: Report, settings: Settings)
    requires i < |s.instances|
  {
    var host := EffectiveHost(s, s.instances[i].(host := r.host));
    && s.instances[i].monitored && r.endpoint && ContainerHealthy(s, s.instances[i])
    && host.Some? && host.value in settings.networks
  }

  lemma ReopenedIsRoutable(s: World, i: nat, r: Report, now: Time, settings: Settings)
    requires ValidConfig(s.service.config) && i < |s.instances| && r.healthy && r.ready && r.accepting
    ensures Discoverable(SetInstance(s, i, Reopened(s.instances[i], r, now)), i, now, settings) <==>
      RoutableAfter(s, i, r, settings)
  {}
}
