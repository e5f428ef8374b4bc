/** The invariant of an active release, and its preservation by one release tick. */
module ReleaseInvariant {
  import opened Wrappers
  import opened ImageReference
  import opened Model
  import opened Releases

  /** The instance of such a step is withdrawn from, or not yet back in, service. */
  predicate InFlight(status: StepStatus) {
    status == StepDraining || status == StepUpdating || status == StepVerifying
  }

  /** The step has begun and neither ended nor come to rest between preflight and rollout. */
  predicate UnderWay(status: StepStatus) {
    status !in {StepPending, StepPrepared, StepCompleted, StepFailed}
  }

  /** A step in one of these statuses waits for its agent task. */
  predicate NeedsTask(status: StepStatus) {
    status == StepPreparing || status == StepUpdating || status == StepVerifying
  }

  ghost predicate Placed(steps: seq<Step>, instances: seq<Instance>) {
    && |steps| >= 1
    && (forall k :: 0 <= k < |steps| ==>
          steps[k].instance < |instances| && instances[steps[k].instance].pool == Local)
    && (forall j, k :: 0 <= j < k < |steps| ==> steps[j].instance != steps[k].instance)
  }

  /** Every instance without a step in flight serves. */
  ghost predicate OthersServe(steps: seq<Step>, instances: seq<Instance>)
    requires Placed(steps, instances)
  {
    forall k :: 0 <= k < |steps| ==>
      && instances[steps[k].instance].desired != Drain
      && (!InFlight(steps[k].status) ==> instances[steps[k].instance].desired == Serve)
  }

  ghost predicate Carries(steps: seq<Step>, k: nat, task: nat) {
    && k < |steps| && NeedsTask(steps[k].status) && steps[k].task == Some(task)
    && forall j :: 0 <= j < |steps| && j != k ==> !NeedsTask(steps[j].status) && steps[j].task.None?
  }

  /** A release task is recorded exactly while one step waits for it, and that step carries it. */
  ghost predicate Linked(steps: seq<Step>, taskId: Option<nat>, tasks: nat) {
    match taskId
    case None => forall k :: 0 <= k < |steps| ==> !NeedsTask(steps[k].status) && steps[k].task.None?
    case Some(t) => t < tasks && exists k: nat :: Carries(steps, k, t)
  }

  /** Everything below a step in flight is completed. */
  ghost predicate Serial(steps: seq<Step>) {
    forall j, k :: 0 <= j < k < |steps| && InFlight(steps[k].status) ==> steps[j].status == StepCompleted
  }

  ghost predicate Shaped(steps: seq<Step>, phase: Phase) {
    if phase == PreflightingLocal then
      forall k :: 0 <= k < |steps| ==> steps[k].status in {StepPending, StepPreparing, StepPrepared, StepCompleted}
    else if phase == PreparingGuard || phase == WaitingGuard then
      |steps| == 1 && steps[0].status in {StepPrepared, StepCompleted}
    else if LocalPhase(phase) then
      && Serial(steps)
      && forall k :: 0 <= k < |steps| ==>
           && steps[k].status in {StepPrepared, StepDraining, StepUpdating, StepVerifying, StepCompleted}
           && (steps[k].status == StepUpdating ==> phase == UpdatingLocal)
           && (steps[k].status == StepVerifying ==> phase == VerifyingLocal)
    else AllCompleted(steps)
  }

  ghost predicate Core(steps: seq<Step>, instances: seq<Instance>, taskId: Option<nat>, tasks: nat, phase: Phase) {
    Placed(steps, instances) && OthersServe(steps, instances) && Linked(steps, taskId, tasks) && Shaped(steps, phase)
  }

  /** The images of a release: a canonical target, and a source that is its own canonical
      text unless it is too long to be read back. */
  ghost predicate ImagesFixed(r: Release, desired: Option<string>) {
    && desired == Some(r.target) && IsCanonical(r.target)
    && ReadsBack(r.source)
    && (|r.steps| == 1 ==> r.source != r.target)
  }

  /** The guard exists for single-instance releases only, from its creation until cleanup. */
  ghost predicate GuardKept(r: Release, phase: Phase, cloud: Cloud) {
    if phase == PreflightingLocal || phase == PreparingGuard then r.guard.None? && r.id !in cloud.guards
    else if |r.steps| == 1 then
      r.guard == Some(r.id) && r.id in cloud.guards && cloud.guards[r.id] == r.source
    else r.guard.None?
  }

  ghost predicate VersionsDistinct(versions: seq<Version>) {
    forall i, j :: 0 <= i < j < |versions| ==> versions[i].image != versions[j].image
  }

  /** True in every state, release or not. */
  ghost predicate Base(w: World) {
    && ValidConfig(w.service.config)
    && VersionsDistinct(w.versions)
    && (forall id :: id in w.cloud.guards ==> id < w.service.nextRelease)
  }

  ghost predicate ActiveInv(w: World) {
    && w.release.Some?
    && var r := w.release.value;
       && Core(r.steps, w.instances, w.service.taskId, |w.tasks|, w.service.phase)
       && ImagesFixed(r, w.service.desiredImage)
       && GuardKept(r, w.service.phase, w.cloud)
       && r.id < w.service.nextRelease
       && (w.service.phase == CleaningGuard ==> |r.steps| == 1)
  }

  ghost predicate Inv(w: World) {
    Base(w) && (Active(w.service.phase) ==> ActiveInv(w))
  }

  // ---------------------------------------------------------------- failing

  /** Nothing but steps, instances, tasks, phase and task id changes. */
  ghost predicate Carried(w: World, after: World) {
    && w.release.Some? && after.release.Some?
    && after.release.value == w.release.value.(steps := after.release.value.steps)
    && after.service == w.service.(phase := after.service.phase, taskId := after.service.taskId)
    && after.cloud == w.cloud && after.versions == w.versions && after.containers == w.containers
    && after.nodes == w.nodes
  }

  ghost predicate StepStopped(outstanding: Option<nat>, after: World, k: nat) {
    && after.release.Some? && k < |after.release.value.steps|
    && var step := after.release.value.steps[k];
       && !UnderWay(step.status) && step.instance < |after.instances|
       && (step.task.Some? ==> step.task == outstanding)
       && after.instances[step.instance].desired in {Serve, Restoring}
  }

  /** A release that stopped: no step in flight, no task recorded, the only task its steps
      carry no longer waiting for dispatch, every instance serving or coming back. */
  ghost predicate CleanStop(outstanding: Option<nat>, after: World) {
    && after.service.phase == ReleaseFailed && after.service.taskId.None? && after.release.Some?
    && (forall k :: 0 <= k < |after.release.value.steps| ==> StepStopped(outstanding, after, k))
    && (outstanding.Some? ==>
          outstanding.value < |after.tasks| && after.tasks[outstanding.value].status != TaskPending)
  }

  lemma OneInterrupted(steps: seq<Step>, instances: seq<Instance>, taskId: Option<nat>, tasks: nat, phase: Phase)
    requires Placed(steps, instances) && Linked(steps, taskId, tasks) && Shaped(steps, phase)
    ensures forall j, k :: 0 <= j < k < |steps| && Interrupted(steps[j].status) ==> !Interrupted(steps[k].status)
    ensures taskId.Some? ==> taskId.value < tasks
    ensures forall k :: 0 <= k < |steps| && steps[k].task.Some? ==> steps[k].task == taskId
  {
    if taskId.Some? {
      var k: nat :| Carries(steps, k, taskId.value);
    }
  }

  lemma FailureCarried(w: World, now: Time)
    requires w.release.Some?
    ensures Carried(w, Failed(w, now))
  {}

  /** Failing touches one step, the interrupted one, and its instance. */
  lemma FailureMarks(w: World, now: Time)
    requires w.release.Some? && Placed(w.release.value.steps, w.instances)
    ensures var found, after := FirstInterrupted(w.release.value.steps), Failed(w, now);
      && after.service.phase == ReleaseFailed && after.service.taskId.None? && after.release.Some?
      && after.release.value.steps == (match found
           case None => w.release.value.steps
           case Some(k) => w.release.value.steps[k := w.release.value.steps[k].(status := StepFailed)])
      && after.instances == (match found
           case None => w.instances
           case Some(k) => Restored(w, w.release.value.steps[k].instance).instances)
      && after.tasks == ExpireTask(w, now).tasks
  {}

  /** Failing marks exactly the interrupted step, of which there is at most one, and changes no
      instance but that of this step, which it sends back. */
  lemma FailureTouchesOneStep(w: World, now: Time)
    requires ActiveCore(w)
    ensures var steps, after := w.release.value.steps, Failed(w, now);
      && after.release.Some? && |after.release.value.steps| == |steps| && |after.instances| == |w.instances|
      && (forall j, k :: 0 <= j < |steps| && 0 <= k < |steps| && j != k && after.release.value.steps[j] != steps[j] ==>
            after.release.value.steps[k] == steps[k])
      && (forall k :: 0 <= k < |steps| ==>
            (after.release.value.steps[k].status == StepFailed <==> UnderWay(steps[k].status) || steps[k].status == StepFailed))
      && (forall i :: 0 <= i < |w.instances| && after.instances[i] != w.instances[i] ==>
            w.instances[i].desired in {Draining, Maintenance} && after.instances[i] == w.instances[i].(desired := Restoring)
            && exists k :: 0 <= k < |steps| && steps[k].instance == i && UnderWay(steps[k].status))
  {
    hide Failed, OthersServe;
    var steps, found := w.release.value.steps, FirstInterrupted(w.release.value.steps);
    OneInterrupted(steps, w.instances, w.service.taskId, |w.tasks|, w.service.phase);
    FailureMarks(w, now);
  }

  /** Failing changes no task but the recorded one, which it expires exactly when it is pending. */
  lemma FailureExpires(w: World, now: Time)
    requires ActiveCore(w)
    ensures var before, after := w.tasks, Failed(w, now).tasks;
      && |after| == |before|
      && forall t :: 0 <= t < |before| ==>
           after[t] == if w.service.taskId == Some(t) && before[t].status == TaskPending
                       then before[t].(status := TaskExpired, finishedAt := Some(now)) else before[t]
  {
    hide Failed, OthersServe, Linked, Shaped;
    FailureMarks(w, now);
  }

  lemma StoppedStep(w: World, now: Time, k: nat)
    requires ActiveCore(w) && k < |w.release.value.steps|
    ensures var after := Failed(w, now);
      && after.release.Some? && k < |after.release.value.steps|
      && var step := after.release.value.steps[k];
         && !UnderWay(step.status) && step.instance < |after.instances|
         && after.instances[step.instance].desired in {Serve, Restoring}
         && step.task == w.release.value.steps[k].task
  {
    hide Failed, Linked, Shaped;
    var steps, found := w.release.value.steps, FirstInterrupted(w.release.value.steps);
    OneInterrupted(steps, w.instances, w.service.taskId, |w.tasks|, w.service.phase);
    FailureMarks(w, now);
    if found.Some? && k != found.value {
      assert steps[k].instance != steps[found.value].instance;
      assert !Interrupted(steps[k].status);
    }
  }

  lemma FailureStopsClean(w: World, now: Time)
    requires ActiveCore(w)
    ensures CleanStop(w.service.taskId, Failed(w, now))
  {
    hide Failed, Placed, OthersServe, Linked, Shaped, Interrupted, FirstInterrupted, Restored;
    FailureMarks(w, now);
    OneInterrupted(w.release.value.steps, w.instances, w.service.taskId, |w.tasks|, w.service.phase);
    forall k | 0 <= k < |w.release.value.steps|
      ensures StepStopped(w.service.taskId, Failed(w, now), k)
    {
      StoppedStep(w, now, k);
    }
  }

  lemma FailureKeepsInv(w: World, now: Time)
    requires Base(w)
    ensures Inv(Failed(w, now))
    ensures Failed(w, now).service == w.service.(phase := ReleaseFailed, taskId := None)
  {}

  /** A tick's outcome: the release has failed, or its invariant holds. */
  ghost predicate Kept(w: World, after: World) {
    && Carried(w, after)
    && (Active(after.service.phase) ==>
          Core(after.release.value.steps, after.instances, after.service.taskId, |after.tasks|, after.service.phase))
    && (!Active(after.service.phase) ==> CleanStop(w.service.taskId, after))
  }

  lemma FailureKept(w: World, now: Time)
    requires ActiveCore(w)
    ensures Kept(w, Failed(w, now)) && Failed(w, now).service.phase == ReleaseFailed
  {
    hide Core, Failed, Carried;
    FailureCarried(w, now);
    FailureStopsClean(w, now);
  }

  lemma WaitingKept(w: World)
    requires ActiveCore(w) && Active(w.service.phase)
    ensures Kept(w, w)
  {
    hide Core, CleanStop;
  }

  lemma KeptAfter(a: World, b: World, c: World)
    requires Carried(a, b) && a.service.taskId == b.service.taskId && Kept(b, c)
    ensures Kept(a, c)
  {
    hide Core, CleanStop;
  }

  lemma CarriedTransitive(a: World, b: World, c: World)
    requires Carried(a, b) && Carried(b, c)
    ensures Carried(a, c)
  {}

  ghost predicate AllCompleted(steps: seq<Step>) {
    forall k :: 0 <= k < |steps| ==> steps[k].status == StepCompleted
  }

  // ---------------------------------------------------------------- single transitions

  lemma BindingKeepsCore(w: World, i: nat, c: nat)
    requires ActiveCore(w) && i < |w.instances|
    ensures ActiveCore(Rebound(w, i, c)) && Carried(w, Rebound(w, i, c))
  {}

  ghost predicate ActiveCore(w: World) {
    && w.release.Some?
    && Core(w.release.value.steps, w.instances, w.service.taskId, |w.tasks|, w.service.phase)
  }

  lemma QueueKeepsCore(w: World, k: nat, c: nat, action: Action, status: StepStatus)
    requires ActiveCore(w) && k < |w.release.value.steps| && c < |w.containers| && w.service.taskId.None?
    requires || (status == StepPreparing && w.service.phase == PreflightingLocal
                 && w.release.value.steps[k].status == StepPending)
             || (status == StepUpdating && LocalPhase(w.service.phase)
                 && w.release.value.steps[k].status == StepDraining)
    ensures var after := Queued(w, k, c, action, status);
      var moved := if status == StepUpdating then SetPhase(after, UpdatingLocal) else after;
      ActiveCore(moved) && Carried(w, moved)
  {
    var steps := w.release.value.steps;
    var t := |w.tasks|;
    var next := steps[k := steps[k].(task := Some(t), status := status)];
    assert Carries(next, k, t);
  }

  lemma CompleteKeepsCore(w: World, k: nat)
    requires ActiveCore(w) && k < |w.release.value.steps| && w.service.taskId.None?
    requires w.service.phase == PreflightingLocal || LocalPhase(w.service.phase)
    ensures var step := w.release.value.steps[k];
      var after := SetStep(SetDesired(w, step.instance, Serve), k, step.(status := StepCompleted));
      ActiveCore(after) && Carried(w, after)
  {}

  lemma PreflightCompleteKeepsCore(w: World, k: nat)
    requires ActiveCore(w) && k < |w.release.value.steps| && w.service.taskId.None?
    requires w.service.phase == PreflightingLocal
    ensures var after := SetStep(w, k, w.release.value.steps[k].(status := StepCompleted));
      ActiveCore(after) && Carried(w, after)
  {}

  lemma DrainKeepsCore(w: World, k: nat)
    requires ActiveCore(w) && k < |w.release.value.steps| && w.service.taskId.None?
    requires LocalPhase(w.service.phase) && w.release.value.steps[k].status == StepPrepared
    requires forall j :: 0 <= j < k ==> w.release.value.steps[j].status == StepCompleted
    ensures var step := w.release.value.steps[k];
      var after := SetPhase(SetStep(SetDesired(w, step.instance, Draining), k, step.(status := StepDraining)), DrainingLocal);
      ActiveCore(after) && Carried(w, after)
  {}

  // ---------------------------------------------------------------- preflight

  lemma PreflightEnds(w: World)
    requires ActiveCore(w) && w.service.phase == PreflightingLocal && w.service.taskId.None?
    requires forall j :: 0 <= j < |w.release.value.steps| ==> w.release.value.steps[j].status != StepPending
    ensures var after := SetPhase(w, if |w.release.value.steps| == 1 then PreparingGuard else DrainingLocal);
      ActiveCore(after) && Carried(w, after)
  {}

  lemma {:induction false} PreflightFromKeeps(w: World, k: nat, now: Time, settings: Settings)
    requires ActiveCore(w) && w.service.phase == PreflightingLocal && w.service.taskId.None?
    requires k <= |w.release.value.steps|
    requires forall j :: 0 <= j < k ==> w.release.value.steps[j].status != StepPending
    ensures Kept(w, PreflightFrom(w, k, now, settings))
    decreases |w.release.value.steps| - k
  {
    hide Core, CleanStop, Carried, SameImage, Resolve, CanQueue, Failed;
    var steps := w.release.value.steps;
    if k == |steps| {
      PreflightEnds(w);
    } else {
      if steps[k].status != StepPending {
        PreflightFromKeeps(w, k + 1, now, settings);
      } else {
        var found := ResolveStep(w, steps[k]);
        if found.None? {
          FailureKept(w, now);
        } else {
          var bound := Rebound(w, steps[k].instance, found.value);
          BindingKeepsCore(w, steps[k].instance, found.value);
          if SameImage(w.containers[found.value].image, Text(w.service.desiredImage)) {
            var done := SetStep(bound, k, steps[k].(status := StepCompleted));
            PreflightCompleteKeepsCore(bound, k);
            PreflightFromKeeps(done, k + 1, now, settings);
            CarriedTransitive(w, bound, done);
            KeptAfter(w, done, PreflightFrom(done, k + 1, now, settings));
          } else if CanQueue(bound, found.value, now, settings) {
            QueueKeepsCore(bound, k, found.value, PrepareImage, StepPreparing);
            KeptAfter(w, bound, Queued(bound, k, found.value, PrepareImage, StepPreparing));
          } else {
            FailureKept(bound, now);
            KeptAfter(w, bound, Failed(bound, now));
          }
        }
      }
    }
  }

  /** The step that waits for the release's task is the one found by the task's id. */
  lemma CarrierIsFound(w: World)
    requires ActiveCore(w) && w.service.taskId.Some?
    ensures var t := w.service.taskId.value;
      var k := StepOfTask(w.release.value.steps, t);
      t < |w.tasks| && k.Some? && Carries(w.release.value.steps, k.value, t)
  {
    hide Placed, OthersServe, Shaped;
    var steps, t := w.release.value.steps, w.service.taskId.value;
    var k: nat :| Carries(steps, k, t);
    assert steps[k].task == Some(t);
  }

  lemma PreparedKeepsCore(w: World, k: nat, t: nat)
    requires ActiveCore(w) && w.service.phase == PreflightingLocal && Carries(w.release.value.steps, k, t)
    ensures var after := SetStep(w, k, w.release.value.steps[k].(status := StepPrepared, task := None))
        .(service := w.service.(taskId := None));
      ActiveCore(after) && Carried(w, after)
  {}

  lemma PreflightKeeps(w: World, now: Time, settings: Settings)
    requires ActiveCore(w) && w.service.phase == PreflightingLocal
    ensures Kept(w, Preflight(w, now, settings))
  {
    hide Core, CleanStop, Carried, PreflightFrom, Failed;
    if w.service.taskId.None? {
      PreflightFromKeeps(w, 0, now, settings);
    } else {
      FailureKept(w, now);
      WaitingKept(w);
      var t := w.service.taskId.value;
      CarrierIsFound(w);
      PreparedKeepsCore(w, StepOfTask(w.release.value.steps, t).value, t);
    }
  }

  // ---------------------------------------------------------------- local rollout

  lemma AdvanceKeeps(w: World, k: nat, container: nat, now: Time, settings: Settings)
    requires ActiveCore(w) && LocalPhase(w.service.phase) && w.service.taskId.None?
    requires k < |w.release.value.steps| && container < |w.containers|
    requires forall j :: 0 <= j < k ==> w.release.value.steps[j].status == StepCompleted
    requires w.release.value.steps[k].status != StepCompleted
    ensures Kept(w, Advance(w, k, container, now, settings))
  {
    var step := w.release.value.steps[k];
    if step.status == StepPrepared {
      DrainKeepsCore(w, k);
    } else {
      assert step.status == StepDraining;
      FailureKept(w, now);
      if CanQueue(w, container, now, settings) {
        QueueKeepsCore(w, k, container, UpdateImage, StepUpdating);
      }
    }
  }

  lemma {:induction false} RolloutFromKeeps(w: World, k: nat, now: Time, settings: Settings)
    requires ActiveCore(w) && LocalPhase(w.service.phase) && w.service.taskId.None?
    requires k <= |w.release.value.steps|
    requires forall j :: 0 <= j < k ==> w.release.value.steps[j].status == StepCompleted
    ensures var rolled := RolloutFrom(w, k, now, settings);
      && Kept(w, rolled.0)
      && (rolled.1 ==> LocalPhase(rolled.0.service.phase) && rolled.0.service.taskId.None?)
      && (rolled.1 ==> AllCompleted(rolled.0.release.value.steps))
    decreases |w.release.value.steps| - k
  {
    hide Core, CleanStop, Carried, SameImage, Resolve, CanQueue, Advance, Failed;
    WaitingKept(w);
    var steps := w.release.value.steps;
    if k < |steps| {
      if steps[k].status == StepCompleted {
        RolloutFromKeeps(w, k + 1, now, settings);
      } else {
        var step, found := steps[k], ResolveStep(w, steps[k]);
        if found.None? {
          FailureKept(w, now);
        } else {
          var bound := Rebound(w, step.instance, found.value);
          BindingKeepsCore(w, step.instance, found.value);
          if SameImage(w.containers[found.value].image, Text(w.service.desiredImage)) {
            var done := SetStep(SetDesired(bound, step.instance, Serve), k, step.(status := StepCompleted));
            CompleteKeepsCore(bound, k);
            RolloutFromKeeps(done, k + 1, now, settings);
            CarriedTransitive(w, bound, done);
            KeptAfter(w, done, RolloutFrom(done, k + 1, now, settings).0);
          } else {
            AdvanceKeeps(bound, k, found.value, now, settings);
            KeptAfter(w, bound, Advance(bound, k, found.value, now, settings));
          }
        }
      }
    }
  }

  lemma VerifiedKeeps(w: World, k: nat, t: nat, now: Time)
    requires ActiveCore(w) && LocalPhase(w.service.phase) && w.service.taskId == Some(t)
    requires Carries(w.release.value.steps, k, t) && k < |w.release.value.steps| && t < |w.tasks|
    ensures Kept(w, Verified(w, k, t, now))
  {
    hide SameImage, Resolve, Core, CleanStop, Carried, Failed, BackInService, Carries;
    var step := w.release.value.steps[k];
    var found := ResolveStep(w, step);
    FailureKept(w, now);
    if found.Some? {
      var bound := Rebound(w, step.instance, found.value);
      BindingKeepsCore(w, step.instance, found.value);
      FailureKept(bound, now);
      VerifyingKeepsCore(bound, k, t);
      RestoredKeepsCore(bound, k, t);
      KeptAfter(w, bound, Verified(w, k, t, now));
    }
  }

  lemma VerifyingKeepsCore(w: World, k: nat, t: nat)
    requires ActiveCore(w) && LocalPhase(w.service.phase) && w.service.taskId == Some(t)
    requires Carries(w.release.value.steps, k, t)
    ensures var step := w.release.value.steps[k];
      var after := SetPhase(SetStep(SetDesired(w, step.instance, Restoring), k, step.(status := StepVerifying)), VerifyingLocal);
      ActiveCore(after) && Carried(w, after)
  {
    var steps := w.release.value.steps;
    assert Carries(steps[k := steps[k].(status := StepVerifying)], k, t);
  }

  lemma RestoredKeepsCore(w: World, k: nat, t: nat)
    requires ActiveCore(w) && LocalPhase(w.service.phase) && w.service.taskId == Some(t)
    requires Carries(w.release.value.steps, k, t)
    ensures var step := w.release.value.steps[k];
      var after := SetStep(SetDesired(w, step.instance, Serve), k, step.(status := StepCompleted, task := None))
        .(service := w.service.(phase := DrainingLocal, taskId := None));
      ActiveCore(after) && Carried(w, after)
  {}

  lemma RolloutKeeps(w: World, now: Time, settings: Settings)
    requires ActiveCore(w) && LocalPhase(w.service.phase)
    ensures var rolled := Rollout(w, now, settings);
      && Kept(w, rolled.0)
      && (rolled.1 ==> LocalPhase(rolled.0.service.phase) && rolled.0.service.taskId.None?)
      && (rolled.1 ==> AllCompleted(rolled.0.release.value.steps))
  {
    hide Core, CleanStop, Carried, RolloutFrom, Verified, Failed;
    if w.service.taskId.None? {
      RolloutFromKeeps(w, 0, now, settings);
    } else {
      FailureKept(w, now);
      WaitingKept(w);
      var t := w.service.taskId.value;
      CarrierIsFound(w);
      VerifiedKeeps(w, StepOfTask(w.release.value.steps, t).value, t, now);
    }
  }

  // ---------------------------------------------------------------- guard, workload, completion

  lemma SourceReadBack(source: string)
    requires ReadsBack(source) && RepositoryOf(source).Some?
    ensures Text(Canonical(source)) == source
  {}

  lemma AcsPhasesShareCore(w: World, phase: Phase)
    requires ActiveCore(w) && AllCompleted(w.release.value.steps)
    requires AcsPhase(phase) || LocalPhase(phase)
    ensures ActiveCore(SetPhase(w, phase))
  {}

  lemma GuardPhasesShareCore(w: World, phase: Phase)
    requires ActiveCore(w) && (w.service.phase == PreparingGuard || w.service.phase == WaitingGuard)
    requires phase == WaitingGuard || phase == DrainingLocal
    ensures ActiveCore(SetPhase(w, phase))
  {}

  lemma CreateGuardKeeps(w: World, now: Time, p: Answers)
    requires Inv(w) && w.service.phase == PreparingGuard
    ensures Inv(CreateGuard(w, now, p))
  {
    hide Core, Canonical, RepositoryOf, Failed;
    FailureKeepsInv(w, now);
    var release := w.release.value;
    var cloud := EnsureGuard(w.cloud, release.id, release.source);
    if cloud.Some? {
      SourceReadBack(release.source);
      assert cloud.value == w.cloud.(guards := w.cloud.guards[release.id := release.source]);
      GuardCreated(w);
    }
  }

  lemma GuardCreated(w: World)
    requires Inv(w) && w.service.phase == PreparingGuard
    ensures var release := w.release.value;
      var cloud := w.cloud.(guards := w.cloud.guards[release.id := release.source]);
      Inv(SetPhase(w.(cloud := cloud, release := Some(release.(guard := Some(release.id)))), WaitingGuard))
  {
    hide Canonical;
  }

  lemma AwaitGuardKeeps(w: World, now: Time, p: Answers)
    requires Inv(w) && w.service.phase == WaitingGuard
    ensures Inv(AwaitGuard(w, now, p))
  {
    hide Core, Canonical, SameImage, GuardIsServing, Failed;
    FailureKeepsInv(w, now);
    GuardPhasesShareCore(w, DrainingLocal);
  }

  /** The canonical target is written and stays the desired image. */
  lemma WriteWorkloadKeeps(w: World, now: Time, p: Answers)
    requires Inv(w) && (w.service.phase == UpdatingAcs || w.service.phase == PreparingAcs)
    ensures Inv(WriteWorkload(w, now, p))
    ensures WriteWorkload(w, now, p).service.desiredImage == w.service.desiredImage
  {
    hide Core, Canonical, RepositoryOf, Failed;
    FailureKeepsInv(w, now);
    StepsOfAcsPhase(w);
    AcsPhasesShareCore(w, WaitingAcs);
  }

  lemma StepsOfAcsPhase(w: World)
    requires ActiveCore(w) && AcsPhase(w.service.phase)
    ensures AllCompleted(w.release.value.steps) && w.service.taskId.None?
  {
    if w.service.taskId.Some? {
      var k: nat :| Carries(w.release.value.steps, k, w.service.taskId.value);
      assert NeedsTask(w.release.value.steps[k].status);
    }
  }


  lemma RecordKeepsDistinct(versions: seq<Version>, image: string, release: nat, now: Time)
    requires VersionsDistinct(versions)
    ensures var after := RecordVersion(versions, image, release, now);
      && VersionsDistinct(after)
      && (exists i :: 0 <= i < |after| && after[i] == Version(image, Some(release), now))
      && (forall v :: v in versions && v.image != image ==> v in after)
  {
    var after := RecordVersion(versions, image, release, now);
    var found := IndexOfVersion(versions, image);
    var at := if found.Some? then found.value else |versions|;
    assert after[at] == Version(image, Some(release), now);
    forall v | v in versions && v.image != image ensures v in after {
      var i :| 0 <= i < |versions| && versions[i] == v;
      assert after[i] == v;
    }
  }

  lemma CompletionKeeps(w: World, now: Time)
    requires Base(w) && w.release.Some?
    ensures Inv(Completed(w, now)) && Completed(w, now).service.phase == ReleaseCompleted
  {
    var target := if Text(w.service.desiredImage) != "" then Text(w.service.desiredImage) else w.release.value.target;
    RecordKeepsDistinct(w.versions, target, w.release.value.id, now);
  }

  lemma AwaitWorkloadKeeps(w: World, now: Time, p: Answers)
    requires Inv(w) && w.service.phase == WaitingAcs
    ensures Inv(AwaitWorkload(w, now, p))
  {
    hide Core, SameImage, Canonical, Completed, Failed;
    FailureKeepsInv(w, now);
    CompletionKeeps(w, now);
    StepsOfAcsPhase(w);
    AcsPhasesShareCore(w, CleaningGuard);
  }

  lemma DrainGuardsKeeps(w: World, id: nat)
    requires Inv(w) && w.service.phase == CleaningGuard
    ensures Inv(DrainGuards(w, id)) && DrainGuards(w, id).service == w.service
  {
    hide Canonical;
  }

  lemma CleanGuardKeeps(w: World, now: Time, p: Answers)
    requires Inv(w) && w.service.phase == CleaningGuard
    ensures Inv(CleanGuard(w, now, p))
  {
    hide Completed, Core, Canonical, Failed;
    var release := w.release.value;
    var drained := DrainGuards(w, release.id);
    DrainGuardsKeeps(w, release.id);
    FailureKeepsInv(drained, now);
    if release.guard.Some? {
      var gone := drained.(cloud := drained.cloud.(guards := drained.cloud.guards - {release.guard.value}));
      CompletionKeeps(ForgetGuards(gone, release.id), now);
    }
  }

  /** A tick that changes only steps, instances and the task keeps the whole invariant. */
  lemma KeptInv(w: World, after: World)
    requires Inv(w) && Active(w.service.phase) && Kept(w, after)
    requires |after.release.value.steps| == |w.release.value.steps|
    requires after.service.phase == w.service.phase
      || (w.service.phase == PreflightingLocal
          && after.service.phase == if |w.release.value.steps| == 1 then PreparingGuard else DrainingLocal)
      || (LocalPhase(w.service.phase) && LocalPhase(after.service.phase))
      || !Active(after.service.phase)
    ensures Inv(after)
  {
    hide Core, Canonical;
  }

  lemma RolledOut(w: World)
    requires Inv(w) && LocalPhase(w.service.phase) && AllCompleted(w.release.value.steps) && w.service.taskId.None?
    ensures Inv(SetPhase(w, UpdatingAcs))
  {
    hide Core, Canonical;
    AcsPhasesShareCore(w, UpdatingAcs);
  }

  // ---------------------------------------------------------------- shape of a preflight and of a rollout

  /** Preflight and rollout keep the number of steps and where each of them runs, and stay
      in their phase, fail, or move to the next one. */
  ghost predicate SamePlan(w: World, after: World) {
    && w.release.Some? && after.release.Some?
    && |after.release.value.steps| == |w.release.value.steps|
    && forall k :: 0 <= k < |w.release.value.steps| ==>
         after.release.value.steps[k].instance == w.release.value.steps[k].instance
  }

  lemma FailurePlan(w: World, now: Time)
    requires w.release.Some?
    ensures SamePlan(w, Failed(w, now)) && Failed(w, now).service.phase == ReleaseFailed
  {}

  lemma {:induction false} PreflightFromPlan(w: World, k: nat, now: Time, settings: Settings)
    requires w.release.Some? && k <= |w.release.value.steps|
    ensures var after := PreflightFrom(w, k, now, settings);
      && SamePlan(w, after)
      && (|| after.service.phase == w.service.phase || after.service.phase == ReleaseFailed
          || after.service.phase == if |w.release.value.steps| == 1 then PreparingGuard else DrainingLocal)
    decreases |w.release.value.steps| - k
  {
    hide SameImage, Resolve, CanQueue, Failed;
    var steps := w.release.value.steps;
    if k < |steps| {
      if steps[k].status != StepPending {
        PreflightFromPlan(w, k + 1, now, settings);
      } else {
        var found := ResolveStep(w, steps[k]);
        if found.Some? {
          var bound := Rebound(w, steps[k].instance, found.value);
          PreflightFromPlan(SetStep(bound, k, steps[k].(status := StepCompleted)), k + 1, now, settings);
          FailurePlan(bound, now);
        } else {
          FailurePlan(w, now);
        }
      }
    }
  }

  lemma PreflightPlan(w: World, now: Time, settings: Settings)
    requires w.release.Some?
    ensures var after := Preflight(w, now, settings);
      && SamePlan(w, after)
      && (|| after.service.phase == w.service.phase || after.service.phase == ReleaseFailed
          || after.service.phase == if |w.release.value.steps| == 1 then PreparingGuard else DrainingLocal)
  {
    PreflightFromPlan(w, 0, now, settings);
    FailurePlan(w, now);
  }

  lemma AdvancePlan(w: World, k: nat, container: nat, now: Time, settings: Settings)
    requires w.release.Some? && k < |w.release.value.steps|
    requires w.release.value.steps[k].instance < |w.instances| && container < |w.containers|
    ensures var after := Advance(w, k, container, now, settings);
      && SamePlan(w, after)
      && (after.service.phase == w.service.phase || after.service.phase == ReleaseFailed || LocalPhase(after.service.phase))
  {
    FailurePlan(w, now);
  }

  lemma {:induction false} RolloutFromPlan(w: World, k: nat, now: Time, settings: Settings)
    requires w.release.Some? && k <= |w.release.value.steps| && LocalPhase(w.service.phase)
    ensures var after := RolloutFrom(w, k, now, settings).0;
      SamePlan(w, after) && (LocalPhase(after.service.phase) || after.service.phase == ReleaseFailed)
    decreases |w.release.value.steps| - k
  {
    hide SameImage, Resolve, CanQueue, Advance, Failed;
    var steps := w.release.value.steps;
    if k < |steps| {
      if steps[k].status == StepCompleted {
        RolloutFromPlan(w, k + 1, now, settings);
      } else {
        var step, found := steps[k], ResolveStep(w, steps[k]);
        FailurePlan(w, now);
        if found.Some? {
          var bound := Rebound(w, step.instance, found.value);
          RolloutFromPlan(SetStep(SetDesired(bound, step.instance, Serve), k, step.(status := StepCompleted)), k + 1, now, settings);
          AdvancePlan(bound, k, found.value, now, settings);
        }
      }
    }
  }

  lemma RolloutPlan(w: World, now: Time, settings: Settings)
    requires w.release.Some? && LocalPhase(w.service.phase)
    ensures var after := Rollout(w, now, settings).0;
      SamePlan(w, after) && (LocalPhase(after.service.phase) || after.service.phase == ReleaseFailed)
  {
    hide RolloutFrom, Verified, Failed;
    RolloutFromPlan(w, 0, now, settings);
    FailurePlan(w, now);
    if w.service.taskId.Some? && w.service.taskId.value < |w.tasks| {
      var k := StepOfTask(w.release.value.steps, w.service.taskId.value);
      if k.Some? { VerifiedPlan(w, k.value, w.service.taskId.value, now); }
    }
  }

  lemma VerifiedPlan(w: World, k: nat, t: nat, now: Time)
    requires w.release.Some? && k < |w.release.value.steps| && t < |w.tasks|
    ensures var after := Verified(w, k, t, now);
      SamePlan(w, after) && (LocalPhase(after.service.phase) || after.service.phase == ReleaseFailed)
  {
    hide SameImage, Resolve, BackInService;
    FailurePlan(w, now);
    var step, found := w.release.value.steps[k], ResolveStep(w, w.release.value.steps[k]);
    if found.Some? { FailurePlan(Rebound(w, step.instance, found.value), now); }
  }

  // ---------------------------------------------------------------- one tick

  lemma TickKeepsInv(w: World, now: Time, settings: Settings, p: Answers)
    requires Inv(w)
    ensures Inv(Tick(w, now, settings, p))
  {
    hide Core, Canonical, Failed;
    FailureKeepsInv(w, now);
    if Active(w.service.phase) && w.service.desiredImage != Some("") {
      ProgressKeepsInv(w, now, settings, p);
    }
  }

  lemma ProgressKeepsInv(w: World, now: Time, settings: Settings, p: Answers)
    requires Inv(w) && Active(w.service.phase)
    ensures Inv(Progress(w, now, settings, p))
  {
    hide Core, Canonical, Failed, Preflight, Rollout, CreateGuard, AwaitGuard, WriteWorkload, AwaitWorkload, CleanGuard;
    var phase := w.service.phase;
    if phase == PreflightingLocal {
      PreflightKeeps(w, now, settings);
      PreflightPlan(w, now, settings);
      KeptInv(w, Preflight(w, now, settings));
    } else if phase == PreparingGuard {
      CreateGuardKeeps(w, now, p);
    } else if phase == WaitingGuard {
      AwaitGuardKeeps(w, now, p);
    } else if LocalPhase(phase) {
      RolloutKeeps(w, now, settings);
      RolloutPlan(w, now, settings);
      var rolled := Rollout(w, now, settings);
      KeptInv(w, rolled.0);
      if rolled.1 { RolledOut(rolled.0); }
    } else if phase == UpdatingAcs || phase == PreparingAcs {
      WriteWorkloadKeeps(w, now, p);
    } else if phase == WaitingAcs {
      AwaitWorkloadKeeps(w, now, p);
    } else {
      CleanGuardKeeps(w, now, p);
    }
  }
}
