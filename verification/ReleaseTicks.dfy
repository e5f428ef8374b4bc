/** What one tick of an active release can do. */
module ReleaseTicks {
  import opened Wrappers
  import opened ImageReference
  import opened Model
  import opened Releases
  import opened ReleaseInvariant

  // ---------------------------------------------------------------- what never changes

  /** One release keeps its identity, its images and its plan. */
  ghost predicate SameOrder(a: Release, b: Release) {
    && b.id == a.id && b.source == a.source && b.target == a.target && |b.steps| == |a.steps|
    && forall k :: 0 <= k < |a.steps| ==> b.steps[k].instance == a.steps[k].instance
  }

  ghost predicate SameOrders(w: World, after: World) {
    && w.release.Some? && after.release.Some? && SameOrder(w.release.value, after.release.value)
    && after.service.config == w.service.config && after.service.nextRelease == w.service.nextRelease
    && after.service.desiredImage == w.service.desiredImage
    && after.service.previousImage == w.service.previousImage
  }

  lemma KeptOrders(w: World, after: World)
    requires Carried(w, after) && SamePlan(w, after)
    ensures SameOrders(w, after)
  {}

  lemma FailureOrders(w: World, now: Time)
    requires w.release.Some?
    ensures SameOrders(w, Failed(w, now))
  {
    hide Failed;
    FailureCarried(w, now);
    FailurePlan(w, now);
  }

  lemma ProviderPhaseOrders(w: World, now: Time, p: Answers)
    requires ActiveInv(w)
    ensures SameOrders(w, CreateGuard(w, now, p)) && SameOrders(w, AwaitGuard(w, now, p))
    ensures SameOrders(w, AwaitWorkload(w, now, p))
    ensures SameOrders(w, CleanGuard(w, now, p))
  {
    hide Failed, Canonical, RepositoryOf, GuardIsServing, SameImage, RecordVersion;
    FailureOrders(w, now);
    FailureOrders(DrainGuards(w, w.release.value.id), now);
  }

  /** Writing the canonical target back does not change it. */
  lemma WriteWorkloadOrders(w: World, now: Time, p: Answers)
    requires ActiveInv(w)
    ensures SameOrders(w, WriteWorkload(w, now, p))
  {
    hide Failed, Canonical, RepositoryOf;
    FailureOrders(w, now);
  }

  lemma LocalPhaseOrders(w: World, now: Time, settings: Settings)
    requires ActiveInv(w)
    ensures w.service.phase == PreflightingLocal ==> SameOrders(w, Preflight(w, now, settings))
    ensures LocalPhase(w.service.phase) ==> SameOrders(w, Rollout(w, now, settings).0)
  {
    hide Core, Preflight, Rollout, Carried, SamePlan, CleanStop;
    if w.service.phase == PreflightingLocal {
      PreflightKeeps(w, now, settings);
      PreflightPlan(w, now, settings);
      KeptOrders(w, Preflight(w, now, settings));
    } else if LocalPhase(w.service.phase) {
      RolloutKeeps(w, now, settings);
      RolloutPlan(w, now, settings);
      KeptOrders(w, Rollout(w, now, settings).0);
    }
  }

  lemma PhaseOrders(w: World, after: World, phase: Phase)
    requires SameOrders(w, after)
    ensures SameOrders(w, SetPhase(after, phase))
  {}

  lemma ProgressOrders(w: World, now: Time, settings: Settings, p: Answers)
    requires ActiveInv(w) && Active(w.service.phase)
    ensures SameOrders(w, Progress(w, now, settings, p))
  {
    hide Core, ImagesFixed, GuardKept, Failed, Preflight, Rollout, CreateGuard, AwaitGuard, WriteWorkload, AwaitWorkload,
      CleanGuard, SameOrders;
    LocalPhaseOrders(w, now, settings);
    ProviderPhaseOrders(w, now, p);
    WriteWorkloadOrders(w, now, p);
    if LocalPhase(w.service.phase) {
      PhaseOrders(w, Rollout(w, now, settings).0, UpdatingAcs);
    }
  }

  /** A tick keeps the images, the plan and the desired image of the release. */
  lemma TickOrders(w: World, now: Time, settings: Settings, p: Answers)
    requires ActiveInv(w) && Active(w.service.phase)
    ensures SameOrders(w, Tick(w, now, settings, p))
  {
    hide Failed, Progress;
    FailureOrders(w, now);
    ProgressOrders(w, now, settings, p);
  }

  // ---------------------------------------------------------------- failing

  lemma CleaningFailsCleanly(w: World, now: Time)
    requires Inv(w) && w.service.phase == CleaningGuard
    ensures CleanStop(w.service.taskId, Failed(DrainGuards(w, w.release.value.id), now))
  {
    hide Core, Failed, CleanStop, Canonical;
    var drained := DrainGuards(w, w.release.value.id);
    DrainGuardsKeeps(w, w.release.value.id);
    FailureKept(drained, now);
  }

  /** However an active release fails, it stops cleanly. */
  lemma TickFailsCleanly(w: World, now: Time, settings: Settings, p: Answers)
    requires Inv(w) && Active(w.service.phase)
    requires Tick(w, now, settings, p).service.phase == ReleaseFailed
    ensures CleanStop(w.service.taskId, Tick(w, now, settings, p))
  {
    hide Core, Failed, CleanStop, Preflight, Rollout, Canonical, RepositoryOf, SameImage, GuardIsServing, RecordVersion;
    FailureKept(w, now);
    if w.service.phase == PreflightingLocal {
      PreflightKeeps(w, now, settings);
    } else if LocalPhase(w.service.phase) {
      RolloutKeeps(w, now, settings);
    } else if w.service.phase == CleaningGuard {
      CleaningFailsCleanly(w, now);
    }
  }

  /** The agent task a stopped release leaves behind: it is still unfinished exactly when it
      was dispatched at that moment, and expired when it waited for an agent. */
  lemma StoppedReleaseLeavesDispatchedTask(w: World, now: Time)
    requires ActiveCore(w) && w.service.taskId.Some?
    ensures var t := w.service.taskId.value;
      && t < |w.tasks| && t < |Failed(w, now).tasks|
      && (Unfinished(Failed(w, now).tasks[t]) <==> w.tasks[t].status == TaskDispatched)
      && (Failed(w, now).tasks[t].status == TaskExpired <==> w.tasks[t].status in {TaskPending, TaskExpired})
  {
    hide Failed;
    OneInterrupted(w.release.value.steps, w.instances, w.service.taskId, |w.tasks|, w.service.phase);
    FailureMarks(w, now);
  }

  // ---------------------------------------------------------------- how steps move

  /** The step's container was found on the target image. */
  predicate OnTarget(w: World, step: Step) {
    var found := ResolveStep(w, step);
    found.Some? && SameImage(w.containers[found.value].image, Text(w.service.desiredImage))
  }

  /** Every way a step can move in one tick. */
  ghost predicate Moves(w: World, before: Step, after: Step) {
    && after.instance == before.instance
    && (|| after == before
        || (after.status == StepFailed && UnderWay(before.status))
        || (after.status == StepCompleted && before.status !in {StepCompleted, StepFailed} && OnTarget(w, before))
        || (before.status == StepPending && after.status == StepPreparing)
        || (before.status == StepPreparing && after.status == StepPrepared)
        || (before.status == StepPrepared && after.status == StepDraining)
        || (before.status == StepDraining && after.status == StepUpdating
            && before.instance < |w.instances| && Drained(w.instances[before.instance]))
        || (before.status == StepUpdating && after.status == StepVerifying && OnTarget(w, before)))
  }

  ghost predicate AllMove(w: World, after: World) {
    && SamePlan(w, after)
    && forall k :: 0 <= k < |w.release.value.steps| ==>
         Moves(w, w.release.value.steps[k], after.release.value.steps[k])
  }

  lemma FailureMoves(w: World, bound: World, now: Time)
    requires ActiveCore(bound) && w.release == bound.release && |w.instances| == |bound.instances|
    ensures AllMove(w, Failed(bound, now))
  {
    hide Failed, OnTarget;
    FailureMarks(bound, now);
    FailurePlan(bound, now);
  }

  /** Changes to the rows of other steps do not affect how a step may move. */
  lemma MovesElsewhere(w: World, other: World, before: Step, after: Step)
    requires Moves(other, before, after)
    requires other.containers == w.containers && other.service.desiredImage == w.service.desiredImage
    requires |other.instances| == |w.instances| && before.instance < |w.instances|
    requires other.instances[before.instance] == w.instances[before.instance]
    ensures Moves(w, before, after)
  {
    hide SameImage, Resolve;
  }

  /** Moves of the rest of the plan, seen from before step `k` was found current. */
  lemma MovesAfterCurrent(w: World, done: World, after: World, k: nat)
    requires ActiveCore(w) && k < |w.release.value.steps| && AllMove(done, after)
    requires w.release.value.steps[k].status !in {StepCompleted, StepFailed} && OnTarget(w, w.release.value.steps[k])
    requires done.release.Some? && done.containers == w.containers && done.service.desiredImage == w.service.desiredImage
    requires done.release.value.steps == w.release.value.steps[k := w.release.value.steps[k].(status := StepCompleted)]
    requires |done.instances| == |w.instances|
    requires forall i :: 0 <= i < |w.instances| && i != w.release.value.steps[k].instance ==>
      done.instances[i] == w.instances[i]
    ensures AllMove(w, after)
  {
    hide OnTarget, OthersServe, Linked, Shaped;
    var steps := w.release.value.steps;
    forall j | 0 <= j < |steps| && j != k
      ensures Moves(w, steps[j], after.release.value.steps[j])
    {
      assert Moves(done, done.release.value.steps[j], after.release.value.steps[j]);
      MovesElsewhere(w, done, steps[j], after.release.value.steps[j]);
    }
    assert Moves(done, done.release.value.steps[k], after.release.value.steps[k]);
  }

  lemma {:induction false} PreflightFromMoves(w: World, k: nat, now: Time, settings: Settings)
    requires ActiveCore(w) && w.service.phase == PreflightingLocal && w.service.taskId.None?
    requires k <= |w.release.value.steps|
    ensures AllMove(w, PreflightFrom(w, k, now, settings))
    decreases |w.release.value.steps| - k
  {
    hide Core, SameImage, Resolve, CanQueue, Failed, Moves;
    var steps := w.release.value.steps;
    StayingMoves(w);
    FailureMoves(w, w, now);
    if k < |steps| {
      if steps[k].status != StepPending {
        PreflightFromMoves(w, k + 1, now, settings);
      } else {
        var found := ResolveStep(w, steps[k]);
        if found.Some? {
          var bound := Rebound(w, steps[k].instance, found.value);
          BindingKeepsCore(w, steps[k].instance, found.value);
          FailureMoves(w, bound, now);
          if SameImage(w.containers[found.value].image, Text(w.service.desiredImage)) {
            var done := SetStep(bound, k, steps[k].(status := StepCompleted));
            PreflightCompleteKeepsCore(bound, k);
            PreflightFromMoves(done, k + 1, now, settings);
            MovesAfterCurrent(w, done, PreflightFrom(done, k + 1, now, settings), k);
          } else {
            StartsPreparing(w, steps[k], |w.tasks|);
            OneMoves(w, k, steps[k].(task := Some(|w.tasks|), status := StepPreparing));
          }
        }
      }
    }
  }

  lemma StartsPreparing(w: World, step: Step, task: nat)
    requires step.status == StepPending
    ensures Moves(w, step, step.(task := Some(task), status := StepPreparing))
  {}

  lemma StayingMoves(w: World)
    requires w.release.Some?
    ensures AllMove(w, w)
  {}

  lemma OneMoves(w: World, k: nat, step: Step)
    requires w.release.Some? && k < |w.release.value.steps| && Moves(w, w.release.value.steps[k], step)
    ensures forall after: World ::
      after.release.Some? && after.release.value.steps == w.release.value.steps[k := step] ==> AllMove(w, after)
  {
    hide Moves;
    forall j | 0 <= j < |w.release.value.steps| && j != k
      ensures Moves(w, w.release.value.steps[j], w.release.value.steps[j])
    {
      SameMoves(w, w.release.value.steps[j]);
    }
    MoveKeepsInstance(w, w.release.value.steps[k], step);
  }

  lemma SameMoves(w: World, step: Step)
    ensures Moves(w, step, step)
  {}

  lemma MoveKeepsInstance(w: World, before: Step, after: Step)
    requires Moves(w, before, after)
    ensures after.instance == before.instance
  {}

  lemma PreflightMoves(w: World, now: Time, settings: Settings)
    requires ActiveCore(w) && w.service.phase == PreflightingLocal
    ensures AllMove(w, Preflight(w, now, settings))
  {
    hide OthersServe, Moves, Failed, PreflightFrom;
    StayingMoves(w);
    if w.service.taskId.None? {
      PreflightFromMoves(w, 0, now, settings);
    } else {
      FailureMoves(w, w, now);
      CarrierIsFound(w);
      var k := StepOfTask(w.release.value.steps, w.service.taskId.value).value;
      var step := w.release.value.steps[k];
      EndsPreparing(w, step);
      OneMoves(w, k, step.(status := StepPrepared, task := None));
    }
  }

  lemma EndsPreparing(w: World, step: Step)
    requires step.status == StepPreparing
    ensures Moves(w, step, step.(status := StepPrepared, task := None))
  {}

  lemma AdvanceMoves(w: World, bound: World, k: nat, container: nat, now: Time, settings: Settings)
    requires ActiveCore(bound) && bound.release == w.release && k < |w.release.value.steps| && container < |w.containers|
    requires bound.containers == w.containers && |bound.instances| == |w.instances|
    requires forall i :: 0 <= i < |w.instances| ==>
      bound.instances[i] == w.instances[i].(container := bound.instances[i].container)
    requires LocalPhase(w.service.phase) && bound.service == w.service
    ensures AllMove(w, Advance(bound, k, container, now, settings))
  {
    hide OnTarget, CanQueue, Failed, Moves, OthersServe, Linked, Carries;
    StayingMoves(w);
    FailureMoves(w, bound, now);
    var step := w.release.value.steps[k];
    if step.status == StepPrepared {
      StartsDraining(w, step);
      OneMoves(w, k, step.(status := StepDraining));
    } else if step.status == StepDraining && Drained(bound.instances[step.instance]) {
      StartsUpdating(w, step, |bound.tasks|);
      OneMoves(w, k, step.(task := Some(|bound.tasks|), status := StepUpdating));
    }
  }

  lemma StartsDraining(w: World, step: Step)
    requires step.status == StepPrepared
    ensures Moves(w, step, step.(status := StepDraining))
  {}

  lemma StartsUpdating(w: World, step: Step, task: nat)
    requires step.status == StepDraining && step.instance < |w.instances| && Drained(w.instances[step.instance])
    ensures Moves(w, step, step.(task := Some(task), status := StepUpdating))
  {}

  lemma {:induction false} RolloutFromMoves(w: World, k: nat, now: Time, settings: Settings)
    requires ActiveCore(w) && LocalPhase(w.service.phase) && w.service.taskId.None?
    requires k <= |w.release.value.steps|
    ensures AllMove(w, RolloutFrom(w, k, now, settings).0)
    decreases |w.release.value.steps| - k
  {
    hide Core, SameImage, Resolve, CanQueue, Failed, Moves, Advance;
    var steps := w.release.value.steps;
    StayingMoves(w);
    FailureMoves(w, w, now);
    if k < |steps| {
      if steps[k].status == StepCompleted {
        RolloutFromMoves(w, k + 1, now, settings);
      } else {
        var step, found := steps[k], ResolveStep(w, steps[k]);
        if found.Some? {
          var bound := Rebound(w, step.instance, found.value);
          BindingKeepsCore(w, step.instance, found.value);
          if SameImage(w.containers[found.value].image, Text(w.service.desiredImage)) {
            var done := SetStep(SetDesired(bound, step.instance, Serve), k, step.(status := StepCompleted));
            CompleteKeepsCore(bound, k);
            RolloutFromMoves(done, k + 1, now, settings);
            NotFailedYet(w, k);
            MovesAfterCurrent(w, done, RolloutFrom(done, k + 1, now, settings).0, k);
          } else {
            AdvanceMoves(w, bound, k, found.value, now, settings);
          }
        }
      }
    }
  }

  lemma NotFailedYet(w: World, k: nat)
    requires ActiveCore(w) && Active(w.service.phase) && k < |w.release.value.steps|
    ensures w.release.value.steps[k].status != StepFailed
  {}

  lemma VerifiedMoves(w: World, k: nat, t: nat, now: Time)
    requires ActiveCore(w) && LocalPhase(w.service.phase) && w.service.taskId == Some(t)
    requires k < |w.release.value.steps| && t < |w.tasks| && Carries(w.release.value.steps, k, t)
    ensures AllMove(w, Verified(w, k, t, now))
  {
    hide SameImage, Resolve, Failed, Moves, BackInService, OthersServe, Linked;
    var step := w.release.value.steps[k];
    var found := ResolveStep(w, step);
    FailureMoves(w, w, now);
    if found.Some? {
      var bound := Rebound(w, step.instance, found.value);
      BindingKeepsCore(w, step.instance, found.value);
      FailureMoves(w, bound, now);
      if OnTarget(w, step) {
        EndsUpdating(w, step);
        OneMoves(w, k, step.(status := StepVerifying));
        OneMoves(w, k, step.(status := StepCompleted, task := None));
      }
    }
  }

  lemma EndsUpdating(w: World, step: Step)
    requires step.status in {StepUpdating, StepVerifying} && OnTarget(w, step)
    ensures Moves(w, step, step.(status := StepVerifying))
    ensures Moves(w, step, step.(status := StepCompleted, task := None))
  {}

  lemma RolloutMoves(w: World, now: Time, settings: Settings)
    requires ActiveCore(w) && LocalPhase(w.service.phase)
    ensures AllMove(w, Rollout(w, now, settings).0)
  {
    hide Core, Moves, Failed, RolloutFrom, Verified;
    StayingMoves(w);
    if w.service.taskId.None? {
      RolloutFromMoves(w, 0, now, settings);
    } else {
      FailureMoves(w, w, now);
      CarrierIsFound(w);
      var t := w.service.taskId.value;
      VerifiedMoves(w, StepOfTask(w.release.value.steps, t).value, t, now);
    }
  }

  lemma ProviderPhaseMoves(w: World, now: Time, p: Answers)
    requires ActiveInv(w) && Active(w.service.phase)
    ensures AllMove(w, CreateGuard(w, now, p)) && AllMove(w, AwaitGuard(w, now, p))
    ensures AllMove(w, WriteWorkload(w, now, p)) && AllMove(w, AwaitWorkload(w, now, p))
  {
    hide Core, ImagesFixed, GuardKept, Failed, EnsureGuard, SetWorkloadImage, Canonical, SameImage, GuardIsServing,
      RecordVersion, Moves;
    FailureMoves(w, w, now);
    SameStepsMove(w);
  }

  lemma CleanGuardMoves(w: World, now: Time, p: Answers)
    requires Inv(w) && w.service.phase == CleaningGuard
    ensures AllMove(w, CleanGuard(w, now, p))
  {
    hide Core, ImagesFixed, GuardKept, Failed, Canonical, RecordVersion, Moves, HasGuards, GuardsDrained, GuardInstance;
    var drained := DrainGuards(w, w.release.value.id);
    DrainGuardsKeeps(w, w.release.value.id);
    FailureMoves(w, drained, now);
    SameStepsMove(w);
  }

  lemma SameStepsMove(w: World)
    requires w.release.Some?
    ensures forall after: World ::
      after.release.Some? && after.release.value.steps == w.release.value.steps ==> AllMove(w, after)
  {
    hide OnTarget;
  }

  /** One tick moves every step along one of the listed ways. */
  lemma TickMoves(w: World, now: Time, settings: Settings, p: Answers)
    requires Inv(w) && Active(w.service.phase)
    ensures AllMove(w, Tick(w, now, settings, p))
  {
    hide Core, ImagesFixed, GuardKept, Failed, Preflight, Rollout, CreateGuard, AwaitGuard, WriteWorkload, AwaitWorkload,
      CleanGuard, Moves;
    FailureMoves(w, w, now);
    SameStepsMove(w);
    if w.service.phase == PreflightingLocal {
      PreflightMoves(w, now, settings);
    } else if LocalPhase(w.service.phase) {
      RolloutMoves(w, now, settings);
    } else if w.service.phase == CleaningGuard {
      CleanGuardMoves(w, now, p);
    } else {
      ProviderPhaseMoves(w, now, p);
    }
  }

  // ---------------------------------------------------------------- progress

  function PhaseRank(phase: Phase): nat {
    if phase == PreflightingLocal then 7
    else if phase == PreparingGuard then 6
    else if phase == WaitingGuard then 5
    else if LocalPhase(phase) then 4
    else if phase == UpdatingAcs || phase == PreparingAcs then 3
    else if phase == WaitingAcs then 2
    else if phase == CleaningGuard then 1
    else 0
  }

  function StepRank(status: StepStatus): nat {
    match status
    case StepPending => 6
    case StepPreparing => 5
    case StepPrepared => 4
    case StepDraining => 3
    case StepUpdating => 2
    case StepVerifying => 1
    case StepCompleted => 0
    case StepFailed => 0
  }

  function StepRanks(steps: seq<Step>): nat {
    if steps == [] then 0 else StepRanks(steps[..|steps| - 1]) + StepRank(steps[|steps| - 1].status)
  }

  /** What is left to do of an active release; nothing once it has stopped. */
  function Remaining(w: World): nat {
    if Active(w.service.phase) then
      PhaseRank(w.service.phase) + if w.release.Some? then StepRanks(w.release.value.steps) else 0
    else 0
  }

  /** The tick waited for its environment: status, steps and tasks are as before. */
  predicate Waits(w: World, after: World) {
    && after.release == w.release && after.tasks == w.tasks
    && after.service.phase == w.service.phase && after.service.taskId == w.service.taskId
  }

  lemma {:induction false} RanksFall(before: seq<Step>, after: seq<Step>)
    requires |after| == |before|
    requires forall k :: 0 <= k < |before| ==>
      after[k] == before[k] || StepRank(after[k].status) < StepRank(before[k].status)
    ensures StepRanks(after) <= StepRanks(before)
    ensures after != before ==> StepRanks(after) < StepRanks(before)
  {
    if before != [] {
      var n := |before| - 1;
      RanksFall(before[..n], after[..n]);
      assert before == before[..n] + [before[n]] && after == after[..n] + [after[n]];
    }
  }

  lemma MoveLowersRank(w: World, before: Step, after: Step)
    requires Moves(w, before, after)
    ensures after == before || StepRank(after.status) < StepRank(before.status)
  {
    hide OnTarget, Drained;
  }

  lemma MovesLowerRanks(w: World, after: World)
    requires w.release.Some? && AllMove(w, after)
    ensures StepRanks(after.release.value.steps) <= StepRanks(w.release.value.steps)
    ensures after.release.value.steps != w.release.value.steps ==>
      StepRanks(after.release.value.steps) < StepRanks(w.release.value.steps)
  {
    hide Moves, StepRank, StepRanks;
    var before, next := w.release.value.steps, after.release.value.steps;
    forall k | 0 <= k < |before|
      ensures next[k] == before[k] || StepRank(next[k].status) < StepRank(before[k].status)
    {
      MoveLowersRank(w, before[k], next[k]);
    }
    RanksFall(before, next);
  }

  lemma {:induction false} PreflightFromAdvances(w: World, k: nat, now: Time, settings: Settings)
    requires ActiveCore(w) && w.service.phase == PreflightingLocal && w.service.taskId.None?
    requires k <= |w.release.value.steps|
    ensures var after := PreflightFrom(w, k, now, settings);
      after.service.phase != PreflightingLocal || (after.release.Some? && after.release.value.steps != w.release.value.steps)
    decreases |w.release.value.steps| - k
  {
    hide Core, SameImage, Resolve, CanQueue, Failed, OnTarget;
    var steps := w.release.value.steps;
    FailurePlan(w, now);
    if k < |steps| {
      if steps[k].status != StepPending {
        PreflightFromAdvances(w, k + 1, now, settings);
      } else {
        var found := ResolveStep(w, steps[k]);
        if found.Some? {
          var bound := Rebound(w, steps[k].instance, found.value);
          FailurePlan(bound, now);
          if SameImage(w.containers[found.value].image, Text(w.service.desiredImage)) {
            var done := SetStep(bound, k, steps[k].(status := StepCompleted));
            BindingKeepsCore(w, steps[k].instance, found.value);
            PreflightCompleteKeepsCore(bound, k);
            PreflightFromMoves(done, k + 1, now, settings);
            assert Moves(done, done.release.value.steps[k], PreflightFrom(done, k + 1, now, settings).release.value.steps[k]);
          } else if CanQueue(bound, found.value, now, settings) {
            assert PreflightFrom(w, k, now, settings).release.value.steps[k].status == StepPreparing;
          }
        }
      }
    }
  }

  lemma PreflightAdvances(w: World, now: Time, settings: Settings)
    requires ActiveCore(w) && w.service.phase == PreflightingLocal
    ensures var after := Preflight(w, now, settings);
      Waits(w, after) || after.service.phase != PreflightingLocal
      || (after.release.Some? && after.release.value.steps != w.release.value.steps)
  {
    hide PreflightFrom, Failed, OthersServe;
    FailurePlan(w, now);
    if w.service.taskId.None? {
      PreflightFromAdvances(w, 0, now, settings);
    } else {
      CarrierIsFound(w);
      var k := StepOfTask(w.release.value.steps, w.service.taskId.value).value;
      assert w.release.value.steps[k].(status := StepPrepared, task := None) != w.release.value.steps[k];
    }
  }

  lemma CompletedStays(w: World, before: Step, after: Step)
    requires Moves(w, before, after) && before.status == StepCompleted
    ensures after == before
  {}

  lemma {:induction false} RolloutFromAdvances(w: World, k: nat, now: Time, settings: Settings)
    requires ActiveCore(w) && LocalPhase(w.service.phase) && w.service.taskId.None?
    requires k <= |w.release.value.steps|
    ensures var rolled := RolloutFrom(w, k, now, settings);
      || rolled.1 || Waits(w, rolled.0) || rolled.0.service.phase == ReleaseFailed
      || (rolled.0.release.Some? && rolled.0.release.value.steps != w.release.value.steps)
    decreases |w.release.value.steps| - k
  {
    hide Core, SameImage, Resolve, CanQueue, Failed, Moves, Advance;
    var steps := w.release.value.steps;
    FailurePlan(w, now);
    if k < |steps| {
      if steps[k].status == StepCompleted {
        RolloutFromAdvances(w, k + 1, now, settings);
      } else {
        var step, found := steps[k], ResolveStep(w, steps[k]);
        if found.Some? {
          var bound := Rebound(w, step.instance, found.value);
          BindingKeepsCore(w, step.instance, found.value);
          if SameImage(w.containers[found.value].image, Text(w.service.desiredImage)) {
            var done := SetStep(SetDesired(bound, step.instance, Serve), k, step.(status := StepCompleted));
            CompleteKeepsCore(bound, k);
            RolloutFromMoves(done, k + 1, now, settings);
            CompletedStays(done, done.release.value.steps[k], RolloutFrom(done, k + 1, now, settings).0.release.value.steps[k]);
          } else {
            AdvanceAdvances(bound, k, found.value, now, settings);
          }
        }
      }
    }
  }

  lemma AdvanceAdvances(w: World, k: nat, container: nat, now: Time, settings: Settings)
    requires w.release.Some? && k < |w.release.value.steps|
    requires w.release.value.steps[k].instance < |w.instances| && container < |w.containers|
    ensures var after := Advance(w, k, container, now, settings);
      || Waits(w, after) || after.service.phase == ReleaseFailed
      || (after.release.Some? && after.release.value.steps != w.release.value.steps)
  {
    hide Failed, CanQueue;
    FailurePlan(w, now);
    var step, after := w.release.value.steps[k], Advance(w, k, container, now, settings);
    if step.status in {StepPrepared, StepPending, StepPreparing} {
      assert after.release.value.steps[k].status == StepDraining;
    } else if step.status == StepDraining && Drained(w.instances[step.instance]) && CanQueue(w, container, now, settings) {
      assert after.release.value.steps[k].status == StepUpdating;
    }
  }

  lemma VerifiedAdvances(w: World, k: nat, t: nat, now: Time)
    requires ActiveCore(w) && LocalPhase(w.service.phase) && w.service.taskId == Some(t)
    requires k < |w.release.value.steps| && t < |w.tasks| && Carries(w.release.value.steps, k, t)
    ensures var after := Verified(w, k, t, now);
      || Waits(w, after) || after.service.phase == ReleaseFailed
      || (after.release.Some? && after.release.value.steps != w.release.value.steps)
  {
    hide Failed, SameImage, Resolve, BackInService, OthersServe, Placed;
    FailurePlan(w, now);
    var step, after, found := w.release.value.steps[k], Verified(w, k, t, now), ResolveStep(w, w.release.value.steps[k]);
    if found.Some? && step.instance < |w.instances| {
      FailurePlan(Rebound(w, step.instance, found.value), now);
    }
    if after.service.phase != ReleaseFailed && step.status != StepVerifying {
      assert after.release.value.steps[k].status != step.status;
    }
  }

  lemma RolloutAdvances(w: World, now: Time, settings: Settings)
    requires ActiveCore(w) && LocalPhase(w.service.phase)
    ensures var rolled := Rollout(w, now, settings);
      || rolled.1 || Waits(w, rolled.0) || rolled.0.service.phase == ReleaseFailed
      || (rolled.0.release.Some? && rolled.0.release.value.steps != w.release.value.steps)
  {
    hide Core, RolloutFrom, Verified, Failed;
    FailurePlan(w, now);
    if w.service.taskId.None? {
      RolloutFromAdvances(w, 0, now, settings);
    } else {
      CarrierIsFound(w);
      var t := w.service.taskId.value;
      VerifiedAdvances(w, StepOfTask(w.release.value.steps, t).value, t, now);
    }
  }

  lemma LocalPhaseAdvances(w: World, now: Time, settings: Settings, p: Answers)
    requires ActiveInv(w) && (w.service.phase == PreflightingLocal || LocalPhase(w.service.phase))
    ensures var after := Progress(w, now, settings, p); Waits(w, after) || Remaining(after) < Remaining(w)
  {
    hide Core, ImagesFixed, GuardKept, Preflight, Rollout, AllMove, StepRanks;
    if w.service.phase == PreflightingLocal {
      PreflightAdvances(w, now, settings);
      PreflightPlan(w, now, settings);
      PreflightMoves(w, now, settings);
      MovesLowerRanks(w, Preflight(w, now, settings));
    } else {
      RolloutAdvances(w, now, settings);
      RolloutPlan(w, now, settings);
      RolloutMoves(w, now, settings);
      MovesLowerRanks(w, Rollout(w, now, settings).0);
    }
  }

  lemma ProviderPhaseAdvances(w: World, now: Time, settings: Settings, p: Answers)
    requires Inv(w) && Active(w.service.phase) && w.service.phase != PreflightingLocal && !LocalPhase(w.service.phase)
    ensures var after := Progress(w, now, settings, p); Waits(w, after) || Remaining(after) < Remaining(w)
  {
    hide Core, ImagesFixed, GuardKept, Failed, EnsureGuard, SetWorkloadImage, Canonical, SameImage, GuardIsServing,
      RecordVersion, StepRanks, HasGuards, GuardsDrained, GuardInstance;
    FailurePlan(w, now);
    FailurePlan(DrainGuards(w, w.release.value.id), now);
  }

  /** Every tick of an active release waits for its environment or gets strictly closer to
      the end; failing and completing are the end. */
  lemma TickAdvances(w: World, now: Time, settings: Settings, p: Answers)
    requires Inv(w) && Active(w.service.phase)
    ensures var after := Tick(w, now, settings, p); Waits(w, after) || Remaining(after) < Remaining(w)
  {
    hide Core, ImagesFixed, GuardKept, Failed, Progress, StepRanks;
    FailurePlan(w, now);
    if w.service.phase == PreflightingLocal || LocalPhase(w.service.phase) {
      LocalPhaseAdvances(w, now, settings, p);
    } else {
      ProviderPhaseAdvances(w, now, settings, p);
    }
  }

  // ---------------------------------------------------------------- guard, workload, completion

  /** No local instance has been withdrawn yet. */
  predicate Early(phase: Phase) {
    phase == PreflightingLocal || phase == PreparingGuard || phase == WaitingGuard
  }

  /** The old-image guard exists and is ready, and its business is healthy, accepting,
      freshly reported and routable. */
  predicate GuardConfirmed(w: World, now: Time, p: Answers) {
    && w.service.phase == WaitingGuard && p.client && p.call && p.guardReady && w.release.Some?
    && w.release.value.id in w.cloud.guards
    && SameImage(w.cloud.guards[w.release.value.id], w.release.value.source)
    && GuardIsServing(w, w.release.value.id, now)
  }

  lemma TickPassesGuard(w: World, now: Time, settings: Settings, p: Answers)
    requires Inv(w) && Early(w.service.phase) && |w.release.value.steps| == 1
    ensures var after := Tick(w, now, settings, p);
      && after.release.Some? && |after.release.value.steps| == 1
      && (Active(after.service.phase) && !Early(after.service.phase) ==> GuardConfirmed(w, now, p))
  {
    hide Core, ImagesFixed, Failed, Preflight, EnsureGuard, Canonical, SameImage, GuardIsServing;
    FailurePlan(w, now);
    if w.service.phase == PreflightingLocal { PreflightPlan(w, now, settings); }
  }

  lemma KeptGuards(w: World, now: Time, settings: Settings, p: Answers)
    requires Inv(w) && Active(w.service.phase) && w.service.phase != CleaningGuard
    ensures forall id :: id in w.cloud.guards ==> id in Tick(w, now, settings, p).cloud.guards
  {
    hide Core, ImagesFixed, Failed, Preflight, Rollout, Canonical, SameImage, GuardIsServing, RepositoryOf, RecordVersion,
      CleanStop;
    FailureCarried(w, now);
    if w.service.phase == PreflightingLocal {
      PreflightKeeps(w, now, settings);
    } else if LocalPhase(w.service.phase) {
      RolloutKeeps(w, now, settings);
    }
  }

  /** A tick that stops a release leaves all guards alone. */
  lemma TickFailureKeepsGuards(w: World, now: Time, settings: Settings, p: Answers)
    requires Inv(w) && Active(w.service.phase) && Tick(w, now, settings, p).service.phase == ReleaseFailed
    ensures Tick(w, now, settings, p).cloud.guards == w.cloud.guards
  {
    hide Core, ImagesFixed, Failed, Preflight, Rollout, Canonical, SameImage, GuardIsServing, RepositoryOf, RecordVersion,
      CleanStop, EnsureGuard;
    FailureCarried(w, now);
    FailureCarried(DrainGuards(w, w.release.value.id), now);
    if w.service.phase == PreflightingLocal {
      PreflightKeeps(w, now, settings);
    } else if LocalPhase(w.service.phase) {
      RolloutKeeps(w, now, settings);
    }
  }

  /** A tick creates and deletes no guard but its own release's. */
  lemma TickKeepsForeignGuard(w: World, now: Time, settings: Settings, p: Answers, id: nat)
    requires Inv(w) && Active(w.service.phase) && id in w.cloud.guards && w.release.value.id != id
    ensures var guards := Tick(w, now, settings, p).cloud.guards; id in guards && guards[id] == w.cloud.guards[id]
  {
    hide Core, ImagesFixed, Failed, Preflight, Rollout, Canonical, SameImage, GuardIsServing, RepositoryOf, RecordVersion,
      CleanStop;
    FailureCarried(w, now);
    FailureCarried(DrainGuards(w, w.release.value.id), now);
    if w.service.phase == PreflightingLocal {
      PreflightKeeps(w, now, settings);
    } else if LocalPhase(w.service.phase) {
      RolloutKeeps(w, now, settings);
    }
  }

  /** A guard is deleted only by the release it belongs to, in its cleaning phase, with every
      step completed and every registered guard instance in maintenance without business. */
  lemma TickDeletesGuard(w: World, now: Time, settings: Settings, p: Answers, id: nat)
    requires Inv(w) && Active(w.service.phase)
    requires id in w.cloud.guards && id !in Tick(w, now, settings, p).cloud.guards
    ensures w.service.phase == CleaningGuard && w.release.value.id == id && AllCompleted(w.release.value.steps)
    ensures forall i :: 0 <= i < |w.instances| && GuardInstance(w, i, id) ==> Drained(w.instances[i])
  {
    hide Failed, ImagesFixed, Progress;
    FailureCarried(w, now);
    if w.service.phase == CleaningGuard {
      GuardsGone(w, now, settings, p, id);
    } else {
      KeptGuards(w, now, settings, p);
    }
  }

  lemma GuardsGone(w: World, now: Time, settings: Settings, p: Answers, id: nat)
    requires Inv(w) && w.service.phase == CleaningGuard
    requires id in w.cloud.guards && id !in Tick(w, now, settings, p).cloud.guards
    ensures w.release.value.id == id && AllCompleted(w.release.value.steps)
    ensures forall i :: 0 <= i < |w.instances| && GuardInstance(w, i, id) ==> Drained(w.instances[i])
  {
    hide Core, Failed, ImagesFixed, RecordVersion;
    StepsOfAcsPhase(w);
    FailureCarried(w, now);
    FailureCarried(DrainGuards(w, w.release.value.id), now);
    DrainedBefore(w, w.release.value.id);
  }

  /** Asking to drain drains nobody at once. */
  lemma DrainedBefore(w: World, id: nat)
    requires !HasGuards(w, id) || GuardsDrained(DrainGuards(w, id), id)
    ensures forall i :: 0 <= i < |w.instances| && GuardInstance(w, i, id) ==> Drained(w.instances[i])
  {
    var drained := DrainGuards(w, id);
    forall i | 0 <= i < |w.instances| && GuardInstance(w, i, id) ensures Drained(w.instances[i]) {
      assert HasGuards(w, id);
      assert GuardInstance(drained, i, id);
    }
  }

  /** The workload image is written only when every step is completed, and to the target. */
  lemma TickWritesWorkload(w: World, now: Time, settings: Settings, p: Answers)
    requires Inv(w) && Active(w.service.phase)
    requires Tick(w, now, settings, p).cloud.workloadImage != w.cloud.workloadImage
    ensures w.service.phase == UpdatingAcs || w.service.phase == PreparingAcs
    ensures AllCompleted(w.release.value.steps)
    ensures Tick(w, now, settings, p).cloud.workloadImage == w.release.value.target
    ensures RepositoryOf(w.cloud.workloadImage).Some?
    ensures RepositoryOf(w.cloud.workloadImage) == RepositoryOf(w.release.value.target)
  {
    hide Core, Failed, Preflight, Rollout, Canonical, SameImage, GuardIsServing, RepositoryOf, RecordVersion, GuardKept,
      CleanStop;
    FailureCarried(w, now);
    if w.service.phase == PreflightingLocal {
      PreflightKeeps(w, now, settings);
    } else if LocalPhase(w.service.phase) {
      RolloutKeeps(w, now, settings);
    } else {
      FailureCarried(DrainGuards(w, w.release.value.id), now);
      if AcsPhase(w.service.phase) { StepsOfAcsPhase(w); }
    }
  }

  /** The provider reported the rollout of the target ready. */
  predicate RolloutReady(w: World, p: Answers) {
    && w.service.phase == WaitingAcs && p.client && p.call && p.rolledOut
    && w.release.Some? && SameImage(w.cloud.workloadImage, w.release.value.target)
  }

  lemma TickFinishesRollout(w: World, now: Time, settings: Settings, p: Answers)
    requires Inv(w) && Active(w.service.phase) && w.service.phase != CleaningGuard
    ensures var phase := Tick(w, now, settings, p).service.phase;
      phase == CleaningGuard || phase == ReleaseCompleted ==> RolloutReady(w, p)
  {
    hide Core, Failed, Preflight, Rollout, Canonical, SameImage, GuardIsServing, RepositoryOf, RecordVersion, GuardKept;
    FailurePlan(w, now);
    if w.service.phase == PreflightingLocal {
      PreflightPlan(w, now, settings);
    } else if LocalPhase(w.service.phase) {
      RolloutPlan(w, now, settings);
    }
  }

  /** A completed release is recorded by exactly one version row with its target. */
  ghost predicate RecordedOnce(versions: seq<Version>, target: string, release: nat, now: Time) {
    exists i :: 0 <= i < |versions| && versions[i] == Version(target, Some(release), now)
      && forall j :: 0 <= j < |versions| && versions[j].image == target ==> j == i
  }

  lemma TickRecords(w: World, now: Time, settings: Settings, p: Answers)
    requires Inv(w) && Active(w.service.phase)
    requires Tick(w, now, settings, p).service.phase == ReleaseCompleted
    ensures w.service.phase == WaitingAcs || w.service.phase == CleaningGuard
    ensures AllCompleted(w.release.value.steps)
    ensures RecordedOnce(Tick(w, now, settings, p).versions, w.release.value.target, w.release.value.id, now)
  {
    hide Core, Failed, Preflight, Rollout, Canonical, SameImage, GuardIsServing, RepositoryOf, GuardKept, RecordVersion;
    FailurePlan(w, now);
    if w.service.phase == PreflightingLocal {
      PreflightPlan(w, now, settings);
    } else if LocalPhase(w.service.phase) {
      RolloutPlan(w, now, settings);
    } else {
      FailurePlan(DrainGuards(w, w.release.value.id), now);
      RecordedIsOnce(w.versions, w.release.value.target, w.release.value.id, now);
      if AcsPhase(w.service.phase) { StepsOfAcsPhase(w); }
      TargetIsNotEmpty(w.release.value.target);
    }
  }

  lemma TargetIsNotEmpty(target: string)
    requires IsCanonical(target)
    ensures target != ""
  {
    assert Canonical(target) == Some(target);
  }

  lemma RecordedIsOnce(versions: seq<Version>, target: string, release: nat, now: Time)
    requires VersionsDistinct(versions)
    ensures RecordedOnce(RecordVersion(versions, target, release, now), target, release, now)
  {
    hide RecordVersion;
    RecordKeepsDistinct(versions, target, release, now);
    var after := RecordVersion(versions, target, release, now);
    var i :| 0 <= i < |after| && after[i] == Version(target, Some(release), now);
    assert after[i].image == target;
  }
}
