/** What one tick of an active release comes to, on the rows it finds: when it stops the
    release, when it waits, and which step it takes (cloudhelm/releases.py). */
module ReleaseOutcomes {
  import opened Wrappers
  import opened ImageReference
  import opened Model
  import opened Releases
  import opened ReleaseInvariant
  import opened ReleaseTicks

  // ---------------------------------------------------------------- stopping

  /** The switch is off, the provider's client cannot be built, or the time is over. */
  ghost predicate MustStop(w: World, now: Time, settings: Settings, p: Answers) {
    || !settings.autoscaling || !p.client
    || (w.service.startedAt.Some? && now > w.service.startedAt.value + settings.releaseTimeout)
  }

  /** Then, and whatever else is the case, the tick stops the release, cleanly. */
  lemma TickStops(w: World, now: Time, settings: Settings, p: Answers)
    requires Inv(w) && Active(w.service.phase) && MustStop(w, now, settings, p)
    ensures var after := Tick(w, now, settings, p);
      after.service.phase == ReleaseFailed && CleanStop(w.service.taskId, after)
  {
    hide Core, Failed, CleanStop, Progress, GuardKept;
    FailureKept(w, now);
  }

  /** Otherwise a tick that finds the release's task unfinished does nothing at all. */
  lemma TickAwaitsTask(w: World, now: Time, settings: Settings, p: Answers)
    requires Inv(w) && Active(w.service.phase) && !MustStop(w, now, settings, p)
    requires w.service.taskId.Some? && w.service.taskId.value < |w.tasks| && Unfinished(w.tasks[w.service.taskId.value])
    ensures Tick(w, now, settings, p) == w
  {
    hide Failed, Placed, OthersServe, GuardKept, ImagesFixed;
    var k: nat :| Carries(w.release.value.steps, k, w.service.taskId.value);
  }

  lemma TickGoesOn(w: World, now: Time, settings: Settings, p: Answers)
    requires Inv(w) && Active(w.service.phase) && !MustStop(w, now, settings, p)
    ensures Tick(w, now, settings, p) == Progress(w, now, settings, p)
    ensures w.service.desiredImage == Some(w.release.value.target) && w.release.value.target != ""
  {
    hide Failed, Progress, Core, GuardKept;
    TargetIsNotEmpty(w.release.value.target);
  }

  // ---------------------------------------------------------------- which step is taken

  /** The step's container is there, its node was seen lately, somebody asked for the release,
      and no other task concerns the container. */
  ghost predicate Ready(w: World, step: Step, now: Time, settings: Settings) {
    && w.service.requestedBy && ResolveStep(w, step).Some?
    && var c := ResolveStep(w, step).value; var node := w.containers[c].node;
       && node < |w.nodes| && w.nodes[node].lastSeen.Some? && now <= w.nodes[node].lastSeen.value + settings.nodeOffline
       && forall t :: 0 <= t < |w.tasks| && w.tasks[t].container == c ==> w.tasks[t].status !in {TaskPending, TaskDispatched}
  }

  lemma ReadyMeans(w: World, step: Step, now: Time, settings: Settings)
    ensures Ready(w, step, now, settings) <==>
      ResolveStep(w, step).Some? && CanQueue(w, ResolveStep(w, step).value, now, settings)
  {
    hide Resolve;
  }

  /** The new task for a step's container. */
  ghost function NewTask(w: World, step: Step, action: Action): Task
    requires ResolveStep(w, step).Some?
  {
    var c := ResolveStep(w, step).value;
    Task(w.containers[c].node, c, action, Text(w.service.desiredImage), TaskPending, None, None)
  }

  /** The status of a step the tick passes: in preflight only pending ones are completed. */
  function Passed(status: StepStatus, rollout: bool): StepStatus {
    if rollout || status == StepPending then StepCompleted else status
  }

  /** The tick passed the steps from `a` up to `b`: they have the status of passed ones, their
      instances serve and may have been bound to the containers found; nothing else changed. */
  ghost predicate PassedSteps(w: World, after: World, a: nat, b: nat, rollout: bool) {
    && w.release.Some? && after.release.Some? && a <= b <= |w.release.value.steps|
    && var before, steps := w.release.value.steps, after.release.value.steps;
       && after == w.(instances := after.instances, release := Some(w.release.value.(steps := steps)))
       && |steps| == |before| && |after.instances| == |w.instances|
       && (forall j :: 0 <= j < |steps| ==>
             steps[j] == if a <= j < b then before[j].(status := Passed(before[j].status, rollout)) else before[j])
       && (forall i :: 0 <= i < |w.instances| ==>
             after.instances[i] == w.instances[i].(container := after.instances[i].container, desired := after.instances[i].desired))
       && (forall j :: 0 <= j < |steps| && before[j].instance < |w.instances| ==>
             after.instances[before[j].instance].desired ==
               if a <= j < b then Serve else w.instances[before[j].instance].desired)
       && (forall j :: 0 <= j < |steps| && !(a <= j < b) && before[j].instance < |w.instances| ==>
             after.instances[before[j].instance] == w.instances[before[j].instance])
       && (forall i :: 0 <= i < |w.instances| && (forall j :: 0 <= j < |steps| ==> before[j].instance != i) ==>
             after.instances[i] == w.instances[i])
  }

  lemma NothingPassed(w: World, a: nat, rollout: bool)
    requires w.release.Some? && a <= |w.release.value.steps|
    ensures PassedSteps(w, w, a, a, rollout)
  {}

  /** Passing one step more. */
  ghost predicate PassedOne(w: World, done: World, a: nat, rollout: bool)
    requires w.release.Some? && a < |w.release.value.steps|
  {
    var step := w.release.value.steps[a];
    && step.instance < |w.instances| && |done.instances| == |w.instances|
    && done.instances == w.instances[step.instance :=
         w.instances[step.instance].(container := done.instances[step.instance].container, desired := Serve)]
    && done == w.(instances := done.instances,
         release := Some(w.release.value.(steps := w.release.value.steps[a := step.(status := Passed(step.status, rollout))])))
  }

  lemma PassedMore(w: World, done: World, after: World, a: nat, b: nat, rollout: bool)
    requires ActiveCore(w) && a < b <= |w.release.value.steps| && PassedOne(w, done, a, rollout)
    requires PassedSteps(done, after, a + 1, b, rollout)
    ensures PassedSteps(w, after, a, b, rollout)
  {
    hide OthersServe, Linked, Shaped, Passed;
    var before, middle, steps := w.release.value.steps, done.release.value.steps, after.release.value.steps;
    assert forall j :: 0 <= j < |before| ==> middle[j].instance == before[j].instance;
    assert forall j :: 0 <= j < |before| && j != a ==> before[j].instance != before[a].instance;
  }

  /** Rows of other steps do not matter to whether a step is on target or ready. */
  lemma StepElsewhere(w: World, other: World, step: Step, now: Time, settings: Settings)
    requires other == w.(instances := other.instances, release := other.release)
    requires |other.instances| == |w.instances| && step.instance < |w.instances|
    requires other.instances[step.instance] == w.instances[step.instance]
    ensures ResolveStep(other, step) == ResolveStep(w, step)
    ensures OnTarget(other, step) == OnTarget(w, step) && Ready(other, step, now, settings) == Ready(w, step, now, settings)
    ensures ResolveStep(w, step).Some? ==> forall action :: NewTask(other, step, action) == NewTask(w, step, action)
  {
    hide SameImage, Resolve;
  }

  /** Step `k` got a task and a new status, and its instance the container found. */
  ghost function TaskGiven(w: World, passed: World, k: nat, action: Action, status: StepStatus, phase: Phase): World
    requires w.release.Some? && k < |w.release.value.steps| && ResolveStep(w, w.release.value.steps[k]).Some?
    requires passed.release.Some? && k < |passed.release.value.steps| && |passed.instances| == |w.instances|
  {
    var step := w.release.value.steps[k];
    passed.(
      tasks := w.tasks + [NewTask(w, step, action)],
      service := w.service.(taskId := Some(|w.tasks|), phase := phase),
      instances := passed.instances[step.instance :=
        w.instances[step.instance].(container := ResolveStep(w, step))],
      release := Some(passed.release.value.(
        steps := passed.release.value.steps[k := Step(step.instance, status, Some(|w.tasks|))])))
  }

  // ---------------------------------------------------------------- preflight

  /** Step `k` is the first, from `a` on, that is pending and not on the target yet. */
  ghost predicate FirstToPrepare(w: World, a: nat, k: nat) {
    && w.release.Some? && a <= k <= |w.release.value.steps|
    && var steps := w.release.value.steps;
       && (forall j :: a <= j < k ==> steps[j].status != StepPending || OnTarget(w, steps[j]))
       && (k < |steps| ==> steps[k].status == StepPending && !OnTarget(w, steps[k]))
  }

  /** Without such a step preflight is over; otherwise it gets its preparation task if it is
      ready, and the release fails if it is not. */
  ghost predicate PreflightTook(w: World, passed: World, k: nat, after: World, now: Time, settings: Settings)
    requires w.release.Some? && k <= |w.release.value.steps| && |passed.instances| == |w.instances|
    requires passed.release.Some? && |passed.release.value.steps| == |w.release.value.steps|
  {
    var steps := w.release.value.steps;
    if k == |steps| then
      after == passed.(service := w.service.(phase := if |steps| == 1 then PreparingGuard else DrainingLocal))
    else if Ready(w, steps[k], now, settings) then
      after == TaskGiven(w, passed, k, PrepareImage, StepPreparing, PreflightingLocal)
    else after.service.phase == ReleaseFailed
  }

  lemma PreflightTookMore(w: World, done: World, passed: World, a: nat, k: nat, after: World, now: Time, settings: Settings)
    requires ActiveCore(w) && a < k <= |w.release.value.steps| && PassedOne(w, done, a, false)
    requires PassedSteps(done, passed, a + 1, k, false) && PreflightTook(done, passed, k, after, now, settings)
    ensures PreflightTook(w, passed, k, after, now, settings)
  {
    hide OthersServe, Linked, Shaped, Passed, Ready, ResolveStep;
    if k < |w.release.value.steps| {
      assert w.release.value.steps[k].instance != w.release.value.steps[a].instance;
      StepElsewhere(w, done, w.release.value.steps[k], now, settings);
    }
  }

  lemma FirstStays(w: World, done: World, a: nat, k: nat)
    requires ActiveCore(w) && a < k && FirstToPrepare(w, a, k) && PassedOne(w, done, a, false)
    ensures FirstToPrepare(done, a + 1, k)
  {
    hide OthersServe, Linked, Shaped, Passed, OnTarget;
    var steps := w.release.value.steps;
    forall j | a < j < |steps| ensures OnTarget(done, steps[j]) == OnTarget(w, steps[j]) {
      assert steps[j].instance != steps[a].instance;
      StepElsewhere(w, done, steps[j], 0, Settings(true, 0, 0, {}));
    }
  }

  lemma {:induction false} PreflightFromTakes(w: World, a: nat, k: nat, now: Time, settings: Settings) returns (passed: World)
    requires ActiveCore(w) && w.service.phase == PreflightingLocal && w.service.taskId.None? && FirstToPrepare(w, a, k)
    ensures PassedSteps(w, passed, a, k, false)
    ensures PreflightTook(w, passed, k, PreflightFrom(w, a, now, settings), now, settings)
    decreases k - a
  {
    hide Core, SameImage, Resolve, Ready, CanQueue, Failed, PassedSteps, OnTarget;
    var steps := w.release.value.steps;
    if a == k {
      passed := w;
      NothingPassed(w, a, false);
      if k < |steps| { PreflightHere(w, k, now, settings); }
    } else if steps[a].status != StepPending {
      ServesInPreflight(w, a);
      FirstStays(w, w, a, k);
      passed := PreflightFromTakes(w, a + 1, k, now, settings);
      PassedMore(w, w, passed, a, k, false);
    } else {
      var done := PreflightPasses(w, a, now, settings);
      FirstStays(w, done, a, k);
      passed := PreflightFromTakes(done, a + 1, k, now, settings);
      PassedMore(w, done, passed, a, k, false);
      PassedShape(done, passed, a + 1, k, false);
      PreflightTookMore(w, done, passed, a, k, PreflightFrom(w, a, now, settings), now, settings);
    }
  }

  lemma PassedShape(w: World, after: World, a: nat, b: nat, rollout: bool)
    requires PassedSteps(w, after, a, b, rollout)
    ensures w.release.Some? && after.release.Some? && |after.instances| == |w.instances|
    ensures |after.release.value.steps| == |w.release.value.steps| && b <= |w.release.value.steps|
  {}

  lemma ServesInPreflight(w: World, a: nat)
    requires ActiveCore(w) && w.service.phase == PreflightingLocal && a < |w.release.value.steps|
    requires w.release.value.steps[a].status != StepPending
    ensures PassedOne(w, w, a, false)
  {
    hide Linked;
    var steps := w.release.value.steps;
    assert steps[a := steps[a]] == steps;
    assert w.instances[steps[a].instance := w.instances[steps[a].instance]] == w.instances;
  }

  lemma PreflightPasses(w: World, a: nat, now: Time, settings: Settings) returns (done: World)
    requires ActiveCore(w) && w.service.phase == PreflightingLocal && w.service.taskId.None?
    requires a < |w.release.value.steps| && w.release.value.steps[a].status == StepPending && OnTarget(w, w.release.value.steps[a])
    ensures PassedOne(w, done, a, false) && ActiveCore(done)
    ensures done.service == w.service && PreflightFrom(w, a, now, settings) == PreflightFrom(done, a + 1, now, settings)
  {
    hide Linked, SameImage, Resolve;
    var step := w.release.value.steps[a];
    var bound := Rebound(w, step.instance, ResolveStep(w, step).value);
    done := SetStep(bound, a, step.(status := StepCompleted));
    BindingKeepsCore(w, step.instance, ResolveStep(w, step).value);
    PreflightCompleteKeepsCore(bound, a);
  }

  lemma PreflightHere(w: World, k: nat, now: Time, settings: Settings)
    requires ActiveCore(w) && w.service.phase == PreflightingLocal && k < |w.release.value.steps|
    requires w.release.value.steps[k].status == StepPending && !OnTarget(w, w.release.value.steps[k])
    ensures PreflightTook(w, w, k, PreflightFrom(w, k, now, settings), now, settings)
  {
    hide Core, SameImage, Resolve, Failed, CanQueue, Ready;
    var step := w.release.value.steps[k];
    ReadyMeans(w, step, now, settings);
    if ResolveStep(w, step).Some? {
      var bound := Rebound(w, step.instance, ResolveStep(w, step).value);
      FailedPhase(bound, now);
      assert CanQueue(bound, ResolveStep(w, step).value, now, settings) == CanQueue(w, ResolveStep(w, step).value, now, settings) by {
        SameQueue(w, bound, ResolveStep(w, step).value, now, settings);
      }
    }
    FailedPhase(w, now);
  }

  lemma FailedPhase(w: World, now: Time)
    ensures Failed(w, now).service.phase == ReleaseFailed
  {}

  lemma SameQueue(w: World, other: World, c: nat, now: Time, settings: Settings)
    requires c < |w.containers| && other == w.(instances := other.instances)
    ensures CanQueue(other, c, now, settings) == CanQueue(w, c, now, settings)
  {}

  /** Preflight, without a task under way: it passes the steps that need no preparation, and
      the first that does gets its task, or, if it is not ready, stops the release. */
  lemma PreflightTakes(w: World, k: nat, now: Time, settings: Settings, p: Answers) returns (passed: World)
    requires Inv(w) && w.service.phase == PreflightingLocal && w.service.taskId.None? && !MustStop(w, now, settings, p)
    requires FirstToPrepare(w, 0, k)
    ensures PassedSteps(w, passed, 0, k, false)
    ensures PreflightTook(w, passed, k, Tick(w, now, settings, p), now, settings)
  {
    hide Core, Failed, PassedSteps, PreflightTook, Tick, GuardKept, ImagesFixed, MustStop, PreflightFrom;
    TickGoesOn(w, now, settings, p);
    passed := PreflightFromTakes(w, 0, k, now, settings);
  }

  /** Preflight, after its task: a success prepares the step that waited for it, and nothing
      else; any other result stops the release. */
  lemma PreflightHears(w: World, now: Time, settings: Settings, p: Answers) returns (k: nat)
    requires Inv(w) && w.service.phase == PreflightingLocal && w.service.taskId.Some? && !MustStop(w, now, settings, p)
    requires w.service.taskId.value < |w.tasks| && w.tasks[w.service.taskId.value].status !in {TaskPending, TaskDispatched}
    ensures k < |w.release.value.steps| && w.release.value.steps[k].task == w.service.taskId
    ensures w.release.value.steps[k].status == StepPreparing
    ensures var steps, after := w.release.value.steps, Tick(w, now, settings, p);
      if w.tasks[w.service.taskId.value].status == TaskSuccess then
        after == w.(service := w.service.(taskId := None), release := Some(w.release.value.(
          steps := steps[k := Step(steps[k].instance, StepPrepared, None)])))
      else after.service.phase == ReleaseFailed
  {
    hide Failed, GuardKept, ImagesFixed, MustStop, OthersServe, Tick;
    TickGoesOn(w, now, settings, p);
    CarrierIsFound(w);
    FailedPhase(w, now);
    k := StepOfTask(w.release.value.steps, w.service.taskId.value).value;
  }

  // ---------------------------------------------------------------- local rollout

  /** Step `k` is the first, from `a` on, that is neither completed nor on the target. */
  ghost predicate FirstToReplace(w: World, a: nat, k: nat) {
    && w.release.Some? && a <= k <= |w.release.value.steps|
    && var steps := w.release.value.steps;
       && (forall j :: a <= j < k ==> steps[j].status == StepCompleted || OnTarget(w, steps[j]))
       && (k < |steps| ==> steps[k].status != StepCompleted && !OnTarget(w, steps[k]))
  }

  /** Without such a step the local rollout is over. Otherwise the release fails if the step's
      container is not to be found; a prepared step starts draining; a draining one waits until
      its instance is in maintenance and empty, and then gets its update task if it is ready,
      and the release fails if it is not. */
  ghost predicate RolloutTook(w: World, passed: World, k: nat, after: World, now: Time, settings: Settings)
    requires w.release.Some? && k <= |w.release.value.steps| && |passed.instances| == |w.instances|
    requires passed.release.Some? && |passed.release.value.steps| == |w.release.value.steps|
  {
    var steps := w.release.value.steps;
    if k == |steps| then after == passed.(service := w.service.(phase := UpdatingAcs))
    else if ResolveStep(w, steps[k]).None? then after.service.phase == ReleaseFailed
    else
      var row := w.instances[steps[k].instance];
      var bound := row.(container := ResolveStep(w, steps[k]));
      && steps[k].status in {StepPrepared, StepDraining}
      && if steps[k].status == StepPrepared then
           after == passed.(
             service := w.service.(phase := DrainingLocal),
             instances := passed.instances[steps[k].instance := bound.(desired := Draining)],
             release := Some(passed.release.value.(
               steps := passed.release.value.steps[k := steps[k].(status := StepDraining)])))
         else if row.desired != Maintenance || row.accepting || row.active > 0 then
           after == passed.(instances := passed.instances[steps[k].instance := bound])
         else if Ready(w, steps[k], now, settings) then
           after == TaskGiven(w, passed, k, UpdateImage, StepUpdating, UpdatingLocal)
         else after.service.phase == ReleaseFailed
  }

  ghost function RolledOut(w: World, a: nat, now: Time, settings: Settings): World
    requires w.release.Some? && a <= |w.release.value.steps|
  {
    var rolled := RolloutFrom(w, a, now, settings);
    if rolled.1 then SetPhase(rolled.0, UpdatingAcs) else rolled.0
  }

  lemma RolloutTookMore(w: World, done: World, passed: World, a: nat, k: nat, after: World, now: Time, settings: Settings)
    requires ActiveCore(w) && a < k <= |w.release.value.steps| && PassedOne(w, done, a, true)
    requires PassedSteps(done, passed, a + 1, k, true) && RolloutTook(done, passed, k, after, now, settings)
    ensures RolloutTook(w, passed, k, after, now, settings)
  {
    hide OthersServe, Linked, Shaped, Passed, Ready, ResolveStep;
    if k < |w.release.value.steps| {
      assert w.release.value.steps[k].instance != w.release.value.steps[a].instance;
      StepElsewhere(w, done, w.release.value.steps[k], now, settings);
    }
  }

  lemma FirstStaysToReplace(w: World, done: World, a: nat, k: nat)
    requires ActiveCore(w) && a < k && FirstToReplace(w, a, k) && PassedOne(w, done, a, true)
    ensures FirstToReplace(done, a + 1, k)
  {
    hide OthersServe, Linked, Shaped, Passed, OnTarget;
    var steps := w.release.value.steps;
    forall j | a < j < |steps| ensures OnTarget(done, steps[j]) == OnTarget(w, steps[j]) {
      assert steps[j].instance != steps[a].instance;
      StepElsewhere(w, done, steps[j], 0, Settings(true, 0, 0, {}));
    }
  }

  lemma ServesWhenCompleted(w: World, a: nat)
    requires ActiveCore(w) && a < |w.release.value.steps| && w.release.value.steps[a].status == StepCompleted
    ensures PassedOne(w, w, a, true)
  {
    hide Linked, Shaped;
    var steps := w.release.value.steps;
    assert steps[a := steps[a]] == steps;
    assert w.instances[steps[a].instance := w.instances[steps[a].instance]] == w.instances;
  }

  lemma RolloutPasses(w: World, a: nat, now: Time, settings: Settings) returns (done: World)
    requires ActiveCore(w) && LocalPhase(w.service.phase) && w.service.taskId.None? && a < |w.release.value.steps|
    requires w.release.value.steps[a].status != StepCompleted && OnTarget(w, w.release.value.steps[a])
    ensures PassedOne(w, done, a, true) && ActiveCore(done)
    ensures done.service == w.service && RolloutFrom(w, a, now, settings) == RolloutFrom(done, a + 1, now, settings)
  {
    hide Linked, SameImage, Resolve, Shaped;
    var step := w.release.value.steps[a];
    var bound := Rebound(w, step.instance, ResolveStep(w, step).value);
    done := SetStep(SetDesired(bound, step.instance, Serve), a, step.(status := StepCompleted));
    BindingKeepsCore(w, step.instance, ResolveStep(w, step).value);
    CompleteKeepsCore(bound, a);
  }

  lemma RolloutHere(w: World, k: nat, now: Time, settings: Settings)
    requires ActiveCore(w) && LocalPhase(w.service.phase) && w.service.taskId.None? && k < |w.release.value.steps|
    requires w.release.value.steps[k].status != StepCompleted && !OnTarget(w, w.release.value.steps[k])
    ensures RolloutTook(w, w, k, RolledOut(w, k, now, settings), now, settings)
  {
    hide Placed, OthersServe, SameImage, Resolve, Failed, CanQueue, Ready;
    var step := w.release.value.steps[k];
    ReadyMeans(w, step, now, settings);
    if ResolveStep(w, step).Some? {
      var c := ResolveStep(w, step).value;
      var bound := Rebound(w, step.instance, c);
      FailedPhase(bound, now);
      SameQueue(w, bound, c, now, settings);
    }
    FailedPhase(w, now);
  }

  lemma {:induction false} RolloutFromTakes(w: World, a: nat, k: nat, now: Time, settings: Settings) returns (passed: World)
    requires ActiveCore(w) && LocalPhase(w.service.phase) && w.service.taskId.None? && FirstToReplace(w, a, k)
    ensures PassedSteps(w, passed, a, k, true)
    ensures RolloutTook(w, passed, k, RolledOut(w, a, now, settings), now, settings)
    decreases k - a
  {
    hide Core, SameImage, Resolve, Ready, CanQueue, Failed, PassedSteps, OnTarget, RolloutTook, Advance, PassedOne;
    var steps := w.release.value.steps;
    if a == k {
      passed := w;
      NothingPassed(w, a, true);
      if k < |steps| { RolloutHere(w, k, now, settings); } else { RolloutOver(w, now, settings); }
    } else {
      var done := w;
      if steps[a].status == StepCompleted { ServesWhenCompleted(w, a); } else { done := RolloutPasses(w, a, now, settings); }
      FirstStaysToReplace(w, done, a, k);
      passed := RolloutFromTakes(done, a + 1, k, now, settings);
      PassedMore(w, done, passed, a, k, true);
      PassedShape(done, passed, a + 1, k, true);
      RolloutTookMore(w, done, passed, a, k, RolledOut(w, a, now, settings), now, settings);
    }
  }

  lemma RolloutOver(w: World, now: Time, settings: Settings)
    requires w.release.Some?
    ensures RolloutTook(w, w, |w.release.value.steps|, RolledOut(w, |w.release.value.steps|, now, settings), now, settings)
  {}

  /** The local rollout, without a task under way: it passes the steps that are done or found
      on the target, and takes the first that is neither. */
  lemma RolloutTakes(w: World, k: nat, now: Time, settings: Settings, p: Answers) returns (passed: World)
    requires Inv(w) && LocalPhase(w.service.phase) && w.service.taskId.None? && !MustStop(w, now, settings, p)
    requires FirstToReplace(w, 0, k)
    ensures PassedSteps(w, passed, 0, k, true)
    ensures RolloutTook(w, passed, k, Tick(w, now, settings, p), now, settings)
  {
    hide Core, Failed, PassedSteps, RolloutTook, Tick, GuardKept, ImagesFixed, MustStop, RolloutFrom;
    TickGoesOn(w, now, settings, p);
    passed := RolloutFromTakes(w, 0, k, now, settings);
  }

  /** The business of step `k` is back: its container runs and is not ill, and it has reported
      itself healthy, ready and accepting since the task ended. */
  ghost predicate Back(c: Container, row: Instance, task: Task) {
    && c.running && !c.unhealthy && row.healthy && row.ready && row.accepting
    && task.finishedAt.Some? && row.updatedAt >= task.finishedAt.value
  }

  /** The release fails unless the task succeeded and the step's container is found on the
      target. Otherwise the step is completed, and its instance serves, exactly if the business
      is back; if not, it is verified further while its instance comes back. */
  ghost predicate RolloutHeard(w: World, k: nat, t: nat, after: World)
    requires w.release.Some? && k < |w.release.value.steps| && t < |w.tasks|
  {
    var step, task := w.release.value.steps[k], w.tasks[t];
    if task.status != TaskSuccess || !OnTarget(w, step) then after.service.phase == ReleaseFailed
    else
      var row := w.instances[step.instance].(container := ResolveStep(w, step));
      if Back(w.containers[ResolveStep(w, step).value], w.instances[step.instance], task) then
        after == w.(
          service := w.service.(phase := DrainingLocal, taskId := None),
          instances := w.instances[step.instance := row.(desired := Serve)],
          release := Some(w.release.value.(
            steps := w.release.value.steps[k := Step(step.instance, StepCompleted, None)])))
      else
        after == w.(
          service := w.service.(phase := VerifyingLocal),
          instances := w.instances[step.instance := row.(desired := Restoring)],
          release := Some(w.release.value.(
            steps := w.release.value.steps[k := step.(status := StepVerifying)])))
  }

  lemma VerifiedIs(w: World, k: nat, t: nat, now: Time)
    requires w.release.Some? && k < |w.release.value.steps| && t < |w.tasks| && w.tasks[t].status == TaskSuccess
    ensures RolloutHeard(w, k, t, Verified(w, k, t, now))
  {
    hide Failed, Resolve, SameImage;
    var step := w.release.value.steps[k];
    FailedPhase(w, now);
    if ResolveStep(w, step).Some? {
      FailedPhase(Rebound(w, step.instance, ResolveStep(w, step).value), now);
    }
  }

  /** The local rollout, after its task. */
  lemma RolloutHears(w: World, now: Time, settings: Settings, p: Answers) returns (k: nat)
    requires Inv(w) && LocalPhase(w.service.phase) && w.service.taskId.Some? && !MustStop(w, now, settings, p)
    requires w.service.taskId.value < |w.tasks| && w.tasks[w.service.taskId.value].status !in {TaskPending, TaskDispatched}
    ensures k < |w.release.value.steps| && w.release.value.steps[k].task == w.service.taskId
    ensures w.release.value.steps[k].status in {StepUpdating, StepVerifying}
    ensures RolloutHeard(w, k, w.service.taskId.value, Tick(w, now, settings, p))
  {
    hide Failed, GuardKept, ImagesFixed, MustStop, OthersServe, Tick, RolloutHeard, Verified;
    TickGoesOn(w, now, settings, p);
    CarrierIsFound(w);
    k := StepOfTask(w.release.value.steps, w.service.taskId.value).value;
    if w.tasks[w.service.taskId.value].status == TaskSuccess {
      VerifiedIs(w, k, w.service.taskId.value, now);
    } else {
      FailedIsHeard(w, k, w.service.taskId.value, now);
    }
  }

  lemma FailedIsHeard(w: World, k: nat, t: nat, now: Time)
    requires w.release.Some? && k < |w.release.value.steps| && t < |w.tasks| && w.tasks[t].status != TaskSuccess
    ensures RolloutHeard(w, k, t, Failed(w, now))
  {
    FailedPhase(w, now);
    hide Failed;
  }

  // ---------------------------------------------------------------- guard and workload

  /** The guard is created, with the source image, exactly if the provider takes the call and
      the workload's image lies in the source's repository. */
  lemma GuardCreated(w: World, now: Time, settings: Settings, p: Answers)
    requires Inv(w) && w.service.phase == PreparingGuard && !MustStop(w, now, settings, p)
    ensures var r, after := w.release.value, Tick(w, now, settings, p);
      if p.call && RepositoryOf(r.source).Some? && RepositoryOf(w.cloud.workloadImage) == RepositoryOf(r.source) then
        after == w.(service := w.service.(phase := WaitingGuard), release := Some(r.(guard := Some(r.id))),
                    cloud := w.cloud.(guards := w.cloud.guards[r.id := r.source]))
      else after.service.phase == ReleaseFailed
  {
    hide Failed, Core, MustStop, Tick, ParseTaggedImage, CanonicalText;
    TickGoesOn(w, now, settings, p);
    FailedPhase(w, now);
  }

  /** A guard instance of the release that takes work: watched, registered under the release,
      well, freshly reported, and with an address. */
  ghost predicate TakesWork(w: World, x: Instance, id: nat, now: Time) {
    && x.pool == AcsRelease && x.monitored && x.releaseTag == Some(id) && x.healthy && x.ready && x.accepting
    && x.updatedAt >= now - w.service.config.stale && x.endpoint && x.host.Some?
  }

  /** The wait for the guard ends exactly if the provider reports it ready and one of its
      instances takes work, and the release fails exactly if the provider does not answer or
      the source cannot be read; otherwise nothing happens. */
  lemma GuardAwaited(w: World, now: Time, settings: Settings, p: Answers)
    requires Inv(w) && w.service.phase == WaitingGuard && !MustStop(w, now, settings, p)
    ensures var r, after := w.release.value, Tick(w, now, settings, p);
      if !p.call || Canonical(r.source).None? then after.service.phase == ReleaseFailed
      else if p.guardReady && exists i :: 0 <= i < |w.instances| && TakesWork(w, w.instances[i], r.id, now) then
        after == w.(service := w.service.(phase := DrainingLocal))
      else after == w
  {
    hide Failed, Placed, OthersServe, Linked, MustStop, Tick, ParseTaggedImage, CanonicalText;
    TickGoesOn(w, now, settings, p);
    FailedPhase(w, now);
    assert GuardIsServing(w, w.release.value.id, now) <==>
      exists i :: 0 <= i < |w.instances| && TakesWork(w, w.instances[i], w.release.value.id, now);
  }

  /** The workload is set to the target exactly if the provider takes the call and both images
      lie in one repository. */
  lemma WorkloadSet(w: World, now: Time, settings: Settings, p: Answers)
    requires Inv(w) && w.service.phase in {UpdatingAcs, PreparingAcs} && !MustStop(w, now, settings, p)
    ensures var r, after := w.release.value, Tick(w, now, settings, p);
      if p.call && RepositoryOf(w.cloud.workloadImage).Some? && RepositoryOf(w.cloud.workloadImage) == RepositoryOf(r.target) then
        after == w.(service := w.service.(phase := WaitingAcs), cloud := w.cloud.(
          workloadImage := if SameImage(w.cloud.workloadImage, r.target) then w.cloud.workloadImage else r.target))
      else after.service.phase == ReleaseFailed
  {
    hide Failed, Core, MustStop, Tick, GuardKept, ParseTaggedImage, CanonicalText;
    TickGoesOn(w, now, settings, p);
    FailedPhase(w, now);
  }

  /** The rollout is over exactly if the workload runs the target and the provider reports it
      ready: the release then cleans up its guard, or completes if it has none. */
  lemma WorkloadAwaited(w: World, now: Time, settings: Settings, p: Answers)
    requires Inv(w) && w.service.phase == WaitingAcs && !MustStop(w, now, settings, p)
    ensures var r, after := w.release.value, Tick(w, now, settings, p);
      if !p.call || Canonical(w.cloud.workloadImage).None? then after.service.phase == ReleaseFailed
      else if !SameImage(w.cloud.workloadImage, r.target) || !p.rolledOut then after == w
      else if |r.steps| == 1 then after == w.(service := w.service.(phase := CleaningGuard))
      else after == w.(service := w.service.(phase := ReleaseCompleted), versions := after.versions)
  {
    hide Failed, Placed, OthersServe, MustStop, Tick, ParseTaggedImage, CanonicalText, RecordVersion;
    TickGoesOn(w, now, settings, p);
    FailedPhase(w, now);
  }

  ghost predicate Guards(x: Instance, id: nat) {
    x.pool == AcsRelease && x.monitored && x.releaseTag == Some(id)
  }

  ghost predicate GuardsEmptied(w: World, id: nat) {
    forall i :: 0 <= i < |w.instances| && Guards(w.instances[i], id) ==>
      w.instances[i].desired == Maintenance && !w.instances[i].accepting && w.instances[i].active == 0
  }

  /** The serving guard instances are asked to drain. */
  ghost predicate GuardsAsked(before: seq<Instance>, after: seq<Instance>, id: nat) {
    && |after| == |before|
    && forall i :: 0 <= i < |before| ==>
         after[i] == if Guards(before[i], id) && before[i].desired == Serve then before[i].(desired := Draining) else before[i]
  }

  /** The guard instances are watched no longer. */
  ghost predicate GuardsForgotten(before: seq<Instance>, after: seq<Instance>, id: nat) {
    && |after| == |before|
    && forall i :: 0 <= i < |before| ==>
         after[i] == if Guards(before[i], id) then before[i].(monitored := false) else before[i]
  }

  /** Cleaning up asks the serving guard instances to drain until all of them are in maintenance
      and empty; then the guard is deleted, its instances are watched no longer, and the release
      completes, unless the provider fails. */
  lemma GuardCleaned(w: World, now: Time, settings: Settings, p: Answers)
    requires Inv(w) && w.service.phase == CleaningGuard && !MustStop(w, now, settings, p)
    ensures var r, after := w.release.value, Tick(w, now, settings, p);
      if !GuardsEmptied(w, r.id) then
        after == w.(instances := after.instances) && GuardsAsked(w.instances, after.instances, r.id)
      else if p.call then
        && after == w.(instances := after.instances, versions := after.versions,
             service := w.service.(phase := ReleaseCompleted), cloud := w.cloud.(guards := w.cloud.guards - {r.id}))
        && GuardsForgotten(w.instances, after.instances, r.id)
      else after.service.phase == ReleaseFailed
  {
    hide Failed, Placed, OthersServe, MustStop, Tick, Canonical, RecordVersion, DrainGuards, ForgetGuards, HasGuards,
      GuardsDrained, GuardsEmptied, GuardsAsked, GuardsForgotten, ImagesFixed, VersionsDistinct;
    TickGoesOn(w, now, settings, p);
    var id := w.release.value.id;
    var drained := DrainGuards(w, id);
    FailedPhase(drained, now);
    EmptiedMeans(w, id);
    DrainIs(w, id);
    ForgetIs(drained.(cloud := drained.cloud.(guards := drained.cloud.guards - {id})), id);
  }

  lemma DrainIs(w: World, id: nat)
    ensures DrainGuards(w, id) == w.(instances := DrainGuards(w, id).instances)
    ensures GuardsAsked(w.instances, DrainGuards(w, id).instances, id)
  {}

  lemma ForgetIs(w: World, id: nat)
    ensures ForgetGuards(w, id) == w.(instances := ForgetGuards(w, id).instances)
    ensures GuardsForgotten(w.instances, ForgetGuards(w, id).instances, id)
  {}

  lemma EmptiedMeans(w: World, id: nat)
    ensures GuardsDrained(DrainGuards(w, id), id) <==> GuardsEmptied(w, id)
    ensures GuardsEmptied(w, id) ==> DrainGuards(w, id) == w
    ensures !HasGuards(w, id) ==> GuardsEmptied(w, id)
  {
    var after := DrainGuards(w, id);
    forall i | 0 <= i < |w.instances|
      ensures GuardInstance(after, i, id) <==> Guards(w.instances[i], id)
      ensures GuardInstance(w, i, id) <==> Guards(w.instances[i], id)
    {}
    if GuardsEmptied(w, id) { assert after.instances == w.instances; }
    if GuardsDrained(after, id) {
      forall i | 0 <= i < |w.instances| && Guards(w.instances[i], id)
        ensures w.instances[i].desired == Maintenance && !w.instances[i].accepting && w.instances[i].active == 0
      {
        assert GuardInstance(after, i, id);
      }
    }
  }
}
