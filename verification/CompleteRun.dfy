/** One release from its request to its completion: every premise of the theorems about releases
    of a single instance is met by a state of this run. */
module CompleteRun {
  import opened Wrappers
  import opened ImageReference
  import opened Model
  import opened Releases
  import opened Actors
  import opened ReleaseInvariant
  import opened ReleaseTicks
  import opened Runs
  import opened ReleaseRuns
  import opened Example

  /** The image in use, the requested one, and the canonical texts of both. */
  datatype Images = Images(current: string, image: string, source: string, target: string)

  ghost predicate Known(x: Images) {
    && Readings(x.current, x.image, x.target)
    && Canonical(x.current) == Some(x.source) && IsCanonical(x.source) && x.target != ""
    && RepositoryOf(x.current).Some?
    && RepositoryOf(x.source) == RepositoryOf(x.current) && RepositoryOf(x.target) == RepositoryOf(x.current)
    && SameImage(x.source, x.source) && SameImage(x.target, x.target) && !SameImage(x.source, x.target)
  }

  function ImagesOf(current: string, image: string): Images {
    Images(current, image, Text(Canonical(current)), Text(Canonical(image)))
  }

  lemma ImagesAreKnown(current: string, image: string)
    requires ValidateTagChange(current, image).Success?
    requires |Text(Canonical(current))| <= MAX_LENGTH && |Text(Canonical(image))| <= MAX_LENGTH
    ensures Known(ImagesOf(current, image))
  {
    ReadingsHold(current, image);
    TagChangeExactly(current, image);
    CanonicalIdempotent(current);
    CanonicalIsNotEmpty(image);
    SameRepository(current);
    SameRepository(image);
    hide ParseTaggedImage, CanonicalText, CanonicalRepository, ValidateTagChange;
  }

  // ---------------------------------------------------------------- the states of the run

  datatype Stage = Stage(
    phase: Phase, step: Step, tasks: seq<Task>, local: Instance, container: Container,
    protection: seq<Instance>, guards: map<nat, string>, name: Option<nat>, workload: string)

  function LocalRow(accepting: bool, desired: Desired): Instance {
    Example.Local(0, 0).(accepting := accepting, desired := desired)
  }

  function GuardRow(accepting: bool, desired: Desired): Instance {
    Instance(1, AcsRelease, None, 0, 0, true, true, accepting, true, desired, true, Some(GATEWAY), Some(0), 0)
  }

  function Job(action: Action, target: string, status: TaskStatus): Task {
    Task(0, 0, action, target, status,
         if status == TaskPending then None else Some(0), if status == TaskSuccess then Some(0) else None)
  }

  function Alone(x: Images): World {
    World(
      Service(CONFIG, Idle, None, None, None, false, None, 0, Monitoring, None, 0, 0),
      None, [LocalRow(true, Serve)], [Running("x", x.current)], [Node(Some(0), None)], [], [], [], Cloud(0, x.current, map[]))
  }

  function At(x: Images, s: Stage): World {
    Alone(x).(
      service := Service(CONFIG, s.phase, s.step.task, Some(x.target), Some(x.source), true, Some(0), 1, Monitoring, None, 0, 0),
      release := Some(Release(0, x.source, x.target, s.name, [s.step])),
      versions := [Version(x.source, None, 0)], tasks := s.tasks,
      instances := [s.local] + s.protection, containers := [s.container], cloud := Cloud(0, s.workload, s.guards))
  }

  function Begun(x: Images): Stage {
    Stage(PreflightingLocal, Step(0, StepPending, None), [], LocalRow(true, Serve), Running("x", x.current),
          [], map[], None, x.current)
  }

  /** The preparation task, in some status. */
  function Preparing(x: Images, status: TaskStatus): Stage {
    Begun(x).(step := Step(0, StepPreparing, Some(0)), tasks := [Job(PrepareImage, x.target, status)])
  }

  function PreparedStage(x: Images): Stage {
    Begun(x).(step := Step(0, StepPrepared, None), tasks := [Job(PrepareImage, x.target, TaskSuccess)])
  }

  /** The guard exists, and its business serves. */
  function Protected(x: Images): Stage {
    PreparedStage(x).(phase := WaitingGuard, guards := map[0 := x.source], name := Some(0),
                      protection := [GuardRow(true, Serve)])
  }

  function Withdrawn(x: Images): Stage {
    Protected(x).(phase := DrainingLocal, step := Step(0, StepDraining, None), local := LocalRow(true, Draining))
  }

  /** The update task, in some status. */
  function Updating(x: Images, status: TaskStatus): Stage {
    Withdrawn(x).(
      phase := UpdatingLocal, step := Step(0, StepUpdating, Some(1)), local := LocalRow(false, Maintenance),
      tasks := [Job(PrepareImage, x.target, TaskSuccess), Job(UpdateImage, x.target, status)])
  }

  function Switched(x: Images): Stage {
    Updating(x, TaskSuccess).(container := Running("x", x.current).(docker := "z", image := x.target))
  }

  function RolledOutStage(x: Images): Stage {
    Switched(x).(phase := DrainingLocal, step := Step(0, StepCompleted, None), local := LocalRow(true, Serve))
  }

  function Cleaning(x: Images): Stage {
    RolledOutStage(x).(phase := CleaningGuard, workload := x.target)
  }

  function LocalReport(accepting: bool): Report {
    Report(0, Pool.Local, None, 0, true, true, accepting, false, None, None)
  }

  function GuardReport(accepting: bool): Report {
    Report(1, AcsRelease, None, 0, true, true, accepting, true, Some(GATEWAY), Some(0))
  }

  function Moments(image: string): seq<Moment> {
    var tick := At0(ReleaseTick(ANSWERS));
    [At0(StartRelease(image)), tick, At0(NextTask(0)), At0(TaskResult(0, 0, true, None)), tick, tick, tick,
     At0(Reports(GuardReport(true))), tick, tick, At0(Reports(LocalReport(false))), tick, At0(NextTask(0)),
     At0(TaskResult(0, 1, true, Some("z"))), tick, At0(Reports(LocalReport(true))), tick, tick, tick, tick, tick,
     At0(Reports(GuardReport(false))), tick]
  }

  // ---------------------------------------------------------------- single steps

  lemma TickProgresses(x: Images, s: Stage)
    requires Known(x) && Active(s.phase)
    ensures Tick(At(x, s), 0, SETTINGS, ANSWERS) == Progress(At(x, s), 0, SETTINGS, ANSWERS)
  {
    hide Progress, Failed, Readings;
  }

  lemma OneIsChosen(x: Images)
    ensures LocalInstances(Alone(x).instances) == [0] && ImageOf(Alone(x), 0) == x.current
  {
    var w := Alone(x);
    assert LocalInstances(w.instances) == [0] by { assert w.instances[..1 - 1] == []; }
  }

  lemma RequestIsAccepted(x: Images)
    requires Known(x)
    ensures LocalInstances(Alone(x).instances) == [0] && ImageOf(Alone(x), 0) == x.current
    ensures StartCheck(Alone(x), x.image) == Success(x.target)
  {
    hide Canonical, SameImage, ValidateTagChange, RepositoryOf, LocalInstances;
    var w := Alone(x);
    OneIsChosen(x);
    assert Replaceable(w, 0, x.target);
    assert 0 in LocalInstances(w.instances);
  }

  lemma Begins(x: Images)
    requires Known(x)
    ensures Started(Alone(x), x.image, 0) == At(x, Begun(x))
  {
    hide Canonical, SameImage, ValidateTagChange, RepositoryOf, StartCheck, LocalInstances, ByName, ImageOf;
    var w := Alone(x);
    RequestIsAccepted(x);
    ReorderedDistinct([0], ByName(w.instances, [0]));
    assert ByName(w.instances, [0]) == [0] by { assert ByName(w.instances, [0])[0] in [0]; }
    NothingIsRebound(x);
    assert PlannedSteps([0]) == [Step(0, StepPending, None)];
  }

  lemma NothingIsRebound(x: Images)
    ensures BindResolved(Alone(x), [0]) == Alone(x)
  {
    assert Rebound(Alone(x), 0, 0) == Alone(x);
    assert [0][..0] == [];
  }

  lemma Queues(x: Images)
    requires Known(x)
    ensures Tick(At(x, Begun(x)), 0, SETTINGS, ANSWERS) ==
      At(x, Preparing(x, TaskPending))
  {
    hide Canonical, SameImage, ValidateTagChange, RepositoryOf, Tick, Failed;
    var w := At(x, Begun(x));
    TickProgresses(x, Begun(x));
    assert Rebound(w, 0, 0) == w;
    assert CanQueue(w, 0, 0, SETTINGS);
    var after := Queued(w, 0, 0, PrepareImage, StepPreparing);
    assert Preflight(w, 0, SETTINGS) == after;
    assert after.release.value.steps == [Step(0, StepPreparing, Some(0))];
  }

  /** The agent fetches the last task and reports success. */
  lemma Fetched(x: Images, s: Stage, action: Action)
    requires |s.tasks| >= 1 && s.tasks[|s.tasks| - 1] == Job(action, x.target, TaskPending)
    requires forall t :: 0 <= t < |s.tasks| - 1 ==> s.tasks[t].status == TaskSuccess
    ensures Dispatched(At(x, s), 0, 0) ==
      At(x, s.(tasks := s.tasks[|s.tasks| - 1 := Job(action, x.target, TaskDispatched)]))
  {
    hide Alone;
    assert Redelivered(s.tasks, 0, 0) == s.tasks;
    assert NextPending(s.tasks, 0) == Some(|s.tasks| - 1);
  }

  lemma PreparationStored(x: Images)
    ensures ResultStored(At(x, Preparing(x, TaskDispatched)), 0, 0, true, None, 0) == At(x, Preparing(x, TaskSuccess))
  {
    assert Preparing(x, TaskDispatched).tasks[0 := Job(PrepareImage, x.target, TaskSuccess)] ==
      Preparing(x, TaskSuccess).tasks;
  }

  lemma PreparationSeen(x: Images)
    requires Known(x)
    ensures Tick(At(x, Preparing(x, TaskSuccess)), 0, SETTINGS, ANSWERS) == At(x, PreparedStage(x))
  {
    hide Canonical, SameImage, ValidateTagChange, RepositoryOf, Tick, Failed, PreflightFrom;
    var s := Preparing(x, TaskSuccess);
    TickProgresses(x, s);
    assert StepOfTask([s.step], 0) == Some(0) by { assert [s.step][..0] == []; }
    assert [s.step][0 := Step(0, StepPrepared, None)] == [Step(0, StepPrepared, None)];
  }

  lemma PreflightEnds(x: Images)
    requires Known(x)
    ensures Tick(At(x, PreparedStage(x)), 0, SETTINGS, ANSWERS) == At(x, PreparedStage(x).(phase := PreparingGuard))
  {
    hide Canonical, SameImage, ValidateTagChange, RepositoryOf, Tick, Failed;
    TickProgresses(x, PreparedStage(x));
    assert PreflightFrom(At(x, PreparedStage(x)), 1, 0, SETTINGS) == At(x, PreparedStage(x).(phase := PreparingGuard));
  }

  lemma GuardIsCreated(x: Images)
    requires Known(x)
    ensures Tick(At(x, PreparedStage(x).(phase := PreparingGuard)), 0, SETTINGS, ANSWERS) ==
      At(x, Protected(x).(protection := []))
  {
    hide Canonical, SameImage, ValidateTagChange, RepositoryOf, Tick, Failed;
    TickProgresses(x, PreparedStage(x).(phase := PreparingGuard));
    assert Canonical(x.source) == Some(x.source);
  }

  lemma GuardRegisters(x: Images)
    ensures Reported(At(x, Protected(x).(protection := [])), GuardReport(true), 0, SETTINGS) == At(x, Protected(x))
  {
    hide Job;
    var s := Protected(x);
    assert IndexOfName([s.local], 1) == None by { assert [s.local][..0] == []; }
  }

  lemma GuardIsConfirmed(x: Images)
    requires Known(x)
    ensures Tick(At(x, Protected(x)), 0, SETTINGS, ANSWERS) == At(x, Protected(x).(phase := DrainingLocal))
  {
    hide Canonical, SameImage, ValidateTagChange, RepositoryOf, Tick, Failed, Job;
    var w := At(x, Protected(x));
    TickProgresses(x, Protected(x));
    assert Canonical(x.source) == Some(x.source);
    assert GuardInstance(w, 1, 0);
  }

  lemma DrainBegins(x: Images)
    requires Known(x)
    ensures Tick(At(x, Protected(x).(phase := DrainingLocal)), 0, SETTINGS, ANSWERS) == At(x, Withdrawn(x))
  {
    hide Canonical, SameImage, ValidateTagChange, RepositoryOf, Tick, Failed, Job;
    var s := Protected(x).(phase := DrainingLocal);
    var w := At(x, s);
    TickProgresses(x, s);
    assert Rebound(w, 0, 0) == w;
    var after := Advance(w, 0, 0, 0, SETTINGS);
    assert Rollout(w, 0, SETTINGS) == (after, false);
    assert after.release.value.steps == [Step(0, StepDraining, None)];
    assert after.instances == [LocalRow(true, Draining), GuardRow(true, Serve)];
  }

  /** A report of the local instance, whatever the stage. */
  lemma LocalReports(x: Images, s: Stage, accepting: bool)
    requires s.local.name == 0 && s.local.pool == Pool.Local
    ensures Reported(At(x, s), LocalReport(accepting), 0, SETTINGS) ==
      At(x, s.(local := AfterReporting(s.local, LocalReport(accepting), 0)))
  {
    hide AfterReporting, Alone;
    var rows := [s.local] + s.protection;
    IndexOfFirst(rows, 0);
    assert rows[0 := AfterReporting(s.local, LocalReport(accepting), 0)] ==
      [AfterReporting(s.local, LocalReport(accepting), 0)] + s.protection;
  }

  lemma {:induction false} IndexOfFirst(rows: seq<Instance>, name: int)
    requires rows != [] && rows[0].name == name
    ensures IndexOfName(rows, name) == Some(0)
  {
    if |rows| > 1 { IndexOfFirst(rows[..|rows| - 1], name); }
  }

  lemma UpdateIsQueued(x: Images)
    requires Known(x)
    ensures Tick(At(x, Withdrawn(x).(local := LocalRow(false, Maintenance))), 0, SETTINGS, ANSWERS) ==
      At(x, Updating(x, TaskPending))
  {
    hide Canonical, SameImage, ValidateTagChange, RepositoryOf, Tick, Failed;
    var s := Withdrawn(x).(local := LocalRow(false, Maintenance));
    var w := At(x, s);
    TickProgresses(x, s);
    assert Rebound(w, 0, 0) == w;
    assert CanQueue(w, 0, 0, SETTINGS);
    var after := Advance(w, 0, 0, 0, SETTINGS);
    assert Rollout(w, 0, SETTINGS) == (after, false);
    assert after.release.value.steps == [Step(0, StepUpdating, Some(1))];
    assert after.tasks == Updating(x, TaskPending).tasks;
  }

  lemma UpdateIsStored(x: Images)
    requires x.target != ""
    ensures ResultStored(At(x, Updating(x, TaskDispatched)), 0, 1, true, Some("z"), 0) == At(x, Switched(x))
  {
    var w := At(x, Updating(x, TaskDispatched));
    assert !Clashes(w.containers, 0, "z");
    assert w.tasks[1 := Job(UpdateImage, x.target, TaskSuccess)] == Switched(x).tasks;
    assert w.containers[0 := Switched(x).container] == [Switched(x).container];
    hide Clashes;
  }

  function Verifying(x: Images): Stage {
    Switched(x).(phase := VerifyingLocal, step := Step(0, StepVerifying, Some(1)))
  }

  lemma TaskIsFound(step: Step)
    requires step.task == Some(1)
    ensures StepOfTask([step], 1) == Some(0)
  {
    assert [step][..0] == [];
  }

  lemma SwitchIsSeen(x: Images)
    requires Known(x)
    ensures Tick(At(x, Switched(x)), 0, SETTINGS, ANSWERS) == At(x, Verifying(x).(local := LocalRow(false, Restoring)))
  {
    hide Canonical, SameImage, ValidateTagChange, RepositoryOf, Tick, Failed, StepOfTask;
    var s := Switched(x);
    var w := At(x, s);
    TickProgresses(x, s);
    TaskIsFound(s.step);
    assert Rebound(w, 0, 0) == w;
    var after := Verified(w, 0, 1, 0);
    assert Rollout(w, 0, SETTINGS) == (after, false);
    assert after.release.value.steps == [Step(0, StepVerifying, Some(1))];
    assert after.instances == [LocalRow(false, Restoring), GuardRow(true, Serve)];
  }

  lemma BusinessIsBack(x: Images)
    requires Known(x)
    ensures Tick(At(x, Verifying(x).(local := LocalRow(true, Serve))), 0, SETTINGS, ANSWERS) == At(x, RolledOutStage(x))
  {
    hide Canonical, SameImage, ValidateTagChange, RepositoryOf, Tick, Failed, StepOfTask;
    var s := Verifying(x).(local := LocalRow(true, Serve));
    var w := At(x, s);
    TickProgresses(x, s);
    TaskIsFound(s.step);
    assert Rebound(w, 0, 0) == w;
    var after := Verified(w, 0, 1, 0);
    assert Rollout(w, 0, SETTINGS) == (after, false);
    assert after.release.value.steps == [Step(0, StepCompleted, None)];
    assert after.instances == [LocalRow(true, Serve), GuardRow(true, Serve)];
  }

  lemma AllIsRolledOut(x: Images)
    requires Known(x)
    ensures Tick(At(x, RolledOutStage(x)), 0, SETTINGS, ANSWERS) == At(x, RolledOutStage(x).(phase := UpdatingAcs))
  {
    hide Canonical, SameImage, ValidateTagChange, RepositoryOf, Tick, Failed;
    var w := At(x, RolledOutStage(x));
    TickProgresses(x, RolledOutStage(x));
    assert RolloutFrom(w, 1, 0, SETTINGS) == (w, true);
    assert Rollout(w, 0, SETTINGS) == (w, true);
  }

  lemma WorkloadIsWritten(x: Images)
    requires Known(x)
    ensures Tick(At(x, RolledOutStage(x).(phase := UpdatingAcs)), 0, SETTINGS, ANSWERS) ==
      At(x, Cleaning(x).(phase := WaitingAcs))
  {
    hide Canonical, SameImage, ValidateTagChange, RepositoryOf, Tick, Failed;
    TickProgresses(x, RolledOutStage(x).(phase := UpdatingAcs));
    assert Canonical(x.target) == Some(x.target);
  }

  lemma RolloutIsReady(x: Images)
    requires Known(x)
    ensures Tick(At(x, Cleaning(x).(phase := WaitingAcs)), 0, SETTINGS, ANSWERS) == At(x, Cleaning(x))
  {
    hide Canonical, SameImage, ValidateTagChange, RepositoryOf, Tick, Failed;
    TickProgresses(x, Cleaning(x).(phase := WaitingAcs));
    assert Canonical(x.target) == Some(x.target);
  }

  lemma GuardIsAsked(x: Images)
    requires Known(x)
    ensures Tick(At(x, Cleaning(x)), 0, SETTINGS, ANSWERS) == At(x, Cleaning(x).(protection := [GuardRow(true, Draining)]))
  {
    hide Canonical, SameImage, ValidateTagChange, RepositoryOf, Tick, Failed, Job, Completed;
    var w := At(x, Cleaning(x));
    TickProgresses(x, Cleaning(x));
    var drained := DrainGuards(w, 0);
    assert drained.instances == [LocalRow(true, Serve), GuardRow(true, Draining)];
    assert GuardInstance(w, 1, 0) && GuardInstance(drained, 1, 0);
  }

  lemma GuardIsDrained()
    ensures AfterReporting(GuardRow(true, Draining), GuardReport(false), 0) == GuardRow(false, Maintenance)
  {}

  lemma GuardDrains(x: Images)
    ensures Reported(At(x, Cleaning(x).(protection := [GuardRow(true, Draining)])), GuardReport(false), 0, SETTINGS) ==
      At(x, Cleaning(x).(protection := [GuardRow(false, Maintenance)]))
  {
    hide Job, AfterReporting, Alone;
    var rows := [LocalRow(true, Serve), GuardRow(true, Draining)];
    GuardIsDrained();
    assert IndexOfName(rows, 1) == Some(1) by { assert rows[..1][..0] == []; }
    assert rows[1 := GuardRow(false, Maintenance)] == [LocalRow(true, Serve), GuardRow(false, Maintenance)];
  }

  lemma ReleaseCompletes(x: Images)
    requires Known(x)
    ensures var after := Tick(At(x, Cleaning(x).(protection := [GuardRow(false, Maintenance)])), 0, SETTINGS, ANSWERS);
      after.service.phase == ReleaseCompleted && after.cloud.guards == map[]
  {
    hide Canonical, SameImage, ValidateTagChange, RepositoryOf, Tick, Failed, Job, RecordVersion;
    var s := Cleaning(x).(protection := [GuardRow(false, Maintenance)]);
    var w := At(x, s);
    TickProgresses(x, s);
    assert DrainGuards(w, 0).instances == w.instances;
    assert w.cloud.guards - {0} == map[];
  }

  // ---------------------------------------------------------------- the run

  /** A run over these moments, from a state without a release. */
  ghost predicate IsRun(t: Trace, x: Images) {
    && Execution(t) && Known(x) && t.run == Moments(x.image) && t.settings == SETTINGS && t.states[0] == Alone(x)
  }

  /** The step at position `n` leads from this stage to that state. */
  lemma Next(t: Trace, x: Images, n: nat, s: Stage, after: World)
    requires IsRun(t, x) && n < 23 && t.states[n] == At(x, s)
    requires Effect(At(x, s), Moments(x.image)[n], SETTINGS) == after
    ensures |t.states| == 24 && t.states[n + 1] == after
  {
    hide Effect, Known, Inv;
    assert FollowsAt(t, n);
  }

  lemma First(t: Trace, x: Images)
    requires IsRun(t, x)
    ensures |t.states| == 24 && t.states[1] == At(x, Begun(x))
  {
    hide Started, Known, Inv, At, Alone;
    Begins(x);
    assert FollowsAt(t, 0);
  }

  lemma GetsFetched(t: Trace, x: Images)
    requires IsRun(t, x)
    ensures |t.states| == 24 && t.states[3] == At(x, Preparing(x, TaskDispatched))
  {
    hide IsRun, Known, Tick, Dispatched, At, Execution, Job;
    var queued := Preparing(x, TaskPending);
    First(t, x);
    RunIsKnown(t, x);
    Queues(x);
    Next(t, x, 1, Begun(x), At(x, queued));
    Fetched(x, queued, PrepareImage);
    assert queued.tasks[0 := Job(PrepareImage, x.target, TaskDispatched)] == Preparing(x, TaskDispatched).tasks;
    Next(t, x, 2, queued, At(x, Preparing(x, TaskDispatched)));
  }

  lemma GetsPrepared(t: Trace, x: Images)
    requires IsRun(t, x)
    ensures |t.states| == 24 && t.states[5] == At(x, PreparedStage(x))
  {
    hide IsRun, Known, Tick, ResultStored, At, Execution, Job;
    GetsFetched(t, x);
    RunIsKnown(t, x);
    PreparationStored(x);
    Next(t, x, 3, Preparing(x, TaskDispatched), At(x, Preparing(x, TaskSuccess)));
    PreparationSeen(x);
    Next(t, x, 4, Preparing(x, TaskSuccess), At(x, PreparedStage(x)));
  }

  lemma RunIsKnown(t: Trace, x: Images)
    requires IsRun(t, x)
    ensures Known(x) && x.target != ""
  {
    hide Execution;
  }

  lemma GetsWithdrawn(t: Trace, x: Images)
    requires IsRun(t, x)
    ensures |t.states| == 24 && t.states[10] == At(x, Withdrawn(x))
  {
    hide IsRun, Known, Tick, Reported, At, Job;
    GetsPrepared(t, x);
    RunIsKnown(t, x);
    PreflightEnds(x);
    Next(t, x, 5, PreparedStage(x), At(x, PreparedStage(x).(phase := PreparingGuard)));
    GuardIsCreated(x);
    Next(t, x, 6, PreparedStage(x).(phase := PreparingGuard), At(x, Protected(x).(protection := [])));
    GuardRegisters(x);
    Next(t, x, 7, Protected(x).(protection := []), At(x, Protected(x)));
    GuardIsConfirmed(x);
    Next(t, x, 8, Protected(x), At(x, Protected(x).(phase := DrainingLocal)));
    DrainBegins(x);
    Next(t, x, 9, Protected(x).(phase := DrainingLocal), At(x, Withdrawn(x)));
  }

  lemma GetsUpdated(t: Trace, x: Images)
    requires IsRun(t, x)
    ensures |t.states| == 24 && t.states[13] == At(x, Updating(x, TaskDispatched)) && t.states[14] == At(x, Switched(x))
  {
    hide IsRun, Known, Tick, Reported, Dispatched, ResultStored, At;
    var drained := Withdrawn(x).(local := LocalRow(false, Maintenance));
    GetsWithdrawn(t, x);
    RunIsKnown(t, x);
    LocalReports(x, Withdrawn(x), false);
    Next(t, x, 10, Withdrawn(x), At(x, drained));
    UpdateIsQueued(x);
    Next(t, x, 11, drained, At(x, Updating(x, TaskPending)));
    Fetched(x, Updating(x, TaskPending), UpdateImage);
    assert Updating(x, TaskPending).tasks[1 := Job(UpdateImage, x.target, TaskDispatched)] ==
      Updating(x, TaskDispatched).tasks;
    Next(t, x, 12, Updating(x, TaskPending), At(x, Updating(x, TaskDispatched)));
    UpdateIsStored(x);
    Next(t, x, 13, Updating(x, TaskDispatched), At(x, Switched(x)));
  }

  lemma GetsRolledOut(t: Trace, x: Images)
    requires IsRun(t, x)
    ensures |t.states| == 24 && t.states[18] == At(x, RolledOutStage(x).(phase := UpdatingAcs))
  {
    hide IsRun, Known, Tick, Reported, At, Job;
    var restoring, back := Verifying(x).(local := LocalRow(false, Restoring)), Verifying(x).(local := LocalRow(true, Serve));
    GetsUpdated(t, x);
    RunIsKnown(t, x);
    SwitchIsSeen(x);
    Next(t, x, 14, Switched(x), At(x, restoring));
    LocalReports(x, restoring, true);
    Next(t, x, 15, restoring, At(x, back));
    BusinessIsBack(x);
    Next(t, x, 16, back, At(x, RolledOutStage(x)));
    AllIsRolledOut(x);
    Next(t, x, 17, RolledOutStage(x), At(x, RolledOutStage(x).(phase := UpdatingAcs)));
  }

  lemma GetsCompleted(t: Trace, x: Images)
    requires IsRun(t, x)
    ensures |t.states| == 24 && t.states[19] == At(x, Cleaning(x).(phase := WaitingAcs))
    ensures t.states[22] == At(x, Cleaning(x).(protection := [GuardRow(false, Maintenance)]))
    ensures t.states[23].service.phase == ReleaseCompleted && t.states[23].cloud.guards == map[]
  {
    hide IsRun, Known, Tick, Reported, At, Job;
    var asked, drained :=
      Cleaning(x).(protection := [GuardRow(true, Draining)]), Cleaning(x).(protection := [GuardRow(false, Maintenance)]);
    GetsRolledOut(t, x);
    RunIsKnown(t, x);
    WorkloadIsWritten(x);
    Next(t, x, 18, RolledOutStage(x).(phase := UpdatingAcs), At(x, Cleaning(x).(phase := WaitingAcs)));
    RolloutIsReady(x);
    Next(t, x, 19, Cleaning(x).(phase := WaitingAcs), At(x, Cleaning(x)));
    GuardIsAsked(x);
    Next(t, x, 20, Cleaning(x), At(x, asked));
    GuardDrains(x);
    Next(t, x, 21, asked, At(x, drained));
    ReleaseCompletes(x);
    Next(t, x, 22, drained, Tick(At(x, drained), 0, SETTINGS, ANSWERS));
  }

  lemma AloneHolds(x: Images)
    ensures Inv(Alone(x)) && !Active(Alone(x).service.phase)
  {}

  lemma TheRun(current: string, image: string) returns (t: Trace)
    requires ValidateTagChange(current, image).Success?
    requires |Text(Canonical(current))| <= MAX_LENGTH && |Text(Canonical(image))| <= MAX_LENGTH
    ensures IsRun(t, ImagesOf(current, image)) && FromRest(t)
  {
    hide Execution, ValidateTagChange, Canonical, Known, Inv;
    var x := ImagesOf(current, image);
    ImagesAreKnown(current, image);
    AloneHolds(x);
    t := EveryRunExecutes(Alone(x), Moments(image), SETTINGS);
  }

  /** For every valid tag change between images whose canonical texts can be read back, a run
      begins without a release and in it the release of a single instance withdraws it behind
      its guard (position 10), has its update task with an agent (13), writes the workload
      (18 to 19), and deletes the guard and completes (22 to 23). */
  lemma ReleaseRunsToCompletion(current: string, image: string) returns (t: Trace)
    requires ValidateTagChange(current, image).Success?
    requires |Text(Canonical(current))| <= MAX_LENGTH && |Text(Canonical(image))| <= MAX_LENGTH
    ensures FromRest(t) && |t.run| == 23 && |t.states| == 24
    ensures var s := t.states[10];
      && Active(s.service.phase) && s.release.Some? && |s.release.value.steps| == 1
      && s.release.value.steps[0].instance == 0 && |s.instances| == 2 && s.instances[0].desired == Draining
    ensures var s := t.states[13];
      && BeingUpdated(s, 0) && DesiredOf(s, 0) == Maintenance && s.service.taskId == Some(1) && |s.tasks| == 2
      && s.tasks[1].status == TaskDispatched && s.tasks[1].action == UpdateImage
    ensures t.run[18].event.ReleaseTick? && t.states[19].cloud.workloadImage != t.states[18].cloud.workloadImage
    ensures 0 in t.states[22].cloud.guards && 0 !in t.states[23].cloud.guards
    ensures Active(t.states[22].service.phase) && t.states[23].service.phase == ReleaseCompleted
  {
    hide IsRun, FromRest, ValidateTagChange, Canonical;
    t := TheRun(current, image);
    var x := ImagesOf(current, image);
    GetsWithdrawn(t, x);
    GetsUpdated(t, x);
    GetsRolledOut(t, x);
    GetsCompleted(t, x);
    RunLength(t, x);
    OtherWorkload(t, x);
  }

  lemma RunLength(t: Trace, x: Images)
    requires IsRun(t, x)
    ensures |t.run| == 23 && t.run[18].event.ReleaseTick?
  {
    hide Execution, Known;
  }

  lemma OtherWorkload(t: Trace, x: Images)
    requires IsRun(t, x)
    ensures x.current != x.target
  {
    hide Execution, Canonical, RepositoryOf, ValidateTagChange;
  }

  /** In that run, cut after position 13, an operator's exit and a healthy report put the
      instance back in service while its update task is with the agent. */
  lemma ExitDuringUpdateHappens(current: string, image: string) returns (t: Trace)
    requires ValidateTagChange(current, image).Success?
    requires |Text(Canonical(current))| <= MAX_LENGTH && |Text(Canonical(image))| <= MAX_LENGTH
    ensures FromRest(t) && |t.run| == 15 && |t.states| == 16
    ensures var s := t.states[15];
      && BeingUpdated(s, 0) && DesiredOf(s, 0) == Serve && |s.tasks| == 2 && s.tasks[1].status == TaskDispatched
  {
    hide ValidateTagChange, Canonical, Effect, Inv, Known, Moments;
    var x := ImagesOf(current, image);
    var full := TheRun(current, image);
    GetsUpdated(full, x);
    RunLength(full, x);
    AloneHolds(x);
    var run := full.run[..13] + [At0(Exit(0)), At0(Reports(LocalReport(true)))];
    t := EveryRunExecutes(Alone(x), run, SETTINGS);
    assert t.run[..13] == full.run[..13];
    SameCourse(full, t, 13);
    ReopensDuringUpdate(t, x);
  }

  lemma ReopensDuringUpdate(t: Trace, x: Images)
    requires Execution(t) && |t.run| == 15 && t.settings == SETTINGS && t.states[13] == At(x, Updating(x, TaskDispatched))
    requires t.run[13] == At0(Exit(0)) && t.run[14] == At0(Reports(LocalReport(true)))
    ensures |t.states| == 16
    ensures var s := t.states[15];
      && BeingUpdated(s, 0) && DesiredOf(s, 0) == Serve && |s.tasks| == 2 && s.tasks[1].status == TaskDispatched
  {
    hide Effect, Inv, Discoverable, RoutableAfter;
    var s := t.states[13];
    IndexOfFirst(s.instances, 0);
    ExitReroutesDuringUpdate(t, 13, 0, LocalReport(true), 0);
  }
}
