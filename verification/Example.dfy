/** Releases of two instances that are really requested and underway. */
module Example {
  import opened Wrappers
  import opened ImageReference
  import opened Model
  import opened Releases
  import opened Actors
  import opened ReleaseInvariant
  import opened Runs
  import opened ReleaseRuns

  const CONFIG := Config(1, false, 0, 1, 80.0, 20.0, 300, 60, 30, 1, 1)

  const GATEWAY: Address := 7

  const SETTINGS := Settings(true, 60, 3600, {GATEWAY})

  const ANSWERS := Answers(true, true, true, true)

  function Local(name: int, container: nat): Instance {
    Instance(name, Pool.Local, Some(container), 0, 0, true, true, true, true, Serve, false, None, None, 0)
  }

  function Running(docker: string, image: string): Container {
    Container(0, docker, docker, image, true, false, true, "", "")
  }

  /** Two healthy instances, the second of which already runs the new image. */
  function Before(current: string, image: string): World {
    World(
      Service(CONFIG, Idle, None, None, None, false, None, 0, Monitoring, None, 0, 0),
      None, [Local(0, 0), Local(1, 1)], [Running("x", current), Running("y", image)],
      [Node(Some(0), None)], [], [], [], Cloud(0, current, map[]))
  }

  function Planned(current: string, target: string, phase: Phase, steps: seq<Step>, taskId: Option<nat>, tasks: seq<Task>,
      instances: seq<Instance>, image: string): World
  {
    var source := Text(Canonical(current));
    Before(current, image).(
      service := Service(CONFIG, phase, taskId, Some(target), Some(source), true, Some(0), 1, Monitoring, None, 0, 0),
      release := Some(Release(0, source, target, None, steps)),
      versions := [Version(source, None, 0)], tasks := tasks, instances := instances)
  }

  lemma IdleHolds(current: string, image: string)
    ensures Inv(Before(current, image)) && !Active(Before(current, image).service.phase)
  {}

  /** The target's readings: it is the same image as the new one and another than the current. */
  ghost predicate Readings(current: string, image: string, target: string) {
    && Canonical(current).Some? && Canonical(image) == Some(target) && IsCanonical(target)
    && SameImage(image, target) && !SameImage(current, target) && ValidateTagChange(current, target).Success?
  }

  lemma ReadingsHold(current: string, image: string)
    requires ValidateTagChange(current, image).Success? && |Text(Canonical(image))| <= MAX_LENGTH
    ensures Readings(current, image, Text(Canonical(image)))
  {
    var target := Text(Canonical(image));
    TagChangeExactly(current, image);
    TagChangeExactly(current, target);
    CanonicalIdempotent(image);
    SameRepository(image);
    hide ParseTaggedImage, CanonicalText, CanonicalRepository;
  }

  lemma SameRepository(image: string)
    requires Canonical(image).Some? && |Canonical(image).value| <= MAX_LENGTH
    ensures RepositoryOf(Canonical(image).value) == RepositoryOf(image)
  {
    CanonicalRoundTrip(image);
    CanonicalTextInjective(Canonical(image).value, image);
    hide ParseTaggedImage, CanonicalText, CanonicalRepository;
  }

  /** There are such images. */
  lemma SomeTagChange()
    ensures ValidateTagChange("a:1", "a:2").Success? && |Text(Canonical("a:2"))| <= MAX_LENGTH
  {
    ShortImage("a:1", "1");
    ShortImage("a:2", "2");
  }

  lemma ShortImage(image: string, tag: string)
    requires |tag| == 1 && IsDigit(tag[0]) && image == "a:" + tag
    ensures ParseTaggedImage(image) == Success(TaggedImage("a", tag))
    ensures |CanonicalText(TaggedImage("a", tag))| <= MAX_LENGTH
  {
    assert image[..1] == "a" && image[2..] == tag;
    SplitOne("a");
    ParseText(image, 1);
    ToLowerIdentity("a");
    var parts := [DOCKER_HUB, "library", "a"];
    assert CanonicalParts(["a"]) == parts;
    assert parts[1..] == ["library", "a"] && parts[1..][1..] == ["a"];
    assert Join(parts[1..]) == "library" + "/" + "a";
  }

  // ---------------------------------------------------------------- the steps of the run

  lemma StartAccepted(current: string, image: string, target: string)
    requires Readings(current, image, target)
    ensures StartCheck(Before(current, image), image) == Success(target)
    ensures LocalInstances(Before(current, image).instances) == [0, 1]
  {
    hide Canonical, SameImage, ValidateTagChange;
    var w := Before(current, image);
    TwoLocal(w.instances);
    assert Replaceable(w, 0, target) && Replaceable(w, 1, target);
    assert !SameImage(ImageOf(w, 0), target);
    assert 0 in LocalInstances(w.instances);
  }

  /** With the two images swapped the request is accepted as well, and the release takes its
      target for the image to roll back to. */
  lemma StartFromTargetAccepted(current: string, image: string)
    requires ValidateTagChange(current, image).Success? && |Text(Canonical(image))| <= MAX_LENGTH
    ensures var w := Before(image, current);
      && Inv(w) && StartCheck(w, image).Success? && LocalInstances(w.instances) == [0, 1]
      && SameImage(ImageOf(w, 0), StartCheck(w, image).value)
      && Started(w, image, 0).service.previousImage == Started(w, image, 0).service.desiredImage
  {
    hide Canonical, SameImage, ValidateTagChange, Started, StartCheck, LocalInstances, ImageOf, Inv, Readings;
    ReadingsHold(current, image);
    IdleHolds(image, current);
    SwappedAccepted(current, image, Text(Canonical(image)));
    PreviousImageCanBeTheTarget(Before(image, current), image, 0);
  }

  lemma SwappedAccepted(current: string, image: string, target: string)
    requires Readings(current, image, target)
    ensures var w := Before(image, current);
      && StartCheck(w, image) == Success(target) && LocalInstances(w.instances) == [0, 1]
      && SameImage(ImageOf(w, 0), target)
  {
    hide Canonical, SameImage, ValidateTagChange;
    var w := Before(image, current);
    TwoLocal(w.instances);
    assert Replaceable(w, 0, target) && Replaceable(w, 1, target);
    assert !SameImage(ImageOf(w, 1), target);
    assert 1 in LocalInstances(w.instances);
  }

  lemma TwoLocal(instances: seq<Instance>)
    requires |instances| == 2 && Releasable(instances[0]) && Releasable(instances[1])
    ensures LocalInstances(instances) == [0, 1]
  {
    assert instances[..1][..0] == [];
    assert LocalInstances(instances[..1]) == [0];
  }

  /** The release between two steps of the run. */
  function During(current: string, image: string, phase: Phase, first: Step, second: StepStatus, tasks: seq<Task>,
      desired: Desired): World
  {
    var taskId := if first.task.Some? then first.task else None;
    Planned(current, Text(Canonical(image)), phase, [first, Step(1, second, None)], taskId, tasks,
            [Local(0, 0).(desired := desired), Local(1, 1)], image)
  }

  function Preparation(image: string, status: TaskStatus, dispatchedAt: Option<Time>, finishedAt: Option<Time>): Task {
    Task(0, 0, PrepareImage, Text(Canonical(image)), status, dispatchedAt, finishedAt)
  }

  lemma Begins(current: string, image: string)
    requires Readings(current, image, Text(Canonical(image)))
    ensures Started(Before(current, image), image, 0) ==
      During(current, image, PreflightingLocal, Step(0, StepPending, None), StepPending, [], Serve)
  {
    hide Canonical, SameImage, ValidateTagChange, StartCheck, LocalInstances, ByName;
    var w, target := Before(current, image), Text(Canonical(image));
    StartAccepted(current, image, target);
    InOrder(w.instances);
    NothingToBind(current, image);
    assert PlannedSteps([0, 1]) == [Step(0, StepPending, None), Step(1, StepPending, None)];
  }

  lemma NothingToBind(current: string, image: string)
    ensures BindResolved(Before(current, image), [0, 1]) == Before(current, image)
  {
    var w := Before(current, image);
    assert [0, 1][..1] == [0] && [0][..0] == [];
    assert Rebound(w, 0, 0) == w && Rebound(w, 1, 1) == w;
    assert BindResolved(w, [0]) == w;
  }

  lemma InOrder(instances: seq<Instance>)
    requires |instances| == 2 && instances[0].name < instances[1].name
    ensures ByName(instances, [0, 1]) == [0, 1]
  {
    hide ByName;
    var sorted := ByName(instances, [0, 1]);
    ReorderedDistinct([0, 1], sorted);
    assert sorted == [sorted[0], sorted[1]];
    assert sorted[0] in [0, 1] && sorted[1] in [0, 1];
  }

  ghost predicate Ready(w: World) {
    && w.release.Some? && w.service.desiredImage.Some? && w.service.desiredImage.value != ""
    && w.service.startedAt == Some(0)
  }

  lemma TickPreflights(w: World)
    requires Ready(w) && w.service.phase == PreflightingLocal
    ensures Tick(w, 0, SETTINGS, ANSWERS) == Preflight(w, 0, SETTINGS)
  {
    hide Preflight, Rollout, CreateGuard, AwaitGuard, WriteWorkload, AwaitWorkload, CleanGuard, Failed;
  }

  lemma TickRollsOut(w: World)
    requires Ready(w) && w.service.phase == DrainingLocal && !Rollout(w, 0, SETTINGS).1
    ensures Tick(w, 0, SETTINGS, ANSWERS) == Rollout(w, 0, SETTINGS).0
  {
    hide Preflight, Rollout, CreateGuard, AwaitGuard, WriteWorkload, AwaitWorkload, CleanGuard, Failed;
  }

  lemma QueuesPreparation(current: string, image: string)
    requires Readings(current, image, Text(Canonical(image)))
    ensures Tick(During(current, image, PreflightingLocal, Step(0, StepPending, None), StepPending, [], Serve),
                 0, SETTINGS, ANSWERS) ==
      During(current, image, PreflightingLocal, Step(0, StepPreparing, Some(0)), StepPending,
             [Preparation(image, TaskPending, None, None)], Serve)
  {
    hide Canonical, SameImage, ValidateTagChange, Tick, Failed;
    CanonicalIsNotEmpty(image);
    var w := During(current, image, PreflightingLocal, Step(0, StepPending, None), StepPending, [], Serve);
    TickPreflights(w);
    assert Rebound(w, 0, 0) == w;
    assert CanQueue(w, 0, 0, SETTINGS);
    var after := Queued(w, 0, 0, PrepareImage, StepPreparing);
    assert Preflight(w, 0, SETTINGS) == after;
    assert after.release.value.steps == [Step(0, StepPreparing, Some(0)), Step(1, StepPending, None)];
    assert after.tasks == [Preparation(image, TaskPending, None, None)];
  }

  lemma CanonicalIsNotEmpty(image: string)
    requires Canonical(image).Some?
    ensures Text(Canonical(image)) != ""
  {}

  lemma PreparationEnds(current: string, image: string)
    ensures var w := During(current, image, PreflightingLocal, Step(0, StepPreparing, Some(0)), StepPending,
        [Preparation(image, TaskPending, None, None)], Serve);
      ResultStored(Dispatched(w, 0, 0), 0, 0, true, None, 0) ==
        During(current, image, PreflightingLocal, Step(0, StepPreparing, Some(0)), StepPending,
               [Preparation(image, TaskSuccess, Some(0), Some(0))], Serve)
  {
    hide Canonical;
    var task := Preparation(image, TaskPending, None, None);
    assert Redelivered([task], 0, 0) == [task];
    assert NextPending([task], 0) == Some(0) by { assert [task][..0] == []; }
  }

  lemma PreparationSeen(current: string, image: string)
    requires Canonical(image).Some?
    ensures Tick(During(current, image, PreflightingLocal, Step(0, StepPreparing, Some(0)), StepPending,
                        [Preparation(image, TaskSuccess, Some(0), Some(0))], Serve), 0, SETTINGS, ANSWERS) ==
      During(current, image, PreflightingLocal, Step(0, StepPrepared, None), StepPending,
             [Preparation(image, TaskSuccess, Some(0), Some(0))], Serve)
  {
    hide Canonical, Tick, Failed, PreflightFrom;
    CanonicalIsNotEmpty(image);
    var w := During(current, image, PreflightingLocal, Step(0, StepPreparing, Some(0)), StepPending,
                    [Preparation(image, TaskSuccess, Some(0), Some(0))], Serve);
    TickPreflights(w);
    var steps := [Step(0, StepPreparing, Some(0)), Step(1, StepPending, None)];
    assert StepOfTask(steps, 0) == Some(0) by { assert steps[..1][..0] == []; }
    assert steps[0 := Step(0, StepPrepared, None)] == [Step(0, StepPrepared, None), Step(1, StepPending, None)];
  }

  lemma PreflightDone(current: string, image: string, tasks: seq<Task>)
    requires Readings(current, image, Text(Canonical(image)))
    ensures Tick(During(current, image, PreflightingLocal, Step(0, StepPrepared, None), StepPending, tasks, Serve),
                 0, SETTINGS, ANSWERS) ==
      During(current, image, DrainingLocal, Step(0, StepPrepared, None), StepCompleted, tasks, Serve)
  {
    hide Canonical, SameImage, ValidateTagChange, Tick, Failed;
    CanonicalIsNotEmpty(image);
    var w := During(current, image, PreflightingLocal, Step(0, StepPrepared, None), StepPending, tasks, Serve);
    var done := During(current, image, PreflightingLocal, Step(0, StepPrepared, None), StepCompleted, tasks, Serve);
    TickPreflights(w);
    assert Rebound(w, 1, 1) == w;
    assert SetStep(w, 1, Step(1, StepCompleted, None)) == done by {
      assert w.release.value.steps[1 := Step(1, StepCompleted, None)] == done.release.value.steps;
    }
    assert PreflightFrom(done, 2, 0, SETTINGS) == SetPhase(done, DrainingLocal);
    assert PreflightFrom(w, 1, 0, SETTINGS) == PreflightFrom(done, 2, 0, SETTINGS);
  }

  lemma DrainBegins(current: string, image: string, tasks: seq<Task>)
    requires Readings(current, image, Text(Canonical(image)))
    ensures Tick(During(current, image, DrainingLocal, Step(0, StepPrepared, None), StepCompleted, tasks, Serve),
                 0, SETTINGS, ANSWERS) ==
      During(current, image, DrainingLocal, Step(0, StepDraining, None), StepCompleted, tasks, Draining)
  {
    hide Canonical, SameImage, ValidateTagChange, Tick, Failed;
    CanonicalIsNotEmpty(image);
    var w := During(current, image, DrainingLocal, Step(0, StepPrepared, None), StepCompleted, tasks, Serve);
    assert Rebound(w, 0, 0) == w;
    var after := Advance(w, 0, 0, 0, SETTINGS);
    assert Rollout(w, 0, SETTINGS) == (after, false);
    assert after.release.value.steps == [Step(0, StepDraining, None), Step(1, StepCompleted, None)];
    assert after.instances == [Local(0, 0).(desired := Draining), Local(1, 1)];
    TickRollsOut(w);
  }

  // ---------------------------------------------------------------- the run

  function At0(event: Event): Moment { Moment(0, event) }

  /** A release is requested; an agent fetches and finishes the preparation; three ticks. */
  function Moments(image: string): seq<Moment> {
    [At0(StartRelease(image)), At0(ReleaseTick(ANSWERS)), At0(NextTask(0)), At0(TaskResult(0, 0, true, None)),
     At0(ReleaseTick(ANSWERS)), At0(ReleaseTick(ANSWERS)), At0(ReleaseTick(ANSWERS))]
  }

  function States(current: string, image: string): seq<World> {
    var queued := During(current, image, PreflightingLocal, Step(0, StepPreparing, Some(0)), StepPending,
                         [Preparation(image, TaskPending, None, None)], Serve);
    var done := [Preparation(image, TaskSuccess, Some(0), Some(0))];
    [Before(current, image),
     During(current, image, PreflightingLocal, Step(0, StepPending, None), StepPending, [], Serve),
     queued,
     Dispatched(queued, 0, 0),
     During(current, image, PreflightingLocal, Step(0, StepPreparing, Some(0)), StepPending, done, Serve),
     During(current, image, PreflightingLocal, Step(0, StepPrepared, None), StepPending, done, Serve),
     During(current, image, DrainingLocal, Step(0, StepPrepared, None), StepCompleted, done, Serve),
     During(current, image, DrainingLocal, Step(0, StepDraining, None), StepCompleted, done, Draining)]
  }

  /** For every valid tag change whose canonical target can be read back, a run begins
      without a release and has one of its instances draining at the end. */
  lemma ReleaseGetsUnderway(current: string, image: string)
    requires ValidateTagChange(current, image).Success? && |Text(Canonical(image))| <= MAX_LENGTH
    ensures var t := Trace(States(current, image), Moments(image), SETTINGS); var s := t.states[7];
      && FromRest(t) && Active(s.service.phase) && s.release.Some? && |s.release.value.steps| == 2
      && s.release.value.steps[0].status == StepDraining && s.instances[0].desired == Draining
  {
    hide ValidateTagChange, Inv, Canonical, Readings, Tick, Started, Dispatched, ResultStored, Before;
    var t := Trace(States(current, image), Moments(image), SETTINGS);
    var done := [Preparation(image, TaskSuccess, Some(0), Some(0))];
    IdleHolds(current, image);
    ReadingsHold(current, image);
    ReadableTarget(current, image);
    Begins(current, image);
    QueuesPreparation(current, image);
    PreparationEnds(current, image);
    PreparationSeen(current, image);
    PreflightDone(current, image, done);
    DrainBegins(current, image, done);
    ConfigIsValid(current, image);
    forall n: nat | n < 7 ensures FollowsAt(t, n) {}
  }

  lemma ConfigIsValid(current: string, image: string)
    ensures forall n :: 0 <= n < 8 ==> ValidConfig(States(current, image)[n].service.config)
  {
    hide Canonical, Redelivered, NextPending;
  }

  lemma ReadableTarget(current: string, image: string)
    requires Readings(current, image, Text(Canonical(image)))
    ensures Canonical(image).Some?
  {
    hide Canonical;
  }
}
