/** The console as a whole: every event that a run may contain, handled in place. */
module Console {
  import opened Wrappers
  import opened ImageReference
  import opened Model
  import opened Releases
  import opened Actors
  import opened Autoscaling
  import opened Runs
  import opened Rows
  import opened ReleaseEngine
  import opened ScalingEngine
  import opened Handlers

  /** Old business samples are deleted. */
  method DeleteSamples(db: Session, cutoff: Time)
    modifies db`samples
    ensures db.State() == old(db.State()).(samples := Window(old(db.samples), cutoff))
  {
    var kept := [];
    for i := 0 to |db.samples|
      invariant kept == Window(db.samples[..i], cutoff)
    {
      assert db.samples[..i + 1][..i] == db.samples[..i];
      if db.samples[i].at >= cutoff { kept := kept + [db.samples[i]]; }
    }
    assert db.samples[..|db.samples|] == db.samples;
    db.samples := kept;
  }

  /** `create_action`. */
  method CreateAgentAction(db: Session, c: nat, action: Action, image: string, now: Time, settings: Settings)
    modifies db`tasks
    ensures db.State() == ActionCreated(old(db.State()), c, action, image, now, settings)
  {
    hide ValidateTagChange, Canonical;
    if c >= |db.containers| || !db.containers[c].present || action == PrepareImage { return; }
    var container, target := db.containers[c], "";
    if action == UpdateImage {
      if ValidateTagChange(container.image, image).Failure? { return; }
      target := Text(Canonical(image));
    }
    if container.node >= |db.nodes| || db.nodes[container.node].lastSeen.None?
      || now - db.nodes[container.node].lastSeen.value > settings.nodeOffline
    { return; }
    db.tasks := db.tasks + [Task(container.node, c, action, target, TaskPending, None, None)];
  }

  /** Whatever arrives, the rows afterwards are those the run's step speaks of; so every
      theorem about runs is one about sequences of these calls. */
  method Handle(db: Session, m: Moment, settings: Settings)
    requires ValidConfig(db.service.config)
    modifies db
    ensures db.State() == Effect(old(db.State()), m, settings)
  {
    hide Tick, Evaluated, Started, Reported, EnteredMaintenance, ExitedMaintenance, MonitoringSet, CapacitySet, Configured,
      ActionCreated, Dispatched, ResultStored, HeartbeatStored, Bound, Window, ValidConfig, ReportRefused, StartCheck,
      NextPending;
    match m.event
    case ReleaseTick(p) => ProgressImageReleases(db, m.now, settings, p);
    case ScaleTick(p) => EvaluateService(db, m.now, settings, p);
    case SamplesPruned(from) => DeleteSamples(db, from);
    case Reports(r) => var _ := ReportBusinessLoad(db, r, m.now, settings);
    case Enter(i) => EnterInstanceMaintenance(db, i);
    case Exit(i) => ExitInstanceMaintenance(db, i);
    case Monitor(i, monitored) => UpdateInstanceMonitoring(db, i, monitored);
    case Limit(i, limit) => UpdateInstanceCapacity(db, i, limit);
    case Configure(config) => UpdateScalingService(db, config);
    case StartRelease(image) =>
      if settings.autoscaling { var _ := StartImageRelease(db, image, m.now); }
    case CreateAction(c, action, image) => CreateAgentAction(db, c, action, image, m.now, settings);
    case NextTask(node) => var _ := FetchNextTask(db, node, m.now);
    case TaskResult(node, t, success, docker) => StoreTaskResult(db, node, t, success, docker, m.now);
    case Heartbeat(node, snapshots) => var _ := StoreHeartbeat(db, node, snapshots, m.now);
    case Label(name, c) => BindLabel(db, name, c, m.now);
    case WorkloadEdited(replicas, image) =>
      db.cloud := db.cloud.(replicas := replicas, workloadImage := image);
  }
}
