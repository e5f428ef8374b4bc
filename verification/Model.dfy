/** The rows one scaling service works on (cloudhelm/models.py) and the provider's side of
    them. Row ids are positions in their table; rows are never removed here. */
module Model {
  import opened Wrappers

  /** Instants and durations share one unit. */
  type Time = int

  type Address = nat

  // ---------------------------------------------------------------- instances and hosts

  datatype Pool = Local | Acs | AcsRelease

  datatype Desired = Serve | Drain | Draining | Maintenance | Restoring

  /** `name` stands for `instance_id` under its text order; a `capacityLimit` of 0 is unset;
      `endpoint` says that scheme and port are registered. */
  datatype Instance = Instance(
    name: int, pool: Pool, container: Option<nat>, active: nat, capacityLimit: nat,
    healthy: bool, ready: bool, accepting: bool, monitored: bool, desired: Desired,
    endpoint: bool, host: Option<Address>, releaseTag: Option<nat>, updatedAt: Time)

  datatype Container = Container(
    node: nat, docker: string, name: string, image: string, running: bool, unhealthy: bool,
    present: bool, project: string, service: string)

  datatype Node = Node(lastSeen: Option<Time>, gateway: Option<Address>)

  datatype Action = PrepareImage | UpdateImage | OtherAction

  datatype TaskStatus = TaskPending | TaskDispatched | TaskSuccess | TaskFailed | TaskExpired

  datatype Task = Task(
    node: nat, container: nat, action: Action, target: string, status: TaskStatus,
    dispatchedAt: Option<Time>, finishedAt: Option<Time>)

  predicate Unfinished(task: Task) { task.status == TaskPending || task.status == TaskDispatched }

  // ---------------------------------------------------------------- releases

  datatype Phase =
    | Idle | PreflightingLocal | PreparingGuard | WaitingGuard | DrainingLocal | PreparingAcs
    | WaitingAcs | UpdatingAcs | UpdatingLocal | VerifyingLocal | CleaningGuard
    | ReleaseCompleted | ReleaseFailed

  predicate Active(phase: Phase) {
    phase != Idle && phase != ReleaseCompleted && phase != ReleaseFailed
  }

  predicate LocalPhase(phase: Phase) {
    phase == DrainingLocal || phase == UpdatingLocal || phase == VerifyingLocal
  }

  predicate AcsPhase(phase: Phase) {
    phase == PreparingAcs || phase == UpdatingAcs || phase == WaitingAcs || phase == CleaningGuard
  }

  datatype StepStatus =
    | StepPending | StepPreparing | StepPrepared | StepDraining | StepUpdating | StepVerifying
    | StepCompleted | StepFailed

  datatype Step = Step(instance: nat, status: StepStatus, task: Option<nat>)

  /** `guard` is the name of the protection deployment, derived from the release id. */
  datatype Release = Release(id: nat, source: string, target: string, guard: Option<nat>, steps: seq<Step>)

  datatype Version = Version(image: string, release: Option<nat>, activatedAt: Time)

  // ---------------------------------------------------------------- the service

  datatype Config = Config(
    capacity: nat, autoscaling: bool, minReplicas: nat, maxReplicas: nat,
    upPercent: real, downPercent: real, window: Time, cooldown: Time, stale: Time,
    upStep: nat, failover: nat)

  /** The bounds of the configuration schema. */
  predicate ValidConfig(c: Config) {
    && c.capacity >= 1 && c.minReplicas <= c.maxReplicas && c.maxReplicas >= 1
    && 0.0 < c.upPercent <= 100.0 && 0.0 <= c.downPercent < c.upPercent
    && c.window > 0 && c.cooldown > 0 && c.stale > 0 && c.upStep >= 1 && c.failover >= 1
  }

  datatype ScaleStatus =
    | Collecting | Monitoring | ProviderDisabled | ProviderError | Cooldown | ScalingUp
    | ScalingUpFailover | ScaleFailed | FailoverActive | ReleaseProtection | Stable | AtMinimum
    | WaitingForReports | DrainRequested | ScalingDown

  datatype Service = Service(
    config: Config, phase: Phase, taskId: Option<nat>, desiredImage: Option<string>,
    previousImage: Option<string>, requestedBy: bool, startedAt: Option<Time>, nextRelease: nat,
    status: ScaleStatus, lastScaledAt: Option<Time>, currentReplicas: nat, desiredReplicas: nat)

  datatype Sample = Sample(at: Time, businesses: nat, capacity: nat)

  /** The provider: a replica register, the workload's image and the guard deployments. */
  datatype Cloud = Cloud(replicas: nat, workloadImage: string, guards: map<nat, string>)

  datatype World = World(
    service: Service, release: Option<Release>, instances: seq<Instance>, containers: seq<Container>,
    nodes: seq<Node>, tasks: seq<Task>, versions: seq<Version>, samples: seq<Sample>, cloud: Cloud)

  datatype Settings = Settings(
    autoscaling: bool, nodeOffline: Time, releaseTimeout: Time, networks: set<Address>)

  function Text(value: Option<string>): string {
    match value case Some(s) => s case None => ""
  }

  function SetInstance(w: World, i: nat, instance: Instance): World
    requires i < |w.instances|
  {
    w.(instances := w.instances[i := instance])
  }

  function SetDesired(w: World, i: nat, desired: Desired): World
    requires i < |w.instances|
  {
    SetInstance(w, i, w.instances[i].(desired := desired))
  }

  function SetStep(w: World, k: nat, step: Step): World
    requires w.release.Some? && k < |w.release.value.steps|
  {
    w.(release := Some(w.release.value.(steps := w.release.value.steps[k := step])))
  }

  function SetPhase(w: World, phase: Phase): World {
    w.(service := w.service.(phase := phase))
  }
}
