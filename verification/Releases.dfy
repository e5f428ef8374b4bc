/** The staged image release of one service, one tick at a time (cloudhelm/releases.py). */
module Releases {
  import opened Wrappers
  import opened ImageReference
  import opened Model

  // ---------------------------------------------------------------- containers and tasks

  /** Rows that could be the recreated container of `like`. */
  predicate Recreates(candidate: Container, like: Container) {
    && candidate.node == like.node && candidate.present
    && if like.project != "" && like.service != "" then
         candidate.project == like.project && candidate.service == like.service
       else candidate.name == like.name
  }

  function Candidates(containers: seq<Container>, like: Container): (r: seq<nat>)
    ensures forall i :: 0 <= i < |containers| && Recreates(containers[i], like) ==> i in r
    ensures forall k :: 0 <= k < |r| ==> r[k] < |containers| && Recreates(containers[r[k]], like)
    ensures forall j, k :: 0 <= j < k < |r| ==> r[j] < r[k]
  {
    if containers == [] then []
    else
      var front := Candidates(containers[..|containers| - 1], like);
      if Recreates(containers[|containers| - 1], like) then front + [|containers| - 1] else front
  }

  /** `resolve_local_container`: the bound row if present, else the only one like it. */
  function Resolve(containers: seq<Container>, bound: Option<nat>): (r: Option<nat>)
    ensures r.Some? ==> r.value < |containers| && containers[r.value].present
    ensures r.Some? && r != bound ==>
      && bound.Some? && bound.value < |containers| && !containers[bound.value].present
      && forall c :: 0 <= c < |containers| ==> (Recreates(containers[c], containers[bound.value]) <==> c == r.value)
  {
    if bound.None? || bound.value >= |containers| then None
    else if containers[bound.value].present then bound
    else
      var found := Candidates(containers, containers[bound.value]);
      if |found| == 1 then Some(found[0]) else None
  }

  function ResolveStep(w: World, step: Step): (r: Option<nat>)
    ensures r.Some? ==> step.instance < |w.instances| && r.value < |w.containers|
  {
    if step.instance >= |w.instances| then None
    else Resolve(w.containers, w.instances[step.instance].container)
  }

  function Rebound(w: World, i: nat, container: nat): World
    requires i < |w.instances|
  {
    SetInstance(w, i, w.instances[i].(container := Some(container)))
  }

  predicate NodeOnline(w: World, node: nat, now: Time, settings: Settings) {
    && node < |w.nodes| && w.nodes[node].lastSeen.Some?
    && now - w.nodes[node].lastSeen.value <= settings.nodeOffline
  }

  predicate Busy(tasks: seq<Task>, container: nat) {
    exists t :: 0 <= t < |tasks| && tasks[t].container == container && Unfinished(tasks[t])
  }

  predicate CanQueue(w: World, container: nat, now: Time, settings: Settings)
    requires container < |w.containers|
  {
    && w.service.requestedBy && NodeOnline(w, w.containers[container].node, now, settings)
    && !Busy(w.tasks, container)
  }

  /** `_queue_local_task` together with the status its caller then gives the step. */
  function Queued(w: World, k: nat, container: nat, action: Action, status: StepStatus): World
    requires w.release.Some? && k < |w.release.value.steps| && container < |w.containers|
  {
    var id := |w.tasks|;
    var task := Task(w.containers[container].node, container, action, Text(w.service.desiredImage),
                     TaskPending, None, None);
    var queued := w.(tasks := w.tasks + [task], service := w.service.(taskId := Some(id)));
    SetStep(queued, k, w.release.value.steps[k].(task := Some(id), status := status))
  }

  function StepOfTask(steps: seq<Step>, task: nat): (r: Option<nat>)
    ensures r.Some? ==> r.value < |steps| && steps[r.value].task == Some(task)
    ensures r.None? ==> forall k :: 0 <= k < |steps| ==> steps[k].task != Some(task)
  {
    if steps == [] then None
    else if StepOfTask(steps[..|steps| - 1], task).Some? then StepOfTask(steps[..|steps| - 1], task)
    else if steps[|steps| - 1].task == Some(task) then Some(|steps| - 1)
    else None
  }

  // ---------------------------------------------------------------- failing

  /** The statuses `_fail_release` looks for. */
  predicate Interrupted(status: StepStatus) {
    status == StepPreparing || status == StepDraining || status == StepUpdating || status == StepVerifying
  }

  function FirstInterrupted(steps: seq<Step>): (r: Option<nat>)
    ensures r.Some? ==> r.value < |steps| && Interrupted(steps[r.value].status)
    ensures r.None? ==> forall k :: 0 <= k < |steps| ==> !Interrupted(steps[k].status)
  {
    if steps == [] then None
    else if FirstInterrupted(steps[..|steps| - 1]).Some? then FirstInterrupted(steps[..|steps| - 1])
    else if Interrupted(steps[|steps| - 1].status) then Some(|steps| - 1)
    else None
  }

  function ExpireTask(w: World, now: Time): World {
    match w.service.taskId
    case Some(t) =>
      if t < |w.tasks| && w.tasks[t].status == TaskPending then
        w.(tasks := w.tasks[t := w.tasks[t].(status := TaskExpired, finishedAt := Some(now))])
      else w
    case None => w
  }

  function Restored(w: World, i: nat): World {
    if i < |w.instances| && w.instances[i].desired in {Draining, Maintenance} then SetDesired(w, i, Restoring) else w
  }

  /** The interrupted step is marked, and its instance comes back. */
  function Marked(w: World): World {
    if w.release.None? then w
    else
      match FirstInterrupted(w.release.value.steps)
      case None => w
      case Some(k) =>
        var step := w.release.value.steps[k];
        Restored(SetStep(w, k, step.(status := StepFailed)), step.instance)
  }

  /** `_fail_release`. */
  function Failed(w: World, now: Time): World {
    var stopped := ExpireTask(w, now);
    Marked(stopped.(service := w.service.(phase := ReleaseFailed, taskId := None)))
  }

  // ---------------------------------------------------------------- preflight

  function Preflight(w: World, now: Time, settings: Settings): World
    requires w.release.Some?
  {
    match w.service.taskId
    case Some(t) =>
      if t >= |w.tasks| then Failed(w, now)
      else if Unfinished(w.tasks[t]) then w
      else
        var k := StepOfTask(w.release.value.steps, t);
        if w.tasks[t].status != TaskSuccess || k.None? then Failed(w, now)
        else
          SetStep(w, k.value, w.release.value.steps[k.value].(status := StepPrepared, task := None))
            .(service := w.service.(taskId := None))
    case None => PreflightFrom(w, 0, now, settings)
  }

  function PreflightFrom(w: World, k: nat, now: Time, settings: Settings): World
    requires w.release.Some? && k <= |w.release.value.steps|
    decreases |w.release.value.steps| - k
  {
    var steps := w.release.value.steps;
    if k == |steps| then SetPhase(w, if |steps| == 1 then PreparingGuard else DrainingLocal)
    else if steps[k].status != StepPending then PreflightFrom(w, k + 1, now, settings)
    else
      var found := ResolveStep(w, steps[k]);
      if found.None? then Failed(w, now)
      else
        var bound := Rebound(w, steps[k].instance, found.value);
        if SameImage(w.containers[found.value].image, Text(w.service.desiredImage)) then
          PreflightFrom(SetStep(bound, k, steps[k].(status := StepCompleted)), k + 1, now, settings)
        else if !CanQueue(bound, found.value, now, settings) then Failed(bound, now)
        else Queued(bound, k, found.value, PrepareImage, StepPreparing)
  }

  // ---------------------------------------------------------------- local rollout

  /** The container runs and the business reported itself healthy after the task ended. */
  predicate BackInService(container: Container, instance: Instance, task: Task) {
    && container.running && !container.unhealthy
    && instance.healthy && instance.ready && instance.accepting
    && task.finishedAt.Some? && instance.updatedAt >= task.finishedAt.value
  }

  predicate Drained(instance: Instance) {
    instance.desired == Maintenance && !instance.accepting && instance.active == 0
  }

  /** The new world, and whether every local step is completed. */
  function Rollout(w: World, now: Time, settings: Settings): (World, bool)
    requires w.release.Some?
  {
    match w.service.taskId
    case Some(t) =>
      if t >= |w.tasks| then (Failed(w, now), false)
      else if Unfinished(w.tasks[t]) then (w, false)
      else
        var k := StepOfTask(w.release.value.steps, t);
        if w.tasks[t].status != TaskSuccess || k.None? then (Failed(w, now), false)
        else (Verified(w, k.value, t, now), false)
    case None => RolloutFrom(w, 0, now, settings)
  }

  /** The tick that finds the update task successful, and every later tick until the
      business is back. */
  function Verified(w: World, k: nat, t: nat, now: Time): World
    requires w.release.Some? && k < |w.release.value.steps| && t < |w.tasks|
  {
    var step := w.release.value.steps[k];
    var found := ResolveStep(w, step);
    if step.instance >= |w.instances| || found.None? then Failed(w, now)
    else
      var bound := Rebound(w, step.instance, found.value);
      var container := w.containers[found.value];
      if !SameImage(container.image, Text(w.service.desiredImage)) then Failed(bound, now)
      else if !BackInService(container, w.instances[step.instance], w.tasks[t]) then
        SetPhase(SetStep(SetDesired(bound, step.instance, Restoring), k, step.(status := StepVerifying)), VerifyingLocal)
      else
        SetStep(SetDesired(bound, step.instance, Serve), k, step.(status := StepCompleted, task := None))
          .(service := w.service.(phase := DrainingLocal, taskId := None))
  }

  function RolloutFrom(w: World, k: nat, now: Time, settings: Settings): (World, bool)
    requires w.release.Some? && k <= |w.release.value.steps|
    decreases |w.release.value.steps| - k
  {
    var steps := w.release.value.steps;
    if k == |steps| then (w, true)
    else if steps[k].status == StepCompleted then RolloutFrom(w, k + 1, now, settings)
    else
      var step, found := steps[k], ResolveStep(w, steps[k]);
      if found.None? then (Failed(w, now), false)
      else
        var bound := Rebound(w, step.instance, found.value);
        if SameImage(w.containers[found.value].image, Text(w.service.desiredImage)) then
          RolloutFrom(SetStep(SetDesired(bound, step.instance, Serve), k, step.(status := StepCompleted)), k + 1, now, settings)
        else (Advance(bound, k, found.value, now, settings), false)
  }

  /** One step that still runs the old image. */
  function Advance(w: World, k: nat, container: nat, now: Time, settings: Settings): World
    requires w.release.Some? && k < |w.release.value.steps|
    requires w.release.value.steps[k].instance < |w.instances| && container < |w.containers|
  {
    var step := w.release.value.steps[k];
    if step.status in {StepPrepared, StepPending, StepPreparing} then
      SetPhase(SetStep(SetDesired(w, step.instance, Draining), k, step.(status := StepDraining)), DrainingLocal)
    else if step.status == StepDraining then
      if !Drained(w.instances[step.instance]) then w
      else if !CanQueue(w, container, now, settings) then Failed(w, now)
      else SetPhase(Queued(w, k, container, UpdateImage, StepUpdating), UpdatingLocal)
    else w
  }

  // ---------------------------------------------------------------- guard, workload, completion

  /** What the provider answers during one tick: whether a client can be built, whether the
      call succeeds, and what it reports about readiness. */
  datatype Answers = Answers(client: bool, call: bool, guardReady: bool, rolledOut: bool)

  /** `ensure_release_guard`: an existing guard is kept, a new one runs the source image. */
  function EnsureGuard(cloud: Cloud, id: nat, source: string): Option<Cloud> {
    if id in cloud.guards then Some(cloud)
    else if RepositoryOf(cloud.workloadImage).None? || RepositoryOf(cloud.workloadImage) != RepositoryOf(source)
    then None
    else Some(cloud.(guards := cloud.guards[id := Text(Canonical(source))]))
  }

  predicate GuardInstance(w: World, i: nat, id: nat) {
    && i < |w.instances| && w.instances[i].pool == AcsRelease && w.instances[i].monitored
    && w.instances[i].releaseTag == Some(id)
  }

  /** A registered guard instance is healthy, accepting, freshly reported and routable. */
  predicate GuardIsServing(w: World, id: nat, now: Time) {
    exists i :: 0 <= i < |w.instances| && GuardInstance(w, i, id)
      && w.instances[i].healthy && w.instances[i].ready && w.instances[i].accepting
      && w.instances[i].updatedAt >= now - w.service.config.stale
      && w.instances[i].endpoint && w.instances[i].host.Some?
  }

  predicate HasGuards(w: World, id: nat) {
    exists i :: 0 <= i < |w.instances| && GuardInstance(w, i, id)
  }

  predicate GuardsDrained(w: World, id: nat) {
    forall i :: 0 <= i < |w.instances| && GuardInstance(w, i, id) ==> Drained(w.instances[i])
  }

  /** Every registered guard that still serves is asked to drain. */
  function DrainGuards(w: World, id: nat): World {
    w.(instances := seq(|w.instances|, i requires 0 <= i < |w.instances| =>
         if GuardInstance(w, i, id) && w.instances[i].desired == Serve
         then w.instances[i].(desired := Draining) else w.instances[i]))
  }

  function ForgetGuards(w: World, id: nat): World {
    w.(instances := seq(|w.instances|, i requires 0 <= i < |w.instances| =>
         if GuardInstance(w, i, id) then w.instances[i].(monitored := false) else w.instances[i]))
  }

  /** `set_workload_image`: only inside one repository; the canonical target is written. */
  function SetWorkloadImage(cloud: Cloud, target: string): Option<(Cloud, string)> {
    if RepositoryOf(cloud.workloadImage).None? || RepositoryOf(cloud.workloadImage) != RepositoryOf(target) then None
    else if SameImage(cloud.workloadImage, target) then Some((cloud, Text(Canonical(target))))
    else Some((cloud.(workloadImage := Text(Canonical(target))), Text(Canonical(target))))
  }

  function IndexOfVersion(versions: seq<Version>, image: string): (r: Option<nat>)
    ensures r.Some? ==> r.value < |versions| && versions[r.value].image == image
    ensures r.None? ==> forall i :: 0 <= i < |versions| ==> versions[i].image != image
  {
    if versions == [] then None
    else if IndexOfVersion(versions[..|versions| - 1], image).Some? then IndexOfVersion(versions[..|versions| - 1], image)
    else if versions[|versions| - 1].image == image then Some(|versions| - 1)
    else None
  }

  function RecordVersion(versions: seq<Version>, image: string, release: nat, now: Time): seq<Version> {
    var row := Version(image, Some(release), now);
    match IndexOfVersion(versions, image)
    case Some(i) => versions[i := row]
    case None => versions + [row]
  }

  function Completed(w: World, now: Time): World
    requires w.release.Some?
  {
    var release := w.release.value;
    var target := if Text(w.service.desiredImage) != "" then Text(w.service.desiredImage) else release.target;
    w.(service := w.service.(phase := ReleaseCompleted, taskId := None),
       versions := RecordVersion(w.versions, target, release.id, now))
  }

  function CreateGuard(w: World, now: Time, p: Answers): World
    requires w.release.Some?
  {
    var release := w.release.value;
    var cloud := EnsureGuard(w.cloud, release.id, release.source);
    if !p.call || cloud.None? then Failed(w, now)
    else SetPhase(w.(cloud := cloud.value, release := Some(release.(guard := Some(release.id)))), WaitingGuard)
  }

  function AwaitGuard(w: World, now: Time, p: Answers): World
    requires w.release.Some?
  {
    var release := w.release.value;
    if release.guard.None? then w
    else if !p.call || release.guard.value !in w.cloud.guards
      || Canonical(w.cloud.guards[release.guard.value]).None? || Canonical(release.source).None?
    then Failed(w, now)
    else if !SameImage(w.cloud.guards[release.guard.value], release.source) || !p.guardReady then w
    else if !GuardIsServing(w, release.id, now) then w
    else SetPhase(w, DrainingLocal)
  }

  function WriteWorkload(w: World, now: Time, p: Answers): World {
    var written := SetWorkloadImage(w.cloud, Text(w.service.desiredImage));
    if !p.call || written.None? then Failed(w, now)
    else
      w.(cloud := written.value.0,
         service := w.service.(desiredImage := Some(written.value.1), phase := WaitingAcs))
  }

  function AwaitWorkload(w: World, now: Time, p: Answers): World
    requires w.release.Some?
  {
    var target := Text(w.service.desiredImage);
    if !p.call || Canonical(w.cloud.workloadImage).None? || Canonical(target).None? then Failed(w, now)
    else if !SameImage(w.cloud.workloadImage, target) || !p.rolledOut then w
    else if w.release.value.guard.Some? then SetPhase(w, CleaningGuard)
    else Completed(w, now)
  }

  function CleanGuard(w: World, now: Time, p: Answers): World
    requires w.release.Some?
  {
    var release := w.release.value;
    var drained := DrainGuards(w, release.id);
    if HasGuards(w, release.id) && !GuardsDrained(drained, release.id) then drained
    else if !p.call || release.guard.None? then Failed(drained, now)
    else
      var gone := drained.(cloud := drained.cloud.(guards := drained.cloud.guards - {release.guard.value}));
      Completed(ForgetGuards(gone, release.id), now)
  }

  function Progress(w: World, now: Time, settings: Settings, p: Answers): World {
    if w.release.None? then Failed(w, now)
    else
      var phase := w.service.phase;
      if phase == PreflightingLocal then Preflight(w, now, settings)
      else if phase == PreparingGuard then CreateGuard(w, now, p)
      else if phase == WaitingGuard then AwaitGuard(w, now, p)
      else if LocalPhase(phase) then
        var rolled := Rollout(w, now, settings);
        if rolled.1 then SetPhase(rolled.0, UpdatingAcs) else rolled.0
      else if phase == UpdatingAcs || phase == PreparingAcs then WriteWorkload(w, now, p)
      else if phase == WaitingAcs then AwaitWorkload(w, now, p)
      else if phase == CleaningGuard then CleanGuard(w, now, p)
      else w
  }

  /** One pass of `progress_image_releases` for this service. */
  function Tick(w: World, now: Time, settings: Settings, p: Answers): World {
    if w.service.desiredImage.None? || !Active(w.service.phase) then w
    else if !settings.autoscaling || !p.client then Failed(w, now)
    else if w.service.startedAt.Some? && now - w.service.startedAt.value > settings.releaseTimeout then
      Failed(w, now)
    else if w.service.desiredImage == Some("") then w
    else Progress(w, now, settings, p)
  }
}
