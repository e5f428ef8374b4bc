/** `cloudhelm/releases.py` as it works: one tick assigns rows in place, in loops over the
    ordered steps. Every method computes the specification's state. */
module ReleaseEngine {
  import opened Wrappers
  import opened ImageReference
  import opened Model
  import opened Releases
  import opened Rows

  // ---------------------------------------------------------------- failing

  lemma {:induction false} FirstInterruptedIs(steps: seq<Step>, k: nat)
    requires k <= |steps| && forall j :: 0 <= j < k ==> !Interrupted(steps[j].status)
    requires k < |steps| ==> Interrupted(steps[k].status)
    ensures FirstInterrupted(steps) == if k < |steps| then Some(k) else None
  {
    if steps != [] {
      var front := steps[..|steps| - 1];
      if k < |front| {
        FirstInterruptedIs(front, k);
      } else {
        FirstInterruptedIs(front, |front|);
      }
    }
  }

  method ExpireOutstanding(db: Session, now: Time)
    modifies db`tasks
    ensures db.State() == ExpireTask(old(db.State()), now)
  {
    if db.service.taskId.Some? && db.service.taskId.value < |db.tasks| {
      var t := db.service.taskId.value;
      if db.tasks[t].status == TaskPending {
        db.tasks := db.tasks[t := db.tasks[t].(status := TaskExpired, finishedAt := Some(now))];
      }
    }
  }

  method MarkInterrupted(db: Session)
    modifies db`release, db`instances
    ensures db.State() == Marked(old(db.State()))
  {
    if db.release.Some? {
      var steps, k := db.release.value.steps, 0;
      while k < |steps| && !Interrupted(steps[k].status)
        invariant k <= |steps| && forall j :: 0 <= j < k ==> !Interrupted(steps[j].status)
      {
        k := k + 1;
      }
      FirstInterruptedIs(steps, k);
      if k < |steps| {
        var i := steps[k].instance;
        db.SetStep(k, steps[k].(status := StepFailed));
        if i < |db.instances| && db.instances[i].desired in {Draining, Maintenance} {
          db.SetDesired(i, Restoring);
        }
      }
    }
  }

  method FailRelease(db: Session, now: Time)
    modifies db`service, db`tasks, db`release, db`instances
    ensures db.State() == Failed(old(db.State()), now)
  {
    hide Marked, ExpireTask;
    ExpireOutstanding(db, now);
    db.service := db.service.(phase := ReleaseFailed, taskId := None);
    MarkInterrupted(db);
  }

  // ---------------------------------------------------------------- containers and tasks

  method FindCandidates(containers: seq<Container>, like: Container) returns (found: seq<nat>)
    ensures found == Candidates(containers, like)
  {
    hide Recreates;
    found := [];
    for c := 0 to |containers|
      invariant found == Candidates(containers[..c], like)
    {
      assert containers[..c + 1][..c] == containers[..c];
      if Recreates(containers[c], like) { found := found + [c]; }
    }
    assert containers[..|containers|] == containers;
  }

  /** `resolve_local_container`: rebinds the instance when its container was recreated. */
  method ResolveContainer(db: Session, i: nat) returns (found: Option<nat>)
    requires i < |db.instances|
    modifies db`instances
    ensures found == Resolve(old(db.containers), old(db.instances)[i].container)
    ensures db.State() == if found.Some? then Rebound(old(db.State()), i, found.value) else old(db.State())
  {
    hide Candidates, Recreates;
    var bound := db.instances[i].container;
    if bound.None? || bound.value >= |db.containers| { return None; }
    if db.containers[bound.value].present {
      assert db.instances[i := db.instances[i].(container := bound)] == db.instances;
      return bound;
    }
    var candidates := FindCandidates(db.containers, db.containers[bound.value]);
    if |candidates| != 1 { return None; }
    db.instances := db.instances[i := db.instances[i].(container := Some(candidates[0]))];
    return Some(candidates[0]);
  }

  method HasUnfinishedTask(tasks: seq<Task>, container: nat) returns (busy: bool)
    ensures busy == Busy(tasks, container)
  {
    for t := 0 to |tasks|
      invariant forall j :: 0 <= j < t ==> !(tasks[j].container == container && Unfinished(tasks[j]))
    {
      if tasks[t].container == container && Unfinished(tasks[t]) { return true; }
    }
    return false;
  }

  /** `_queue_local_task`; false stands for its exception. */
  method QueueLocalTask(db: Session, k: nat, container: nat, action: Action, now: Time, settings: Settings)
    returns (queued: bool)
    requires db.release.Some? && k < |db.release.value.steps| && container < |db.containers|
    modifies db`tasks, db`release, db`service
    ensures queued == CanQueue(old(db.State()), container, now, settings)
    ensures !queued ==> db.State() == old(db.State())
    ensures queued ==>
      db.State() == Queued(old(db.State()), k, container, action, old(db.release).value.steps[k].status)
  {
    if !db.service.requestedBy { return false; }
    var node := db.containers[container].node;
    if node >= |db.nodes| || db.nodes[node].lastSeen.None? || now - db.nodes[node].lastSeen.value > settings.nodeOffline {
      return false;
    }
    var busy := HasUnfinishedTask(db.tasks, container);
    if busy { return false; }
    var id := |db.tasks|;
    db.tasks := db.tasks + [Task(node, container, action, Text(db.service.desiredImage), TaskPending, None, None)];
    db.SetStep(k, db.release.value.steps[k].(task := Some(id)));
    db.service := db.service.(taskId := Some(id));
    return true;
  }

  /** The caller's status after a queued task. */
  lemma StatusAfterQueuing(w: World, k: nat, container: nat, action: Action, status: StepStatus)
    requires w.release.Some? && k < |w.release.value.steps| && container < |w.containers|
    ensures var queued := Queued(w, k, container, action, w.release.value.steps[k].status);
      SetStep(queued, k, queued.release.value.steps[k].(status := status)) == Queued(w, k, container, action, status)
  {
    var steps, step := w.release.value.steps, w.release.value.steps[k].(task := Some(|w.tasks|));
    assert steps[k := step][k := step.(status := status)] == steps[k := step.(status := status)];
  }

  lemma {:induction false} StepOfTaskIs(steps: seq<Step>, task: nat, k: nat)
    requires k <= |steps| && forall j :: 0 <= j < k ==> steps[j].task != Some(task)
    requires k < |steps| ==> steps[k].task == Some(task)
    ensures StepOfTask(steps, task) == if k < |steps| then Some(k) else None
  {
    if steps != [] {
      var front := steps[..|steps| - 1];
      if k < |front| {
        StepOfTaskIs(front, task, k);
      } else {
        StepOfTaskIs(front, task, |front|);
      }
    }
  }

  method FindStep(steps: seq<Step>, task: nat) returns (k: Option<nat>)
    ensures k == StepOfTask(steps, task)
  {
    var j := 0;
    while j < |steps| && steps[j].task != Some(task)
      invariant j <= |steps| && forall i :: 0 <= i < j ==> steps[i].task != Some(task)
    {
      j := j + 1;
    }
    StepOfTaskIs(steps, task, j);
    return if j < |steps| then Some(j) else None;
  }

  // ---------------------------------------------------------------- preflight

  method ProgressPreflight(db: Session, now: Time, settings: Settings)
    requires db.release.Some?
    modifies db
    ensures db.State() == Preflight(old(db.State()), now, settings)
  {
    hide Failed, PreflightFrom;
    if db.service.taskId.None? { PreparePending(db, now, settings); return; }
    var t := db.service.taskId.value;
    if t >= |db.tasks| { FailRelease(db, now); return; }
    if Unfinished(db.tasks[t]) { return; }
    var k := FindStep(db.release.value.steps, t);
    if db.tasks[t].status != TaskSuccess || k.None? { FailRelease(db, now); return; }
    db.SetStep(k.value, db.release.value.steps[k.value].(status := StepPrepared, task := None));
    db.service := db.service.(taskId := None);
  }

  /** The loop over the ordered steps. */
  method PreparePending(db: Session, now: Time, settings: Settings)
    requires db.release.Some?
    modifies db
    ensures db.State() == PreflightFrom(old(db.State()), 0, now, settings)
  {
    hide SameImage, Resolve, CanQueue, Failed;
    var k := 0;
    while k < |db.release.value.steps|
      invariant db.release.Some? && k <= |db.release.value.steps|
      invariant PreflightFrom(db.State(), k, now, settings) == PreflightFrom(old(db.State()), 0, now, settings)
      decreases |db.release.value.steps| - k
    {
      var step := db.release.value.steps[k];
      if step.status == StepPending {
        if step.instance >= |db.instances| { FailRelease(db, now); return; }
        var found := ResolveContainer(db, step.instance);
        if found.None? { FailRelease(db, now); return; }
        if SameImage(db.containers[found.value].image, Text(db.service.desiredImage)) {
          db.SetStep(k, step.(status := StepCompleted));
        } else {
          ghost var bound := db.State();
          var queued := QueueLocalTask(db, k, found.value, PrepareImage, now, settings);
          if !queued { FailRelease(db, now); return; }
          db.SetStep(k, db.release.value.steps[k].(status := StepPreparing));
          StatusAfterQueuing(bound, k, found.value, PrepareImage, StepPreparing);
          return;
        }
      }
      k := k + 1;
    }
    db.SetPhase(if |db.release.value.steps| == 1 then PreparingGuard else DrainingLocal);
  }

  // ---------------------------------------------------------------- local rollout

  /** The container switched to the target: the step verifies until the business is back. */
  method VerifyStep(db: Session, k: nat, t: nat, now: Time)
    requires db.release.Some? && k < |db.release.value.steps| && t < |db.tasks|
    modifies db
    ensures db.State() == Verified(old(db.State()), k, t, now)
  {
    hide SameImage, Resolve, Failed;
    var step := db.release.value.steps[k];
    var i := step.instance;
    if i >= |db.instances| { FailRelease(db, now); return; }
    var row := db.instances[i];
    var found := ResolveContainer(db, i);
    if found.None? { FailRelease(db, now); return; }
    var container := db.containers[found.value];
    if !SameImage(container.image, Text(db.service.desiredImage)) { FailRelease(db, now); return; }
    ghost var bound := db.State();
    db.SetDesired(i, Restoring);
    db.SetStep(k, step.(status := StepVerifying));
    db.SetPhase(VerifyingLocal);
    if !BackInService(container, row, db.tasks[t]) { return; }
    db.SetDesired(i, Serve);
    db.SetStep(k, step.(status := StepCompleted, task := None));
    db.service := db.service.(phase := DrainingLocal, taskId := None);
    assert db.instances == bound.instances[i := bound.instances[i].(desired := Serve)];
    assert db.release.value.steps == bound.release.value.steps[k := step.(status := StepCompleted, task := None)];
  }

  method AdvanceStep(db: Session, k: nat, container: nat, now: Time, settings: Settings)
    requires db.release.Some? && k < |db.release.value.steps|
    requires db.release.value.steps[k].instance < |db.instances| && container < |db.containers|
    modifies db
    ensures db.State() == Advance(old(db.State()), k, container, now, settings)
  {
    hide Failed, CanQueue;
    var step := db.release.value.steps[k];
    if step.status in {StepPrepared, StepPending, StepPreparing} {
      db.SetDesired(step.instance, Draining);
      db.SetStep(k, step.(status := StepDraining));
      db.SetPhase(DrainingLocal);
      return;
    }
    if step.status == StepDraining {
      if !Drained(db.instances[step.instance]) { return; }
      ghost var before := db.State();
      var queued := QueueLocalTask(db, k, container, UpdateImage, now, settings);
      if !queued { FailRelease(db, now); return; }
      db.SetStep(k, db.release.value.steps[k].(status := StepUpdating));
      StatusAfterQueuing(before, k, container, UpdateImage, StepUpdating);
      db.SetPhase(UpdatingLocal);
    }
  }

  /** True when every local instance runs the target. */
  method ProgressLocalRollout(db: Session, now: Time, settings: Settings) returns (finished: bool)
    requires db.release.Some?
    modifies db
    ensures (db.State(), finished) == Rollout(old(db.State()), now, settings)
  {
    hide Failed, RolloutFrom, Verified;
    if db.service.taskId.None? { finished := RolloutSteps(db, now, settings); return; }
    var t := db.service.taskId.value;
    if t >= |db.tasks| { FailRelease(db, now); return false; }
    if Unfinished(db.tasks[t]) { return false; }
    var k := FindStep(db.release.value.steps, t);
    if db.tasks[t].status != TaskSuccess || k.None? { FailRelease(db, now); return false; }
    VerifyStep(db, k.value, t, now);
    return false;
  }

  /** The loop over the ordered steps: it leaves at the first one that is not finished. */
  method RolloutSteps(db: Session, now: Time, settings: Settings) returns (finished: bool)
    requires db.release.Some?
    modifies db
    ensures (db.State(), finished) == RolloutFrom(old(db.State()), 0, now, settings)
  {
    hide SameImage, Resolve, Failed, Advance;
    var k := 0;
    while k < |db.release.value.steps|
      invariant db.release.Some? && k <= |db.release.value.steps|
      invariant RolloutFrom(db.State(), k, now, settings) == RolloutFrom(old(db.State()), 0, now, settings)
      decreases |db.release.value.steps| - k
    {
      var step := db.release.value.steps[k];
      if step.status != StepCompleted {
        if step.instance >= |db.instances| { FailRelease(db, now); return false; }
        var found := ResolveContainer(db, step.instance);
        if found.None? { FailRelease(db, now); return false; }
        if !SameImage(db.containers[found.value].image, Text(db.service.desiredImage)) {
          AdvanceStep(db, k, found.value, now, settings);
          return false;
        }
        db.SetDesired(step.instance, Serve);
        db.SetStep(k, step.(status := StepCompleted));
      }
      k := k + 1;
    }
    return true;
  }

  // ---------------------------------------------------------------- guard, workload, completion

  /** `_guard_instances`. */
  method GuardInstances(db: Session, id: nat) returns (found: seq<nat>)
    ensures forall i: nat :: i in found <==> GuardInstance(db.State(), i, id)
  {
    found := [];
    for i := 0 to |db.instances|
      invariant forall j: nat :: j in found <==> j < i && GuardInstance(db.State(), j, id)
    {
      if db.instances[i].pool == AcsRelease && db.instances[i].monitored && db.instances[i].releaseTag == Some(id) {
        found := found + [i];
      }
    }
  }

  method AnyGuardServes(db: Session, id: nat, now: Time) returns (serving: bool)
    ensures serving == GuardIsServing(db.State(), id, now)
  {
    var found := GuardInstances(db, id);
    for n := 0 to |found|
      invariant forall j :: 0 <= j < n ==> !ServesAsGuard(db.State(), found[j], now)
    {
      assert found[n] in found;
      if ServesAsGuard(db.State(), found[n], now) { return true; }
    }
    return false;
  }

  predicate ServesAsGuard(w: World, i: nat, now: Time) {
    && i < |w.instances| && w.instances[i].healthy && w.instances[i].ready && w.instances[i].accepting
    && w.instances[i].updatedAt >= now - w.service.config.stale
    && w.instances[i].endpoint && w.instances[i].host.Some?
  }

  method DrainAll(db: Session, id: nat, found: seq<nat>)
    requires forall i: nat :: i in found <==> GuardInstance(db.State(), i, id)
    modifies db`instances
    ensures db.State() == DrainGuards(old(db.State()), id)
  {
    ghost var before := db.instances;
    for n := 0 to |found|
      invariant |db.instances| == |before|
      invariant forall i :: 0 <= i < |before| ==>
        db.instances[i] ==
          if i in found[..n] && before[i].desired == Serve then before[i].(desired := Draining) else before[i]
    {
      assert found[n] in found;
      if db.instances[found[n]].desired == Serve { db.SetDesired(found[n], Draining); }
      assert found[..n + 1] == found[..n] + [found[n]];
    }
    assert found[..|found|] == found;
    assert db.instances == DrainGuards(old(db.State()), id).instances;
  }

  method AllDrained(db: Session, found: seq<nat>) returns (drained: bool)
    requires forall i :: i in found ==> i < |db.instances|
    ensures drained <==> forall i :: i in found ==> Drained(db.instances[i])
  {
    for n := 0 to |found|
      invariant forall j :: 0 <= j < n ==> found[j] < |db.instances| && Drained(db.instances[found[j]])
    {
      assert found[n] in found;
      if !Drained(db.instances[found[n]]) { return false; }
    }
    return true;
  }

  method StopMonitoring(db: Session, id: nat, found: seq<nat>)
    requires forall i: nat :: i in found <==> GuardInstance(db.State(), i, id)
    modifies db`instances
    ensures db.State() == ForgetGuards(old(db.State()), id)
  {
    ghost var before := db.instances;
    for n := 0 to |found|
      invariant |db.instances| == |before|
      invariant forall i :: 0 <= i < |before| ==>
        db.instances[i] == if i in found[..n] then before[i].(monitored := false) else before[i]
    {
      assert found[n] in found;
      db.instances := db.instances[found[n] := db.instances[found[n]].(monitored := false)];
      assert found[..n + 1] == found[..n] + [found[n]];
    }
    assert found[..|found|] == found;
    assert db.instances == ForgetGuards(old(db.State()), id).instances;
  }

  /** `_complete_release`, with `_record_version`. */
  method CompleteRelease(db: Session, now: Time)
    requires db.release.Some?
    modifies db
    ensures db.State() == Completed(old(db.State()), now)
  {
    var target := if Text(db.service.desiredImage) != "" then Text(db.service.desiredImage) else db.release.value.target;
    db.service := db.service.(phase := ReleaseCompleted, taskId := None);
    var row := Version(target, Some(db.release.value.id), now);
    var v := FindVersion(db.versions, target);
    if v.Some? {
      db.versions := db.versions[v.value := row];
    } else {
      db.versions := db.versions + [row];
    }
  }

  lemma {:induction false} IndexOfVersionIs(versions: seq<Version>, image: string, v: nat)
    requires v <= |versions| && forall j :: 0 <= j < v ==> versions[j].image != image
    requires v < |versions| ==> versions[v].image == image
    ensures IndexOfVersion(versions, image) == if v < |versions| then Some(v) else None
  {
    if versions != [] {
      var front := versions[..|versions| - 1];
      if v < |front| {
        IndexOfVersionIs(front, image, v);
      } else {
        IndexOfVersionIs(front, image, |front|);
      }
    }
  }

  method FindVersion(versions: seq<Version>, image: string) returns (found: Option<nat>)
    ensures found == IndexOfVersion(versions, image)
  {
    var v := 0;
    while v < |versions| && versions[v].image != image
      invariant v <= |versions| && forall j :: 0 <= j < v ==> versions[j].image != image
    {
      v := v + 1;
    }
    IndexOfVersionIs(versions, image, v);
    return if v < |versions| then Some(v) else None;
  }

  method CleanUpGuard(db: Session, now: Time, p: Answers)
    requires db.release.Some?
    modifies db
    ensures db.State() == CleanGuard(old(db.State()), now, p)
  {
    hide Failed, Completed, GuardInstance, Drained, DrainGuards, ForgetGuards;
    var id := db.release.value.id;
    ghost var before := db.State();
    var found := GuardInstances(db, id);
    FoundInTable(before, id, found);
    DrainAll(db, id, found);
    SameGuards(before, id, found);
    var drained := AllDrained(db, found);
    assert found == [] <==> !HasGuards(before, id) by { if found != [] { assert found[0] in found; } }
    assert drained <==> GuardsDrained(db.State(), id);
    if found != [] && !drained { return; }
    if !p.call || db.release.value.guard.None? { FailRelease(db, now); return; }
    db.cloud := db.cloud.(guards := db.cloud.guards - {db.release.value.guard.value});
    SameGuardsAnywhere(before, db.State(), id);
    StopMonitoring(db, id, found);
    CompleteRelease(db, now);
  }

  lemma FoundInTable(w: World, id: nat, found: seq<nat>)
    requires forall i: nat :: i in found <==> GuardInstance(w, i, id)
    ensures forall i :: i in found ==> i < |w.instances|
  {}

  lemma SameGuards(w: World, id: nat, found: seq<nat>)
    requires forall i: nat :: i in found <==> GuardInstance(w, i, id)
    ensures |DrainGuards(w, id).instances| == |w.instances|
    ensures forall i: nat :: i in found <==> GuardInstance(DrainGuards(w, id), i, id)
  {}

  lemma SameGuardsAnywhere(w: World, other: World, id: nat)
    requires other.instances == DrainGuards(w, id).instances
    ensures forall i: nat :: GuardInstance(other, i, id) <==> GuardInstance(w, i, id)
  {}

  // ---------------------------------------------------------------- one service, one pass

  method ProgressService(db: Session, now: Time, settings: Settings, p: Answers)
    modifies db
    ensures db.State() == Progress(old(db.State()), now, settings, p)
  {
    hide Failed, Preflight, Rollout, EnsureGuard, SetWorkloadImage, Canonical, SameImage, GuardIsServing, Completed,
      CleanGuard;
    if db.release.None? { FailRelease(db, now); return; }
    var phase := db.service.phase;
    if phase == PreflightingLocal {
      ProgressPreflight(db, now, settings);
    } else if phase == PreparingGuard {
      var created := EnsureGuard(db.cloud, db.release.value.id, db.release.value.source);
      if !p.call || created.None? { FailRelease(db, now); return; }
      db.cloud := created.value;
      db.release := Some(db.release.value.(guard := Some(db.release.value.id)));
      db.SetPhase(WaitingGuard);
    } else if phase == WaitingGuard {
      AwaitProtection(db, now, p);
    } else if LocalPhase(phase) {
      var finished := ProgressLocalRollout(db, now, settings);
      if finished { db.SetPhase(UpdatingAcs); }
    } else if phase == UpdatingAcs || phase == PreparingAcs {
      var written := SetWorkloadImage(db.cloud, Text(db.service.desiredImage));
      if !p.call || written.None? { FailRelease(db, now); return; }
      db.cloud := written.value.0;
      db.service := db.service.(desiredImage := Some(written.value.1), phase := WaitingAcs);
    } else if phase == WaitingAcs {
      AwaitRollout(db, now, p);
    } else if phase == CleaningGuard {
      CleanUpGuard(db, now, p);
    }
  }

  method AwaitProtection(db: Session, now: Time, p: Answers)
    requires db.release.Some?
    modifies db
    ensures db.State() == AwaitGuard(old(db.State()), now, p)
  {
    hide Failed, Canonical, SameImage, GuardIsServing;
    var release := db.release.value;
    if release.guard.None? { return; }
    var name := release.guard.value;
    if !p.call || name !in db.cloud.guards || Canonical(db.cloud.guards[name]).None? || Canonical(release.source).None? {
      FailRelease(db, now);
      return;
    }
    if !SameImage(db.cloud.guards[name], release.source) || !p.guardReady { return; }
    var serving := AnyGuardServes(db, release.id, now);
    if !serving { return; }
    db.SetPhase(DrainingLocal);
  }

  method AwaitRollout(db: Session, now: Time, p: Answers)
    requires db.release.Some?
    modifies db
    ensures db.State() == AwaitWorkload(old(db.State()), now, p)
  {
    hide Failed, Canonical, SameImage, Completed;
    var target := Text(db.service.desiredImage);
    if !p.call || Canonical(db.cloud.workloadImage).None? || Canonical(target).None? { FailRelease(db, now); return; }
    if !SameImage(db.cloud.workloadImage, target) || !p.rolledOut { return; }
    if db.release.value.guard.Some? {
      db.SetPhase(CleaningGuard);
    } else {
      CompleteRelease(db, now);
    }
  }

  /** `progress_image_releases` for this service. */
  method ProgressImageReleases(db: Session, now: Time, settings: Settings, p: Answers)
    modifies db
    ensures db.State() == Tick(old(db.State()), now, settings, p)
  {
    hide Failed, Progress;
    if db.service.desiredImage.None? || !Active(db.service.phase) { return; }
    if !settings.autoscaling || !p.client { FailRelease(db, now); return; }
    if db.service.startedAt.Some? && now - db.service.startedAt.value > settings.releaseTimeout {
      FailRelease(db, now);
      return;
    }
    if db.service.desiredImage != Some("") { ProgressService(db, now, settings, p); }
  }
}
