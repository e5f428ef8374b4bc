/** The request handlers as they work: cloudhelm/routers/scaling.py (business reports,
    operators, release requests) and cloudhelm/routers/agent.py (task queue, heartbeats). */
module Handlers {
  import opened Wrappers
  import opened ImageReference
  import opened Model
  import opened Releases
  import opened Actors
  import opened Rows
  import opened ReleaseEngine

  // ---------------------------------------------------------------- business reports

  lemma {:induction false} IndexOfNameIs(instances: seq<Instance>, name: int, i: nat)
    requires i <= |instances| && forall j :: 0 <= j < i ==> instances[j].name != name
    requires i < |instances| ==> instances[i].name == name
    ensures IndexOfName(instances, name) == if i < |instances| then Some(i) else None
  {
    if instances != [] {
      var front := instances[..|instances| - 1];
      if i < |front| {
        IndexOfNameIs(front, name, i);
      } else {
        IndexOfNameIs(front, name, |front|);
      }
    }
  }

  method FindInstance(instances: seq<Instance>, name: int) returns (found: Option<nat>)
    ensures found == IndexOfName(instances, name)
  {
    var i := 0;
    while i < |instances| && instances[i].name != name
      invariant i <= |instances| && forall j :: 0 <= j < i ==> instances[j].name != name
    {
      i := i + 1;
    }
    IndexOfNameIs(instances, name, i);
    return if i < |instances| then Some(i) else None;
  }

  /** `report_business_load`; false stands for an error response, which changes nothing. */
  method ReportBusinessLoad(db: Session, r: Report, now: Time, settings: Settings) returns (accepted: bool)
    modifies db`instances
    ensures accepted == !ReportRefused(old(db.State()), r, settings)
    ensures db.State() == Reported(old(db.State()), r, now, settings)
  {
    if r.pool != Local && r.container.Some? { return false; }
    if r.pool != Local && r.endpoint && r.host.None? { return false; }
    if r.host.Some? && r.host.value !in settings.networks { return false; }
    if r.container.Some? && r.container.value >= |db.containers| { return false; }
    var found := FindInstance(db.instances, r.name);
    if r.container.Some? && (found.None? || db.instances[found.value].container != r.container) { return false; }
    if found.None? {
      db.instances := db.instances + [Instance(
        r.name, r.pool, None, r.active, 0, r.healthy, r.ready, r.accepting, true, Serve,
        r.endpoint, r.host, r.releaseTag, now)];
      return true;
    }
    var row := db.instances[found.value];
    if row.pool != r.pool { return false; }
    row := StoreReport(row, r, now);
    db.instances := db.instances[found.value := row];
    return true;
  }

  method StoreReport(stored: Instance, r: Report, now: Time) returns (row: Instance)
    requires r.container.Some? ==> stored.container == r.container && r.pool == Local
    ensures row == AfterReporting(stored, r, now)
  {
    row := stored;
    if r.pool == Local && r.container.Some? {
      row := row.(container := r.container);
    } else if r.pool != Local {
      row := row.(container := None);
    }
    row := row.(active := r.active, healthy := r.healthy, ready := r.ready, accepting := r.accepting,
                endpoint := r.endpoint, host := r.host, releaseTag := r.releaseTag, updatedAt := now);
    if row.desired == Draining && !row.accepting && row.active == 0 {
      row := row.(desired := Maintenance);
    } else if row.desired == Restoring && row.healthy && row.ready && row.accepting {
      row := row.(desired := Serve);
    }
  }

  // ---------------------------------------------------------------- operators

  method EnterInstanceMaintenance(db: Session, i: nat)
    modifies db`instances
    ensures db.State() == EnteredMaintenance(old(db.State()), i)
  {
    if i >= |db.instances| || db.instances[i].pool != Local || Active(db.service.phase) { return; }
    if db.instances[i].desired != Serve { return; }
    db.SetDesired(i, Draining);
  }

  method ExitInstanceMaintenance(db: Session, i: nat)
    modifies db`instances
    ensures db.State() == ExitedMaintenance(old(db.State()), i)
  {
    if i >= |db.instances| || db.instances[i].pool != Local || db.instances[i].desired != Maintenance { return; }
    db.SetDesired(i, Restoring);
  }

  method UpdateInstanceMonitoring(db: Session, i: nat, monitored: bool)
    modifies db`instances
    ensures db.State() == MonitoringSet(old(db.State()), i, monitored)
  {
    if i >= |db.instances| { return; }
    db.instances := db.instances[i := db.instances[i].(monitored := monitored)];
    if !monitored { db.SetDesired(i, Serve); }
  }

  method UpdateInstanceCapacity(db: Session, i: nat, limit: nat)
    modifies db`instances
    ensures db.State() == CapacitySet(old(db.State()), i, limit)
  {
    if i < |db.instances| { db.instances := db.instances[i := db.instances[i].(capacityLimit := limit)]; }
  }

  method UpdateScalingService(db: Session, config: Config)
    modifies db`service
    ensures db.State() == Configured(old(db.State()), config)
  {
    if Active(db.service.phase) || !ValidConfig(config) { return; }
    db.service := db.service.(config := config);
  }

  // ---------------------------------------------------------------- starting a release

  method SelectLocalInstances(instances: seq<Instance>) returns (chosen: seq<nat>)
    ensures chosen == LocalInstances(instances)
  {
    chosen := [];
    for i := 0 to |instances|
      invariant chosen == LocalInstances(instances[..i])
    {
      assert instances[..i + 1][..i] == instances[..i];
      if Releasable(instances[i]) { chosen := chosen + [i]; }
    }
    assert instances[..|instances|] == instances;
  }

  /** One instance of the checking loop, which also rebinds a recreated container. */
  method CheckInstance(db: Session, i: nat, target: string) returns (image: Option<string>)
    requires i < |db.instances|
    modifies db`instances
    ensures image.Some? == Replaceable(old(db.State()), i, target)
    ensures image.Some? ==> image.value == ImageOf(old(db.State()), i)
    ensures image.Some? ==>
      db.State() == Rebound(old(db.State()), i, Resolve(old(db.containers), old(db.instances)[i].container).value)
  {
    hide ValidateTagChange, SameImage, Resolve;
    var row := db.instances[i];
    if row.desired != Serve || !row.healthy || !row.ready || !row.accepting { return None; }
    var found := ResolveContainer(db, i);
    if found.None? { return None; }
    var c := db.containers[found.value];
    if !c.running || c.unhealthy { return None; }
    var busy := HasUnfinishedTask(db.tasks, found.value);
    if busy { return None; }
    if ValidateTagChange(c.image, target).Failure? && !SameImage(c.image, target) { return None; }
    return Some(c.image);
  }

  /** Rebinding other instances does not affect whether this one may be replaced. */
  lemma ReplaceableElsewhere(w: World, other: World, i: nat, target: string)
    requires i < |w.instances| && |other.instances| == |w.instances| && other.instances[i] == w.instances[i]
    requires other.containers == w.containers && other.tasks == w.tasks
    ensures Replaceable(other, i, target) == Replaceable(w, i, target) && ImageOf(other, i) == ImageOf(w, i)
  {
    hide ValidateTagChange, SameImage, Resolve;
  }

  lemma BindNext(w: World, chosen: seq<nat>, n: nat)
    requires n < |chosen| && chosen[n] < |w.instances|
    requires Resolve(w.containers, w.instances[chosen[n]].container).Some?
    ensures BindResolved(w, chosen[..n + 1]) ==
      Rebound(BindResolved(w, chosen[..n]), chosen[n], Resolve(w.containers, w.instances[chosen[n]].container).value)
  {
    hide Resolve;
    assert chosen[..n + 1][..n] == chosen[..n];
  }

  lemma {:induction false} BindElsewhere(w: World, chosen: seq<nat>, i: nat)
    requires i < |w.instances| && i !in chosen
    ensures BindResolved(w, chosen).instances[i] == w.instances[i]
  {
    hide Resolve;
    if chosen != [] {
      assert chosen[|chosen| - 1] in chosen;
      BindElsewhere(w, chosen[..|chosen| - 1], i);
    }
  }

  /** The checking loop over the instances of a release request; none on the first refusal. */
  method CheckInstances(db: Session, chosen: seq<nat>, target: string) returns (images: Option<seq<string>>)
    requires forall k :: 0 <= k < |chosen| ==> chosen[k] < |db.instances|
    requires forall j, k :: 0 <= j < k < |chosen| ==> chosen[j] < chosen[k]
    modifies db`instances
    ensures images.Some? <==> forall i :: i in chosen ==> Replaceable(old(db.State()), i, target)
    ensures images.Some? ==> |images.value| == |chosen|
    ensures images.Some? ==> forall k :: 0 <= k < |chosen| ==> images.value[k] == ImageOf(old(db.State()), chosen[k])
    ensures images.Some? ==> db.State() == BindResolved(old(db.State()), chosen)
  {
    hide Replaceable, ImageOf, Resolve;
    ghost var before := db.State();
    var found: seq<string> := [];
    assert chosen[..0] == [];
    for n := 0 to |chosen|
      invariant db.State() == BindResolved(before, chosen[..n]) && |found| == n
      invariant forall k :: 0 <= k < n ==> Replaceable(before, chosen[k], target)
      invariant forall k :: 0 <= k < n ==> found[k] == ImageOf(before, chosen[k])
    {
      BindElsewhere(before, chosen[..n], chosen[n]);
      ReplaceableElsewhere(before, db.State(), chosen[n], target);
      assert chosen[n] in chosen;
      var image := CheckInstance(db, chosen[n], target);
      if image.None? { return None; }
      ReplaceableResolves(before, chosen[n], target);
      BindNext(before, chosen, n);
      found := found + [image.value];
    }
    assert chosen[..|chosen|] == chosen;
    return Some(found);
  }

  lemma ReplaceableResolves(w: World, i: nat, target: string)
    requires i < |w.instances| && Replaceable(w, i, target)
    ensures Resolve(w.containers, w.instances[i].container).Some?
  {}

  method AllOnTarget(images: seq<string>, target: string) returns (all: bool)
    ensures all <==> forall k :: 0 <= k < |images| ==> SameImage(images[k], target)
  {
    hide SameImage;
    for k := 0 to |images|
      invariant forall j :: 0 <= j < k ==> SameImage(images[j], target)
    {
      if !SameImage(images[k], target) { return false; }
    }
    return true;
  }

  /** `_start_image_release`. A refused request is rolled back. */
  method StartImageRelease(db: Session, raw: string, now: Time) returns (outcome: Result<string, StartError>)
    modifies db
    ensures outcome == StartCheck(old(db.State()), raw)
    ensures db.State() == Started(old(db.State()), raw, now)
  {
    hide Canonical, SameImage, Replaceable, ImageOf, BindResolved, ByName, Opened;
    if Active(db.service.phase) { return Failure(AlreadyRunning); }
    if Canonical(raw).None? { return Failure(BadTarget); }
    var target := Canonical(raw).value;
    var chosen := SelectLocalInstances(db.instances);
    if chosen == [] { return Failure(NoLocalInstance); }
    ghost var before := db.State();
    var saved := db.instances;
    var images := CheckInstances(db, chosen, target);
    if images.None? {
      db.instances := saved;
      return Failure(NotReplaceable);
    }
    var all := AllOnTarget(images.value, target);
    CurrentImages(before, chosen, images.value, target);
    if all {
      db.instances := saved;
      return Failure(AllCurrent);
    }
    assert images.value[0] == ImageOf(before, chosen[0]);
    OpenRelease(db, ByName(saved, chosen), Text(Canonical(images.value[0])), target, now);
    return Success(target);
  }

  method OpenRelease(db: Session, ordered: seq<nat>, source: string, target: string, now: Time)
    modifies db`release, db`versions, db`service
    ensures db.State() == Opened(old(db.State()), ordered, source, target, now)
  {
    var steps := [];
    for k := 0 to |ordered|
      invariant |steps| == k && forall j :: 0 <= j < k ==> steps[j] == Step(ordered[j], StepPending, None)
    {
      steps := steps + [Step(ordered[k], StepPending, None)];
    }
    assert steps == PlannedSteps(ordered);
    db.release := Some(Release(db.service.nextRelease, source, target, None, steps));
    var known := FindVersion(db.versions, source);
    if known.None? { db.versions := db.versions + [Version(source, None, now)]; }
    db.service := db.service.(
      previousImage := Some(source), desiredImage := Some(target), phase := PreflightingLocal,
      requestedBy := true, taskId := None, startedAt := Some(now), nextRelease := db.service.nextRelease + 1);
  }

  lemma CurrentImages(w: World, chosen: seq<nat>, images: seq<string>, target: string)
    requires forall k :: 0 <= k < |chosen| ==> chosen[k] < |w.instances|
    requires |images| == |chosen| && forall k :: 0 <= k < |chosen| ==> images[k] == ImageOf(w, chosen[k])
    ensures (forall k :: 0 <= k < |images| ==> SameImage(images[k], target)) <==>
      forall i :: i in chosen ==> SameImage(ImageOf(w, i), target)
  {
    hide SameImage, ImageOf;
    if forall i :: i in chosen ==> SameImage(ImageOf(w, i), target) {
      forall k | 0 <= k < |images| ensures SameImage(images[k], target) {
        assert chosen[k] in chosen;
      }
    }
  }

  // ---------------------------------------------------------------- agent tasks

  lemma {:induction false} NextPendingIs(tasks: seq<Task>, node: nat, t: nat)
    requires t <= |tasks|
    requires forall j :: 0 <= j < t ==> !(tasks[j].node == node && tasks[j].status == TaskPending)
    requires t < |tasks| ==> tasks[t].node == node && tasks[t].status == TaskPending
    ensures NextPending(tasks, node) == if t < |tasks| then Some(t) else None
  {
    if tasks != [] {
      var front := tasks[..|tasks| - 1];
      if t < |front| {
        NextPendingIs(front, node, t);
      } else {
        NextPendingIs(front, node, |front|);
      }
    }
  }

  method RequeueStale(db: Session, node: nat, now: Time)
    modifies db`tasks
    ensures db.State() == old(db.State()).(tasks := Redelivered(old(db.tasks), node, now))
  {
    ghost var before := db.tasks;
    for t := 0 to |db.tasks|
      invariant |db.tasks| == |before|
      invariant forall j :: 0 <= j < |before| ==>
        db.tasks[j] == if j < t then Redelivered(before, node, now)[j] else before[j]
    {
      if Overdue(db.tasks[t], node, now) {
        db.tasks := db.tasks[t := db.tasks[t].(status := TaskPending, dispatchedAt := None)];
      }
    }
    assert db.tasks == Redelivered(before, node, now);
  }

  /** `next_task`. */
  method FetchNextTask(db: Session, node: nat, now: Time) returns (task: Option<nat>)
    modifies db`tasks
    ensures task == NextPending(Redelivered(old(db.tasks), node, now), node)
    ensures db.State() == Dispatched(old(db.State()), node, now)
  {
    RequeueStale(db, node, now);
    var t := 0;
    while t < |db.tasks| && !(db.tasks[t].node == node && db.tasks[t].status == TaskPending)
      invariant t <= |db.tasks|
      invariant forall j :: 0 <= j < t ==> !(db.tasks[j].node == node && db.tasks[j].status == TaskPending)
    {
      t := t + 1;
    }
    NextPendingIs(db.tasks, node, t);
    if t == |db.tasks| { return None; }
    db.tasks := db.tasks[t := db.tasks[t].(status := TaskDispatched, dispatchedAt := Some(now))];
    return Some(t);
  }

  method DockerIdTaken(containers: seq<Container>, c: nat, docker: string) returns (taken: bool)
    requires c < |containers|
    ensures taken == Clashes(containers, c, docker)
  {
    for d := 0 to |containers|
      invariant forall j :: 0 <= j < d ==>
        !(j != c && containers[j].node == containers[c].node && containers[j].docker == docker)
    {
      if d != c && containers[d].node == containers[c].node && containers[d].docker == docker { return true; }
    }
    return false;
  }

  /** `task_result`. */
  method StoreTaskResult(db: Session, node: nat, t: nat, succeeded: bool, docker: Option<string>, now: Time)
    modifies db`tasks, db`containers
    ensures db.State() == ResultStored(old(db.State()), node, t, succeeded, docker, now)
  {
    if t >= |db.tasks| || db.tasks[t].node != node || db.tasks[t].status in {TaskSuccess, TaskFailed} { return; }
    var success, task := succeeded, db.tasks[t];
    if task.action == UpdateImage && success {
      if task.container >= |db.containers| || docker.None? {
        success := false;
      } else {
        var taken := DockerIdTaken(db.containers, task.container, docker.value);
        if taken { return; }
        var c := db.containers[task.container];
        db.containers := db.containers[task.container := c.(docker := docker.value, present := true,
          image := if task.target != "" then task.target else c.image)];
      }
    }
    db.tasks := db.tasks[t := task.(status := if success then TaskSuccess else TaskFailed, finishedAt := Some(now))];
  }

  // ---------------------------------------------------------------- heartbeats

  lemma {:induction false} RowOfIs(containers: seq<Container>, node: nat, docker: string, c: nat)
    requires c <= |containers|
    requires forall j :: 0 <= j < c ==> !(containers[j].node == node && containers[j].docker == docker)
    requires c < |containers| ==> containers[c].node == node && containers[c].docker == docker
    ensures RowOf(containers, node, docker) == if c < |containers| then Some(c) else None
  {
    if containers != [] {
      var front := containers[..|containers| - 1];
      if c < |front| {
        RowOfIs(front, node, docker, c);
      } else {
        RowOfIs(front, node, docker, |front|);
      }
    }
  }

  method FindRow(containers: seq<Container>, node: nat, docker: string) returns (row: Option<nat>)
    ensures row == RowOf(containers, node, docker)
  {
    var c := 0;
    while c < |containers| && !(containers[c].node == node && containers[c].docker == docker)
      invariant c <= |containers|
      invariant forall j :: 0 <= j < c ==> !(containers[j].node == node && containers[j].docker == docker)
    {
      c := c + 1;
    }
    RowOfIs(containers, node, docker, c);
    return if c < |containers| then Some(c) else None;
  }

  /** The container rows of a heartbeat: all absent, then every reported one is present. A
      refused second row rolls everything back; false stands for it. */
  method StoreHeartbeat(db: Session, node: nat, snapshots: seq<Snapshot>, now: Time) returns (stored: bool)
    modifies db`nodes, db`containers
    ensures stored == (node < |old(db.nodes)| && !NewIdTwice(old(db.containers), node, snapshots))
    ensures db.State() == HeartbeatStored(old(db.State()), node, snapshots, now)
  {
    hide NewIdTwice, WithSnapshots, Absent;
    if node >= |db.nodes| { return false; }
    var savedNodes, savedContainers := db.nodes, db.containers;
    db.nodes := db.nodes[node := db.nodes[node].(lastSeen := Some(now))];
    MarkAbsent(db, node);
    AbsenceKeepsIds(savedContainers, node, snapshots);
    var rows := UpsertSnapshots(db.containers, node, snapshots);
    if rows.None? {
      db.nodes, db.containers := savedNodes, savedContainers;
      return false;
    }
    db.containers := rows.value;
    return true;
  }

  /** The rows with every snapshot stored; none once a new docker id comes a second time. */
  method UpsertSnapshots(existing: seq<Container>, node: nat, snapshots: seq<Snapshot>)
    returns (rows: Option<seq<Container>>)
    ensures rows == if NewIdTwice(existing, node, snapshots) then None else Some(WithSnapshots(existing, node, snapshots))
  {
    hide NewIdTwice, Observed;
    var stored := existing;
    assert snapshots[..0] == [];
    NoIdTwice(existing, node);
    for n := 0 to |snapshots|
      invariant stored == WithSnapshots(existing, node, snapshots[..n])
      invariant !NewIdTwice(existing, node, snapshots[..n])
    {
      assert snapshots[..n + 1][..n] == snapshots[..n];
      var row := FindRow(existing, node, snapshots[n].docker);
      var again := ReportedBefore(snapshots, n);
      NextIdTwice(existing, node, snapshots, n);
      if row.Some? {
        stored := stored[row.value := Observed(node, snapshots[n])];
      } else if again {
        return None;
      } else {
        stored := stored + [Observed(node, snapshots[n])];
      }
    }
    assert snapshots[..|snapshots|] == snapshots;
    return Some(stored);
  }

  method ReportedBefore(snapshots: seq<Snapshot>, n: nat) returns (again: bool)
    requires n < |snapshots|
    ensures again <==> exists i :: 0 <= i < n && snapshots[i].docker == snapshots[n].docker
  {
    for i := 0 to n
      invariant forall j :: 0 <= j < i ==> snapshots[j].docker != snapshots[n].docker
    {
      if snapshots[i].docker == snapshots[n].docker { return true; }
    }
    return false;
  }

  lemma NoIdTwice(containers: seq<Container>, node: nat)
    ensures !NewIdTwice(containers, node, [])
  {}

  lemma NextIdTwice(containers: seq<Container>, node: nat, snapshots: seq<Snapshot>, n: nat)
    requires n < |snapshots|
    ensures NewIdTwice(containers, node, snapshots[..n + 1]) <==>
      || NewIdTwice(containers, node, snapshots[..n])
      || (RowOf(containers, node, snapshots[n].docker).None?
          && exists i :: 0 <= i < n && snapshots[i].docker == snapshots[n].docker)
    ensures NewIdTwice(containers, node, snapshots[..n + 1]) ==> NewIdTwice(containers, node, snapshots)
  {
    hide RowOf;
    var more, before := snapshots[..n + 1], snapshots[..n];
    assert forall i :: 0 <= i < n ==> before[i] == more[i] == snapshots[i];
    assert more[n] == snapshots[n];
    assert forall i :: 0 <= i <= n ==> more[i] == snapshots[i];
  }

  lemma AbsenceKeepsIds(containers: seq<Container>, node: nat, snapshots: seq<Snapshot>)
    ensures NewIdTwice(Absent(containers, node), node, snapshots) == NewIdTwice(containers, node, snapshots)
  {
    hide RowOf, Absent;
    forall j | 0 <= j < |snapshots|
      ensures RowOf(Absent(containers, node), node, snapshots[j].docker) == RowOf(containers, node, snapshots[j].docker)
    {
      AbsenceKeepsRow(containers, node, snapshots[j].docker);
    }
  }

  lemma AbsenceKeepsRow(containers: seq<Container>, node: nat, docker: string)
    ensures RowOf(Absent(containers, node), node, docker) == RowOf(containers, node, docker)
  {
    var row := RowOf(containers, node, docker);
    RowOfIs(Absent(containers, node), node, docker, if row.Some? then row.value else |containers|);
  }

  method MarkAbsent(db: Session, node: nat)
    modifies db`containers
    ensures db.State() == old(db.State()).(containers := Absent(old(db.containers), node))
  {
    ghost var before := db.containers;
    for c := 0 to |db.containers|
      invariant |db.containers| == |before|
      invariant forall j :: 0 <= j < |before| ==> db.containers[j] == if j < c then Absent(before, node)[j] else before[j]
    {
      if db.containers[c].node == node {
        db.containers := db.containers[c := db.containers[c].(present := false)];
      }
    }
    assert db.containers == Absent(before, node);
  }

  /** `_bind_labeled_service_instances`, for one label that names one container. */
  method BindLabel(db: Session, name: int, c: nat, now: Time)
    modifies db`instances
    ensures db.State() == Bound(old(db.State()), name, c, now)
  {
    var found := FindInstance(db.instances, name);
    if c >= |db.containers| || (found.Some? && db.instances[found.value].pool != Local) { return; }
    ghost var before := db.instances;
    for i := 0 to |db.instances|
      invariant |db.instances| == |before|
      invariant forall j :: 0 <= j < |before| ==> db.instances[j] == if j < i then Freed(before, c, found)[j] else before[j]
    {
      if db.instances[i].pool == Local && db.instances[i].container == Some(c) && Some(i) != found {
        db.instances := db.instances[i := db.instances[i].(container := None)];
      }
    }
    assert db.instances == Freed(before, c, found);
    if found.Some? {
      db.instances := db.instances[found.value := db.instances[found.value].(container := Some(c))];
    } else {
      db.instances := db.instances + [Instance(
        name, Local, Some(c), 0, 0, false, false, false, true, Serve, false, None, None, now)];
    }
  }
}
