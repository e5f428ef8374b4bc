/** Everybody else who writes the rows a release works on: business reports, operators, the
    agent's task queue and heartbeats (cloudhelm/routers/scaling.py, agent.py, api.py). */
module Actors {
  import opened Wrappers
  import opened ImageReference
  import opened Model
  import opened Releases

  // ---------------------------------------------------------------- business reports

  datatype Report = Report(
    name: int, pool: Pool, container: Option<nat>, active: nat, healthy: bool, ready: bool,
    accepting: bool, endpoint: bool, host: Option<Address>, releaseTag: Option<nat>)

  function IndexOfName(instances: seq<Instance>, name: int): (r: Option<nat>)
    ensures r.Some? ==> r.value < |instances| && instances[r.value].name == name
    ensures r.None? ==> forall i :: 0 <= i < |instances| ==> instances[i].name != name
  {
    if instances == [] then None
    else if IndexOfName(instances[..|instances| - 1], name).Some? then IndexOfName(instances[..|instances| - 1], name)
    else if instances[|instances| - 1].name == name then Some(|instances| - 1)
    else None
  }

  predicate ReportRefused(w: World, r: Report, settings: Settings) {
    var found := IndexOfName(w.instances, r.name);
    || (r.pool != Local && r.container.Some?)
    || (r.pool != Local && r.endpoint && r.host.None?)
    || (r.host.Some? && r.host.value !in settings.networks)
    || (r.container.Some? && r.container.value >= |w.containers|)
    || (r.container.Some? && (found.None? || w.instances[found.value].container != r.container))
    || (found.Some? && w.instances[found.value].pool != r.pool)
  }

  /** The desired state after a report has been stored. */
  function AfterReport(desired: Desired, r: Report): Desired {
    if desired == Draining && !r.accepting && r.active == 0 then Maintenance
    else if desired == Restoring && r.healthy && r.ready && r.accepting then Serve
    else desired
  }

  /** The stored row of a known instance. */
  function AfterReporting(row: Instance, r: Report, now: Time): Instance {
    row.(container := if r.pool != Local then None else row.container,
         active := r.active, healthy := r.healthy, ready := r.ready, accepting := r.accepting,
         endpoint := r.endpoint, host := r.host, releaseTag := r.releaseTag, updatedAt := now,
         desired := AfterReport(row.desired, r))
  }

  function Reported(w: World, r: Report, now: Time, settings: Settings): World {
    var found := IndexOfName(w.instances, r.name);
    if ReportRefused(w, r, settings) then w
    else if found.Some? then
      SetInstance(w, found.value, AfterReporting(w.instances[found.value], r, now))
    else
      w.(instances := w.instances + [Instance(
        r.name, r.pool, None, r.active, 0, r.healthy, r.ready, r.accepting, true, Serve,
        r.endpoint, r.host, r.releaseTag, now)])
  }

  // ---------------------------------------------------------------- operators

  function EnteredMaintenance(w: World, i: nat): World {
    if i >= |w.instances| || w.instances[i].pool != Local || Active(w.service.phase)
      || w.instances[i].desired != Serve
    then w
    else SetDesired(w, i, Draining)
  }

  function ExitedMaintenance(w: World, i: nat): World {
    if i >= |w.instances| || w.instances[i].pool != Local || w.instances[i].desired != Maintenance then w
    else SetDesired(w, i, Restoring)
  }

  function MonitoringSet(w: World, i: nat, monitored: bool): World {
    if i >= |w.instances| then w
    else
      var flagged := w.instances[i].(monitored := monitored);
      SetInstance(w, i, if monitored then flagged else flagged.(desired := Serve))
  }

  function CapacitySet(w: World, i: nat, limit: nat): World {
    if i >= |w.instances| then w else SetInstance(w, i, w.instances[i].(capacityLimit := limit))
  }

  /** Configuration changes are refused during a release. */
  function Configured(w: World, config: Config): World {
    if Active(w.service.phase) || !ValidConfig(config) then w
    else w.(service := w.service.(config := config))
  }

  /** The instance is routed by the gateway (`_discoverable_instance`). */
  predicate Discoverable(w: World, i: nat, now: Time, settings: Settings)
    requires i < |w.instances|
  {
    var instance := w.instances[i];
    var host := EffectiveHost(w, instance);
    && instance.monitored && instance.healthy && instance.ready && instance.accepting
    && instance.desired == Serve && instance.endpoint
    && host.Some? && host.value in settings.networks
    && instance.updatedAt >= now - w.service.config.stale
    && (instance.container.Some? ==>
          && instance.container.value < |w.containers|
          && var c := w.containers[instance.container.value]; c.present && c.running && !c.unhealthy)
  }

  function EffectiveHost(w: World, instance: Instance): Option<Address> {
    if instance.pool == Local && instance.container.Some? && instance.container.value < |w.containers|
      && w.containers[instance.container.value].node < |w.nodes|
      && w.nodes[w.containers[instance.container.value].node].gateway.Some?
    then w.nodes[w.containers[instance.container.value].node].gateway
    else instance.host
  }

  // ---------------------------------------------------------------- starting a release

  predicate Releasable(instance: Instance) {
    instance.pool == Local && instance.monitored && instance.container.Some?
  }

  function LocalInstances(instances: seq<Instance>): (r: seq<nat>)
    ensures forall k :: 0 <= k < |r| ==> r[k] < |instances| && Releasable(instances[r[k]])
    ensures forall j, k :: 0 <= j < k < |r| ==> r[j] < r[k]
    ensures forall i :: 0 <= i < |instances| && Releasable(instances[i]) ==> i in r
  {
    if instances == [] then []
    else
      var front := LocalInstances(instances[..|instances| - 1]);
      if Releasable(instances[|instances| - 1]) then front + [|instances| - 1] else front
  }

  /** One instance may be replaced: healthy, accepting, idle container, same repository. */
  predicate Replaceable(w: World, i: nat, target: string)
    requires i < |w.instances|
  {
    var instance, found := w.instances[i], Resolve(w.containers, w.instances[i].container);
    && instance.desired == Serve && instance.healthy && instance.ready && instance.accepting
    && found.Some?
    && var c := w.containers[found.value];
       c.running && !c.unhealthy && !Busy(w.tasks, found.value)
       && (ValidateTagChange(c.image, target).Success? || SameImage(c.image, target))
  }

  function ImageOf(w: World, i: nat): string
    requires i < |w.instances|
  {
    var found := Resolve(w.containers, w.instances[i].container);
    if found.Some? then w.containers[found.value].image else ""
  }

  ghost predicate Indexes(chosen: seq<nat>, n: nat) {
    forall k :: 0 <= k < |chosen| ==> chosen[k] < n
  }

  ghost predicate NameOrdered(instances: seq<Instance>, chosen: seq<nat>) {
    && Indexes(chosen, |instances|)
    && forall j, k :: 0 <= j < k < |chosen| ==> instances[chosen[j]].name <= instances[chosen[k]].name
  }

  /** Instances in the order of their names. */
  function ByName(instances: seq<Instance>, chosen: seq<nat>): (r: seq<nat>)
    requires Indexes(chosen, |instances|)
    ensures multiset(r) == multiset(chosen) && NameOrdered(instances, r)
  {
    if chosen == [] then []
    else
      assert chosen == chosen[..|chosen| - 1] + [chosen[|chosen| - 1]];
      InsertByName(instances, ByName(instances, chosen[..|chosen| - 1]), chosen[|chosen| - 1])
  }

  /** How many leading entries are named no later than instance `i`. */
  function Place(instances: seq<Instance>, sorted: seq<nat>, i: nat): (p: nat)
    requires i < |instances| && NameOrdered(instances, sorted)
    ensures p <= |sorted|
    ensures forall k :: 0 <= k < p ==> instances[sorted[k]].name <= instances[i].name
    ensures forall k :: p <= k < |sorted| ==> instances[i].name < instances[sorted[k]].name
  {
    if sorted == [] then 0
    else if instances[sorted[|sorted| - 1]].name <= instances[i].name then |sorted|
    else Place(instances, sorted[..|sorted| - 1], i)
  }

  function InsertByName(instances: seq<Instance>, sorted: seq<nat>, i: nat): (r: seq<nat>)
    requires i < |instances| && NameOrdered(instances, sorted)
    ensures multiset(r) == multiset(sorted) + multiset{i} && NameOrdered(instances, r)
  {
    var p := Place(instances, sorted, i);
    InsertedOrdered(instances, sorted, p, i);
    InsertedElements(sorted, p, i);
    Inserted(sorted, p, i)
  }

  function Inserted(sorted: seq<nat>, p: nat, i: nat): (r: seq<nat>)
    requires p <= |sorted|
    ensures |r| == |sorted| + 1
    ensures forall k :: 0 <= k < |r| ==> r[k] == if k < p then sorted[k] else if k == p then i else sorted[k - 1]
  {
    sorted[..p] + [i] + sorted[p..]
  }

  lemma InsertedElements(sorted: seq<nat>, p: nat, i: nat)
    requires p <= |sorted|
    ensures multiset(Inserted(sorted, p, i)) == multiset(sorted) + multiset{i}
  {
    assert sorted == sorted[..p] + sorted[p..];
  }

  lemma InsertedOrdered(instances: seq<Instance>, sorted: seq<nat>, p: nat, i: nat)
    requires i < |instances| && p <= |sorted| && NameOrdered(instances, sorted)
    requires forall k :: 0 <= k < p ==> instances[sorted[k]].name <= instances[i].name
    requires forall k :: p <= k < |sorted| ==> instances[i].name < instances[sorted[k]].name
    ensures NameOrdered(instances, Inserted(sorted, p, i))
  {}

  function BindResolved(w: World, chosen: seq<nat>): (r: World)
    ensures |r.instances| == |w.instances|
    ensures r == w.(instances := r.instances)
    ensures forall i :: 0 <= i < |w.instances| ==> r.instances[i] == w.instances[i].(container := r.instances[i].container)
  {
    if chosen == [] then w
    else
      var rest := BindResolved(w, chosen[..|chosen| - 1]);
      var i := chosen[|chosen| - 1];
      if i < |w.instances| && Resolve(w.containers, w.instances[i].container).Some? then
        Rebound(rest, i, Resolve(w.containers, w.instances[i].container).value)
      else rest
  }

  datatype StartError = AlreadyRunning | BadTarget | NoLocalInstance | NotReplaceable | AllCurrent

  function StartCheck(w: World, raw: string): Result<string, StartError> {
    if Active(w.service.phase) then Failure(AlreadyRunning)
    else if Canonical(raw).None? then Failure(BadTarget)
    else
      var target, chosen := Canonical(raw).value, LocalInstances(w.instances);
      if chosen == [] then Failure(NoLocalInstance)
      else if exists i :: i in chosen && !Replaceable(w, i, target) then Failure(NotReplaceable)
      else if forall i :: i in chosen ==> SameImage(ImageOf(w, i), target) then Failure(AllCurrent)
      else Success(target)
  }

  /** One pending step for each instance, in order. */
  function PlannedSteps(ordered: seq<nat>): (steps: seq<Step>)
    ensures |steps| == |ordered| && forall k :: 0 <= k < |ordered| ==> steps[k] == Step(ordered[k], StepPending, None)
  {
    seq(|ordered|, k requires 0 <= k < |ordered| => Step(ordered[k], StepPending, None))
  }

  /** The release, its steps in order, and the version row of its source. */
  function Opened(w: World, ordered: seq<nat>, source: string, target: string, now: Time): World {
    w.(
      release := Some(Release(w.service.nextRelease, source, target, None, PlannedSteps(ordered))),
      versions := if IndexOfVersion(w.versions, source).Some? then w.versions
                  else w.versions + [Version(source, None, now)],
      service := w.service.(
        previousImage := Some(source), desiredImage := Some(target), phase := PreflightingLocal,
        requestedBy := true, taskId := None, startedAt := Some(now), nextRelease := w.service.nextRelease + 1))
  }

  /** `_start_image_release`: refused requests change nothing. */
  function Started(w: World, raw: string, now: Time): World {
    match StartCheck(w, raw)
    case Failure(_) => w
    case Success(target) =>
      var chosen := LocalInstances(w.instances);
      assert chosen[0] in chosen;
      var source := Text(Canonical(ImageOf(w, chosen[0])));
      Opened(BindResolved(w, chosen), ByName(w.instances, chosen), source, target, now)
  }

  /** `start_image_release` and both rollbacks: refused while the provider is switched off. */
  function ReleaseRequested(w: World, raw: string, now: Time, settings: Settings): World {
    if settings.autoscaling then Started(w, raw, now) else w
  }

  // ---------------------------------------------------------------- agent tasks

  const REDELIVERY: Time := 90

  /** An operator queues an action for a container (`create_action`). */
  function ActionCreated(w: World, c: nat, action: Action, target: string, now: Time, settings: Settings): World {
    if c >= |w.containers| || !w.containers[c].present || action == PrepareImage then w
    else if action == UpdateImage && ValidateTagChange(w.containers[c].image, target).Failure? then w
    else if !NodeOnline(w, w.containers[c].node, now, settings) then w
    else
      var image := if action == UpdateImage then Text(Canonical(target)) else "";
      w.(tasks := w.tasks + [Task(w.containers[c].node, c, action, image, TaskPending, None, None)])
  }

  predicate Overdue(task: Task, node: nat, now: Time) {
    && task.node == node && task.status == TaskDispatched
    && task.dispatchedAt.Some? && task.dispatchedAt.value < now - REDELIVERY
  }

  function Redelivered(tasks: seq<Task>, node: nat, now: Time): (r: seq<Task>)
    ensures |r| == |tasks|
    ensures forall t :: 0 <= t < |tasks| ==>
      r[t] == (if Overdue(tasks[t], node, now) then tasks[t].(status := TaskPending, dispatchedAt := None) else tasks[t])
  {
    seq(|tasks|, t requires 0 <= t < |tasks| =>
      if Overdue(tasks[t], node, now) then tasks[t].(status := TaskPending, dispatchedAt := None) else tasks[t])
  }

  /** The oldest pending task of a node. */
  function NextPending(tasks: seq<Task>, node: nat): (r: Option<nat>)
    ensures r.Some? ==> r.value < |tasks| && tasks[r.value].node == node && tasks[r.value].status == TaskPending
    ensures forall t :: 0 <= t < (if r.Some? then r.value else |tasks|) ==>
      !(tasks[t].node == node && tasks[t].status == TaskPending)
  {
    if tasks == [] then None
    else if NextPending(tasks[..|tasks| - 1], node).Some? then NextPending(tasks[..|tasks| - 1], node)
    else if tasks[|tasks| - 1].node == node && tasks[|tasks| - 1].status == TaskPending then Some(|tasks| - 1)
    else None
  }

  function Dispatched(w: World, node: nat, now: Time): World {
    var requeued := Redelivered(w.tasks, node, now);
    match NextPending(requeued, node)
    case None => w.(tasks := requeued)
    case Some(t) =>
      w.(tasks := requeued[t := requeued[t].(status := TaskDispatched, dispatchedAt := Some(now))])
  }

  /** Another row of the host already has the docker id: the database refuses the change. */
  predicate Clashes(containers: seq<Container>, c: nat, docker: string)
    requires c < |containers|
  {
    exists d :: 0 <= d < |containers| && d != c && containers[d].node == containers[c].node && containers[d].docker == docker
  }

  /** An agent's result: a successful image update overwrites the container row, unless that
      would give two rows the same docker id. */
  function ResultStored(w: World, node: nat, t: nat, success: bool, docker: Option<string>, now: Time): World {
    if t >= |w.tasks| || w.tasks[t].node != node || w.tasks[t].status in {TaskSuccess, TaskFailed} then w
    else
      var task := w.tasks[t];
      var updates := task.action == UpdateImage && success;
      var usable := task.container < |w.containers| && docker.Some?;
      var ok := success && (!updates || usable);
      if updates && usable && Clashes(w.containers, task.container, docker.value) then w
      else
      var containers :=
        if updates && usable then
          var c := w.containers[task.container];
          w.containers[task.container := c.(docker := docker.value, present := true,
            image := if task.target != "" then task.target else c.image)]
        else w.containers;
      w.(containers := containers,
         tasks := w.tasks[t := task.(status := if ok then TaskSuccess else TaskFailed, finishedAt := Some(now))])
  }

  // ---------------------------------------------------------------- heartbeats

  datatype Snapshot = Snapshot(
    docker: string, name: string, image: string, running: bool, unhealthy: bool, project: string, service: string)

  function RowOf(containers: seq<Container>, node: nat, docker: string): (r: Option<nat>)
    ensures r.Some? ==>
      r.value < |containers| && containers[r.value].node == node && containers[r.value].docker == docker
    ensures forall c :: 0 <= c < (if r.Some? then r.value else |containers|) ==>
      !(containers[c].node == node && containers[c].docker == docker)
  {
    if containers == [] then None
    else if RowOf(containers[..|containers| - 1], node, docker).Some? then RowOf(containers[..|containers| - 1], node, docker)
    else if containers[|containers| - 1].node == node && containers[|containers| - 1].docker == docker then
      Some(|containers| - 1)
    else None
  }

  function Absent(containers: seq<Container>, node: nat): (r: seq<Container>)
    ensures |r| == |containers|
    ensures forall i :: 0 <= i < |containers| ==>
      r[i] == containers[i].(present := containers[i].node != node && containers[i].present)
  {
    seq(|containers|, i requires 0 <= i < |containers| =>
      if containers[i].node == node then containers[i].(present := false) else containers[i])
  }

  function Observed(node: nat, s: Snapshot): Container {
    Container(node, s.docker, s.name, s.image, s.running, s.unhealthy, true, s.project, s.service)
  }

  function WithSnapshots(containers: seq<Container>, node: nat, snapshots: seq<Snapshot>): (r: seq<Container>)
    ensures |r| >= |containers|
  {
    if snapshots == [] then containers
    else
      var front := WithSnapshots(containers, node, snapshots[..|snapshots| - 1]);
      var last := snapshots[|snapshots| - 1];
      match RowOf(containers, node, last.docker)
      case Some(c) => front[c := Observed(node, last)]
      case None => front + [Observed(node, last)]
  }

  /** The last word of the heartbeat on its docker id. */
  ghost predicate LastWord(snapshots: seq<Snapshot>, i: nat) {
    i < |snapshots| && forall j :: i < j < |snapshots| ==> snapshots[j].docker != snapshots[i].docker
  }

  ghost predicate ShowsOne(row: Container, node: nat, snapshots: seq<Snapshot>) {
    exists i :: 0 <= i < |snapshots| && row == Observed(node, snapshots[i])
  }

  /** A heartbeat decides what is present on its host and touches no other one: rows of other
      hosts stay, unreported rows of the host are absent, every reported docker id has a row
      that shows what was said last of it. */
  lemma {:induction false} HeartbeatShowsHost(containers: seq<Container>, node: nat, snapshots: seq<Snapshot>)
    ensures var after := WithSnapshots(containers, node, snapshots);
      && (forall i :: 0 <= i < |containers| && containers[i].node != node ==> after[i] == containers[i])
      && (forall i :: 0 <= i < |containers| && (forall s :: s in snapshots ==> s.docker != containers[i].docker) ==>
            after[i] == containers[i])
      && (forall i :: 0 <= i < |snapshots| && LastWord(snapshots, i) ==> Observed(node, snapshots[i]) in after)
      && (forall i :: |containers| <= i < |after| ==> ShowsOne(after[i], node, snapshots))
  {
    hide WithSnapshots;
    UnreportedStay(containers, node, snapshots);
    forall i | |containers| <= i < |WithSnapshots(containers, node, snapshots)|
      ensures ShowsOne(WithSnapshots(containers, node, snapshots)[i], node, snapshots)
    {
      NewRowIsReported(containers, node, snapshots, i);
    }
    forall i | 0 <= i < |snapshots| && LastWord(snapshots, i)
      ensures Observed(node, snapshots[i]) in WithSnapshots(containers, node, snapshots)
    {
      LastWordIsShown(containers, node, snapshots, i);
    }
  }

  lemma {:induction false} UnreportedStay(containers: seq<Container>, node: nat, snapshots: seq<Snapshot>)
    ensures var after := WithSnapshots(containers, node, snapshots);
      && (forall i :: 0 <= i < |containers| && containers[i].node != node ==> after[i] == containers[i])
      && (forall i :: 0 <= i < |containers| && (forall s :: s in snapshots ==> s.docker != containers[i].docker) ==>
            after[i] == containers[i])
  {
    if snapshots != [] {
      UnreportedStay(containers, node, snapshots[..|snapshots| - 1]);
      assert snapshots[|snapshots| - 1] in snapshots;
    }
  }

  lemma {:induction false} NewRowIsReported(containers: seq<Container>, node: nat, snapshots: seq<Snapshot>, i: nat)
    requires |containers| <= i < |WithSnapshots(containers, node, snapshots)|
    ensures ShowsOne(WithSnapshots(containers, node, snapshots)[i], node, snapshots)
  {
    var front := snapshots[..|snapshots| - 1];
    var before, after := WithSnapshots(containers, node, front), WithSnapshots(containers, node, snapshots);
    if i < |before| {
      NewRowIsReported(containers, node, front, i);
      assert after[i] == before[i];
      var j :| 0 <= j < |front| && before[i] == Observed(node, front[j]);
      assert front[j] == snapshots[j];
    } else {
      assert after[i] == Observed(node, snapshots[|snapshots| - 1]);
    }
  }

  lemma {:induction false} LastWordIsShown(containers: seq<Container>, node: nat, snapshots: seq<Snapshot>, n: nat)
    requires LastWord(snapshots, n)
    ensures Observed(node, snapshots[n]) in WithSnapshots(containers, node, snapshots)
  {
    hide WithSnapshots, Observed;
    var front := snapshots[..|snapshots| - 1];
    if n == |front| {
      LastIsShown(containers, node, snapshots);
    } else {
      var before, after := WithSnapshots(containers, node, front), WithSnapshots(containers, node, snapshots);
      assert LastWord(front, n);
      LastWordIsShown(containers, node, front, n);
      var i :| 0 <= i < |before| && before[i] == Observed(node, snapshots[n]);
      EarlierStaysShown(containers, node, snapshots, i, snapshots[n]);
    }
  }

  lemma LastIsShown(containers: seq<Container>, node: nat, snapshots: seq<Snapshot>)
    requires snapshots != []
    ensures Observed(node, snapshots[|snapshots| - 1]) in WithSnapshots(containers, node, snapshots)
  {
    var front, last := snapshots[..|snapshots| - 1], snapshots[|snapshots| - 1];
    var before, after := WithSnapshots(containers, node, front), WithSnapshots(containers, node, snapshots);
    var row := RowOf(containers, node, last.docker);
    assert after[if row.Some? then row.value else |before|] == Observed(node, last);
  }

  lemma EarlierStaysShown(containers: seq<Container>, node: nat, snapshots: seq<Snapshot>, i: nat, s: Snapshot)
    requires snapshots != [] && s.docker != snapshots[|snapshots| - 1].docker
    requires var before := WithSnapshots(containers, node, snapshots[..|snapshots| - 1]);
      i < |before| && before[i] == Observed(node, s)
    ensures i < |WithSnapshots(containers, node, snapshots)|
    ensures WithSnapshots(containers, node, snapshots)[i] == Observed(node, s)
  {
    RowsKeepDocker(containers, node, snapshots[..|snapshots| - 1]);
  }

  /** Overwriting a row keeps its host and docker id. */
  lemma {:induction false} RowsKeepDocker(containers: seq<Container>, node: nat, snapshots: seq<Snapshot>)
    ensures var after := WithSnapshots(containers, node, snapshots);
      forall i :: 0 <= i < |containers| ==> after[i].node == containers[i].node && after[i].docker == containers[i].docker
  {
    if snapshots != [] { RowsKeepDocker(containers, node, snapshots[..|snapshots| - 1]); }
  }

  /** A docker id without a row is reported twice: the database refuses the second row. */
  predicate NewIdTwice(containers: seq<Container>, node: nat, snapshots: seq<Snapshot>) {
    exists j :: 0 <= j < |snapshots| && RowOf(containers, node, snapshots[j].docker).None?
      && exists i :: 0 <= i < j && snapshots[i].docker == snapshots[j].docker
  }

  function HeartbeatStored(w: World, node: nat, snapshots: seq<Snapshot>, now: Time): World {
    if node >= |w.nodes| || NewIdTwice(w.containers, node, snapshots) then w
    else
      w.(nodes := w.nodes[node := w.nodes[node].(lastSeen := Some(now))],
         containers := WithSnapshots(Absent(w.containers, node), node, snapshots))
  }

  /** No other local instance keeps the container. */
  function Freed(instances: seq<Instance>, c: nat, found: Option<nat>): (r: seq<Instance>)
    ensures |r| == |instances|
    ensures forall i :: 0 <= i < |instances| ==> r[i] == instances[i].(container := r[i].container)
    ensures forall i :: 0 <= i < |r| && r[i].pool == Local && r[i].container == Some(c) ==> Some(i) == found
  {
    seq(|instances|, i requires 0 <= i < |instances| =>
      if instances[i].pool == Local && instances[i].container == Some(c) && Some(i) != found
      then instances[i].(container := None) else instances[i])
  }

  /** A container label binds exactly one local instance; an unknown name is registered. */
  function Bound(w: World, name: int, c: nat, now: Time): World {
    var found := IndexOfName(w.instances, name);
    if c >= |w.containers| || (found.Some? && w.instances[found.value].pool != Local) then w
    else
      var freed := Freed(w.instances, c, found);
      match found
      case Some(i) => w.(instances := freed[i := freed[i].(container := Some(c))])
      case None =>
        w.(instances := freed + [Instance(
          name, Local, Some(c), 0, 0, false, false, false, true, Serve, false, None, None, now)])
  }
}
