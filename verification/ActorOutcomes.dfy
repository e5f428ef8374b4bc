/** What reports, operators, agents and heartbeats do to the rows, exactly
    (cloudhelm/routers/scaling.py, agent.py, api.py). */
module ActorOutcomes {
  import opened Wrappers
  import opened ImageReference
  import opened Model
  import opened Releases
  import opened Actors
  import opened Autoscaling
  import opened ReleaseInvariant
  import opened Runs
  import opened ScalingTriggers
  import opened ReleaseRuns
  import opened ScaleRuns

  // ---------------------------------------------------------------- business reports

  /** Row `i` is the one with this name. */
  ghost predicate IsNamed(instances: seq<Instance>, i: nat, name: int) {
    i < |instances| && instances[i].name == name && forall j :: 0 <= j < i ==> instances[j].name != name
  }

  lemma {:induction false} NamedExactly(instances: seq<Instance>, i: nat, name: int)
    ensures IndexOfName(instances, name) == Some(i) <==> IsNamed(instances, i, name)
  {
    if instances != [] {
      var front := instances[..|instances| - 1];
      NamedExactly(front, i, name);
      if IndexOfName(front, name).Some? { NamedExactly(front, IndexOfName(front, name).value, name); }
    }
  }

  ghost predicate Known(w: World, name: int) {
    exists i :: 0 <= i < |w.instances| && w.instances[i].name == name
  }

  /** A report is accepted exactly if it names no container but the one its row is bound to,
      and that one exists; comes from the pool its row is in; and gives, if any, an address
      inside the gateway's networks, which a pod with an endpoint must give. Pods name no
      container. */
  lemma AcceptedExactly(w: World, r: Report, settings: Settings)
    ensures !ReportRefused(w, r, settings) <==>
      && (forall i: nat :: IsNamed(w.instances, i, r.name) ==> w.instances[i].pool == r.pool)
      && (r.container.Some? ==>
            && r.pool == Pool.Local && r.container.value < |w.containers|
            && exists i: nat :: IsNamed(w.instances, i, r.name) && w.instances[i].container == r.container)
      && (r.host.Some? ==> r.host.value in settings.networks)
      && (r.pool != Pool.Local && r.endpoint ==> r.host.Some?)
  {
    hide IndexOfName;
    forall i: nat ensures IndexOfName(w.instances, r.name) == Some(i) <==> IsNamed(w.instances, i, r.name) {
      NamedExactly(w.instances, i, r.name);
    }
    hide IsNamed;
  }

  /** An accepted report rewrites the row of its name, or registers it: what it says is there,
      with its time; the binding of a local row and its limit, its monitoring and its pool
      stay. A draining instance that takes no work and has none is in maintenance, a restoring
      one that is healthy, ready and accepting serves; nobody else's row changes. */
  lemma ReportStores(w: World, r: Report, now: Time, settings: Settings)
    requires !ReportRefused(w, r, settings)
    ensures var after := Reported(w, r, now, settings);
      && after == w.(instances := after.instances)
      && (Known(w, r.name) ==> |after.instances| == |w.instances|)
      && (!Known(w, r.name) ==> |after.instances| == |w.instances| + 1 && after.instances[|w.instances|].name == r.name)
      && forall i :: 0 <= i < |after.instances| ==>
           var x := after.instances[i];
           if i < |w.instances| && !IsNamed(w.instances, i, r.name) then x == w.instances[i]
           else
             && x.active == r.active && x.healthy == r.healthy && x.ready == r.ready && x.accepting == r.accepting
             && x.endpoint == r.endpoint && x.host == r.host && x.releaseTag == r.releaseTag && x.updatedAt == now
             && x.pool == r.pool && x.name == r.name
             && if i < |w.instances| then
                  var y := w.instances[i];
                  && x.capacityLimit == y.capacityLimit && x.monitored == y.monitored
                  && x.container == (if x.pool == Pool.Local then y.container else None)
                  && x.desired ==
                       if y.desired == Draining && !r.accepting && r.active == 0 then Maintenance
                       else if y.desired == Restoring && r.healthy && r.ready && r.accepting then Serve
                       else y.desired
                else x.container.None? && x.capacityLimit == 0 && x.monitored && x.desired == Serve
  {
    hide IndexOfName;
    forall i: nat ensures IndexOfName(w.instances, r.name) == Some(i) <==> IsNamed(w.instances, i, r.name) {
      NamedExactly(w.instances, i, r.name);
    }
  }

  // ---------------------------------------------------------------- desired states

  /** What a step of anybody but the release and the autoscaler makes of an instance's desired
      state. */
  ghost function DesiredAfter(w: World, i: nat, m: Moment, settings: Settings): Desired
    requires i < |w.instances|
  {
    var x := w.instances[i];
    match m.event
    case Reports(r) =>
      if ReportRefused(w, r, settings) || !IsNamed(w.instances, i, r.name) then x.desired
      else if x.desired == Draining && !r.accepting && r.active == 0 then Maintenance
      else if x.desired == Restoring && r.healthy && r.ready && r.accepting then Serve
      else x.desired
    case Enter(j) =>
      if j == i && x.pool == Pool.Local && x.desired == Serve && !Active(w.service.phase) then Draining else x.desired
    case Exit(j) => if j == i && x.pool == Pool.Local && x.desired == Maintenance then Restoring else x.desired
    case Monitor(j, monitored) => if j == i && !monitored then Serve else x.desired
    case _ => x.desired
  }

  lemma DesiredExactly(w: World, i: nat, m: Moment, settings: Settings)
    requires ValidConfig(w.service.config) && i < |w.instances|
    requires !m.event.ReleaseTick? && !m.event.ScaleTick? && !m.event.StartRelease?
    ensures i < |Effect(w, m, settings).instances|
    ensures Effect(w, m, settings).instances[i].desired == DesiredAfter(w, i, m, settings)
  {
    hide ReportRefused, IndexOfName, IsNamed, Reported, Bound, ActionCreated, HeartbeatStored, Dispatched, ResultStored, Window;
    match m.event
    case Reports(r) => ReportDesires(w, i, r, m.now, settings);
    case Label(name, c) => LabelDesires(w, i, name, c, m.now);
    case _ => RowsUntouched(w, m, settings);
  }

  lemma ReportDesires(w: World, i: nat, r: Report, now: Time, settings: Settings)
    requires i < |w.instances|
    ensures i < |Reported(w, r, now, settings).instances|
    ensures Reported(w, r, now, settings).instances[i].desired ==
      if ReportRefused(w, r, settings) || !IsNamed(w.instances, i, r.name) then w.instances[i].desired
      else if w.instances[i].desired == Draining && !r.accepting && r.active == 0 then Maintenance
      else if w.instances[i].desired == Restoring && r.healthy && r.ready && r.accepting then Serve
      else w.instances[i].desired
  {
    hide ReportRefused, IsNamed;
    NamedExactly(w.instances, i, r.name);
  }

  lemma LabelDesires(w: World, i: nat, name: int, c: nat, now: Time)
    requires i < |w.instances|
    ensures i < |Bound(w, name, c, now).instances| && Bound(w, name, c, now).instances[i].desired == w.instances[i].desired
  {
    hide IndexOfName;
  }

  /** In every run, an instance comes into maintenance exactly by an accepted report of its own
      that it takes no work and has none, while it was asked to drain. */
  lemma MaintenanceExactly(t: Trace, n: nat, i: nat)
    requires Execution(t) && n < |t.run| && i < |t.states[n].instances|
    ensures i < |t.states[n + 1].instances|
    ensures var before, m := t.states[n], t.run[n];
      t.states[n + 1].instances[i].desired == Maintenance && before.instances[i].desired != Maintenance <==>
        && m.event.Reports? && !ReportRefused(before, m.event.report, t.settings)
        && IsNamed(before.instances, i, m.event.report.name) && before.instances[i].desired == Draining
        && !m.event.report.accepting && m.event.report.active == 0
  {
    hide Execution, Inv, Effect, ReportRefused, IsNamed, ValidConfig;
    StepOf(t, n);
    var s, m := t.states[n], t.run[n];
    InvIsConfigured(s);
    if m.event.ReleaseTick? || m.event.ScaleTick? || m.event.StartRelease? {
      TicksDoNotMaintain(s, m, t.settings, i);
    } else {
      DesiredExactly(s, i, m, t.settings);
    }
  }

  lemma TicksDoNotMaintain(s: World, m: Moment, settings: Settings, i: nat)
    requires ValidConfig(s.service.config) && i < |s.instances|
    requires m.event.ReleaseTick? || m.event.ScaleTick? || m.event.StartRelease?
    ensures i < |Effect(s, m, settings).instances|
    ensures Effect(s, m, settings).instances[i].desired == Maintenance ==> s.instances[i].desired == Maintenance
  {
    hide Tick, Evaluated, Started, Oversized, Lightest, FirstEmptied, SomeEmptied;
    match m.event
    case ReleaseTick(p) => TickRows(s, m.now, settings, p);
    case ScaleTick(p) => InstancesExactly(s, m.now, settings, p, i);
    case StartRelease(image) => StartedRows(s, image, m.now);
    case _ =>
  }

  lemma InvIsConfigured(w: World)
    requires Inv(w)
    ensures ValidConfig(w.service.config)
  {}

  /** Only operators' fields of instances have changed. */
  ghost predicate OnlyOperated(w: World, after: World, i: nat)
    requires i < |w.instances|
  {
    && after == w.(instances := after.instances) && |after.instances| == |w.instances|
    && after.instances[i] == w.instances[i].(desired := after.instances[i].desired,
         monitored := after.instances[i].monitored, capacityLimit := after.instances[i].capacityLimit)
  }

  /** Monitoring and limits are set on the named row alone, the configuration only while no
      release is active and if it is valid; beyond them, operators change nothing but desired
      states, as above. */
  lemma OperatorsExactly(w: World, i: nat, j: nat, monitored: bool, limit: nat, config: Config)
    requires i < |w.instances|
    ensures OnlyOperated(w, EnteredMaintenance(w, j), i) && OnlyOperated(w, ExitedMaintenance(w, j), i)
    ensures OnlyOperated(w, MonitoringSet(w, j, monitored), i) && OnlyOperated(w, CapacitySet(w, j, limit), i)
    ensures MonitoringSet(w, j, monitored).instances[i].monitored == if j == i then monitored else w.instances[i].monitored
    ensures CapacitySet(w, j, limit).instances[i].capacityLimit == if j == i then limit else w.instances[i].capacityLimit
    ensures Configured(w, config) == w.(service := w.service.(
      config := if Active(w.service.phase) || !ValidConfig(config) then w.service.config else config))
  {
    hide ValidConfig;
  }

  // ---------------------------------------------------------------- the task queue

  /** The task waits for an agent of the node, or has been with one for more than 90 s. */
  ghost predicate Waiting(task: Task, node: nat, now: Time) {
    && task.node == node
    && (|| task.status == TaskPending
        || (task.status == TaskDispatched && task.dispatchedAt.Some? && now - task.dispatchedAt.value > 90))
  }

  /** It is the first that waits. */
  ghost predicate IsNext(tasks: seq<Task>, t: nat, node: nat, now: Time) {
    t < |tasks| && Waiting(tasks[t], node, now) && forall j :: 0 <= j < t ==> !Waiting(tasks[j], node, now)
  }

  lemma {:induction false} NextIs(tasks: seq<Task>, node: nat, now: Time, t: nat)
    requires t < |tasks|
    ensures NextPending(Redelivered(tasks, node, now), node) == Some(t) <==> IsNext(tasks, t, node, now)
  {
    hide NextPending;
    var requeued := Redelivered(tasks, node, now);
    assert forall j :: 0 <= j < |tasks| ==>
      (Waiting(tasks[j], node, now) <==> requeued[j].node == node && requeued[j].status == TaskPending);
  }

  /** A request of an agent dispatches the first task that waits, and lets the others that were
      overdue wait again; nothing else changes. */
  lemma FetchedExactly(w: World, node: nat, now: Time)
    ensures var after := Dispatched(w, node, now);
      && after == w.(tasks := after.tasks) && |after.tasks| == |w.tasks|
      && forall t: nat :: t < |w.tasks| ==>
           after.tasks[t] ==
             if IsNext(w.tasks, t, node, now) then w.tasks[t].(status := TaskDispatched, dispatchedAt := Some(now))
             else if Waiting(w.tasks[t], node, now) && w.tasks[t].status == TaskDispatched then
               w.tasks[t].(status := TaskPending, dispatchedAt := None)
             else w.tasks[t]
  {
    hide NextPending, IsNext;
    forall t: nat | t < |w.tasks|
      ensures NextPending(Redelivered(w.tasks, node, now), node) == Some(t) <==> IsNext(w.tasks, t, node, now)
    {
      NextIs(w.tasks, node, now, t);
    }
  }

  /** Another row of the same host has the id. */
  ghost predicate IdTaken(containers: seq<Container>, c: nat, docker: string)
    requires c < |containers|
  {
    exists d :: 0 <= d < |containers| && d != c && containers[d].node == containers[c].node && containers[d].docker == docker
  }

  /** A result counts once, and only from the task's own node. An update that reports success
      with the new id gives its container row that id and the target's image, and makes it
      present, unless the id is taken, which undoes the request; without an id, or without the
      row, it has failed. Any other result only finishes its task. */
  lemma ResultExactly(w: World, node: nat, t: nat, success: bool, docker: Option<string>, now: Time)
    ensures var after := ResultStored(w, node, t, success, docker, now);
      if t >= |w.tasks| || w.tasks[t].node != node || w.tasks[t].status == TaskSuccess || w.tasks[t].status == TaskFailed then
        after == w
      else
        var task := w.tasks[t];
        var renews := success && task.action == UpdateImage && task.container < |w.containers| && docker.Some?;
        if renews && IdTaken(w.containers, task.container, docker.value) then after == w
        else
          var done := task.(finishedAt := Some(now),
            status := if success && (task.action == UpdateImage ==> renews) then TaskSuccess else TaskFailed);
          && after == w.(tasks := w.tasks[t := done], containers := after.containers)
          && |after.containers| == |w.containers|
          && (forall c :: 0 <= c < |w.containers| && !(renews && c == task.container) ==> after.containers[c] == w.containers[c])
          && (renews ==>
                after.containers[task.container] == w.containers[task.container].(docker := docker.value, present := true,
                  image := if |task.target| > 0 then task.target else w.containers[task.container].image))
  {}

  /** An operator's action is queued exactly if the container is present on a node seen lately;
      preparing an image is not for operators, and updating one needs another tag of the same
      repository. The new task waits, and nothing else changes. */
  lemma ActionExactly(w: World, c: nat, action: Action, target: string, now: Time, settings: Settings)
    ensures var after := ActionCreated(w, c, action, target, now, settings);
      if && c < |w.containers| && w.containers[c].present && action != PrepareImage
         && w.containers[c].node < |w.nodes| && w.nodes[w.containers[c].node].lastSeen.Some?
         && now <= w.nodes[w.containers[c].node].lastSeen.value + settings.nodeOffline
         && (action == UpdateImage ==>
               && Canonical(w.containers[c].image).Some? && Canonical(target).Some?
               && RepositoryOf(w.containers[c].image) == RepositoryOf(target)
               && Canonical(w.containers[c].image) != Canonical(target))
      then after == w.(tasks := w.tasks + [Task(w.containers[c].node, c, action,
             if action == UpdateImage then Text(Canonical(target)) else "", TaskPending, None, None)])
      else after == w
  {
    hide Canonical, RepositoryOf, ValidateTagChange;
    if c < |w.containers| { TagChangeExactly(w.containers[c].image, target); }
  }

  // ---------------------------------------------------------------- heartbeats

  ghost predicate HasRow(containers: seq<Container>, node: nat, docker: string) {
    exists c :: 0 <= c < |containers| && containers[c].node == node && containers[c].docker == docker
  }

  ghost predicate Named(snapshots: seq<Snapshot>, docker: string) {
    exists s :: s in snapshots && s.docker == docker
  }

  /** A heartbeat counts exactly if its node is known and it names no new container twice. It
      is noted on the node; of the node's rows exactly the reported ones are present, and show
      what was said last of them; other hosts' rows stay. */
  lemma HeartbeatExactly(w: World, node: nat, snapshots: seq<Snapshot>, now: Time)
    ensures var after := HeartbeatStored(w, node, snapshots, now);
      if && node < |w.nodes|
         && forall i, j :: 0 <= i < j < |snapshots| && snapshots[i].docker == snapshots[j].docker ==>
              HasRow(w.containers, node, snapshots[j].docker)
      then
        && after == w.(nodes := w.nodes[node := w.nodes[node].(lastSeen := Some(now))], containers := after.containers)
        && |after.containers| >= |w.containers|
        && (forall c :: 0 <= c < |w.containers| && w.containers[c].node != node ==> after.containers[c] == w.containers[c])
        && (forall c :: 0 <= c < |w.containers| && w.containers[c].node == node && !Named(snapshots, w.containers[c].docker) ==>
              after.containers[c] == w.containers[c].(present := false))
        && (forall i :: 0 <= i < |snapshots| && LastWord(snapshots, i) ==>
              var s := snapshots[i];
              Container(node, s.docker, s.name, s.image, s.running, s.unhealthy, true, s.project, s.service) in after.containers)
        && (forall c :: |w.containers| <= c < |after.containers| ==> ShowsOne(after.containers[c], node, snapshots))
      else after == w
  {
    hide WithSnapshots, RowOf, ShowsOne;
    var absent := Absent(w.containers, node);
    HeartbeatShowsHost(absent, node, snapshots);
    forall c | |w.containers| <= c < |WithSnapshots(absent, node, snapshots)|
      ensures ShowsOne(WithSnapshots(absent, node, snapshots)[c], node, snapshots)
    {}
    if node < |w.nodes| { TwiceExactly(w.containers, node, snapshots); }
  }

  lemma TwiceExactly(containers: seq<Container>, node: nat, snapshots: seq<Snapshot>)
    ensures NewIdTwice(containers, node, snapshots) <==>
      exists i, j :: 0 <= i < j < |snapshots| && snapshots[i].docker == snapshots[j].docker
        && !HasRow(containers, node, snapshots[j].docker)
  {
    hide RowOf;
    forall j | 0 <= j < |snapshots|
      ensures RowOf(containers, node, snapshots[j].docker).None? <==> !HasRow(containers, node, snapshots[j].docker)
    {}
  }

  /** A label binds the local instance of its name, known or new, to the container, exactly if
      there is one and no pod has the name; every other local instance lets go of it. */
  lemma LabelExactly(w: World, name: int, c: nat, now: Time)
    ensures var after := Bound(w, name, c, now);
      if c < |w.containers| && forall i: nat :: IsNamed(w.instances, i, name) ==> w.instances[i].pool == Pool.Local then
        && after == w.(instances := after.instances) && |after.instances| >= |w.instances|
        && (Known(w, name) ==> |after.instances| == |w.instances|)
        && (forall i :: 0 <= i < |w.instances| ==>
              after.instances[i] == w.instances[i].(container :=
                if IsNamed(w.instances, i, name) then Some(c)
                else if w.instances[i].pool == Pool.Local && w.instances[i].container == Some(c) then None
                else w.instances[i].container))
        && (!Known(w, name) ==>
              && |after.instances| == |w.instances| + 1
              && after.instances[|w.instances|] == Instance(name, Pool.Local, Some(c), 0, 0, false, false, false, true, Serve,
                   false, None, None, now))
      else after == w
  {
    hide IndexOfName;
    forall i: nat ensures IndexOfName(w.instances, name) == Some(i) <==> IsNamed(w.instances, i, name) {
      NamedExactly(w.instances, i, name);
    }
    hide IsNamed;
  }

  // ---------------------------------------------------------------- routing

  /** The gateway routes to a local or elastic instance exactly if the autoscaler counts it as
      working, nobody asked it to leave, and it has an endpoint at an address inside the
      gateway's networks. */
  lemma RoutedExactly(w: World, i: nat, now: Time, settings: Settings)
    requires i < |w.instances| && w.instances[i].pool != AcsRelease
    ensures var x := w.instances[i];
      Discoverable(w, i, now, settings) <==>
        && Working(w, x, now) && x.desired == Serve && x.endpoint
        && EffectiveHost(w, x).Some? && EffectiveHost(w, x).value in settings.networks
  {
    hide EffectiveHost;
  }

  /** Its address is the gateway of its container's node, if it is local and there is one, and
      otherwise the one it reported. */
  lemma AddressExactly(w: World, x: Instance, node: nat)
    requires x.container.Some? ==> x.container.value < |w.containers| && w.containers[x.container.value].node == node
    requires x.container.Some? ==> node < |w.nodes|
    ensures EffectiveHost(w, x) ==
      if x.pool == Pool.Local && x.container.Some? && w.nodes[node].gateway != None then w.nodes[node].gateway else x.host
  {}
}
