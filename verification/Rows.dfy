/** The rows as the program holds them: one field for the service row, one for its active
    release, one for each table, all assigned in place. */
module Rows {
  import opened Wrappers
  import opened Model

  class Session {
    var service: Service
    var release: Option<Release>
    var instances: seq<Instance>
    var containers: seq<Container>
    var nodes: seq<Node>
    var tasks: seq<Task>
    var versions: seq<Version>
    var samples: seq<Sample>
    var cloud: Cloud

    /** The state all specifications speak of. */
    function State(): World
      reads this
    {
      World(service, release, instances, containers, nodes, tasks, versions, samples, cloud)
    }

    constructor (w: World)
      ensures State() == w
    {
      service, release := w.service, w.release;
      instances, containers, nodes, tasks := w.instances, w.containers, w.nodes, w.tasks;
      versions, samples, cloud := w.versions, w.samples, w.cloud;
    }

    method SetStep(k: nat, step: Step)
      requires release.Some? && k < |release.value.steps|
      modifies this`release
      ensures State() == Model.SetStep(old(State()), k, step)
    {
      release := Some(release.value.(steps := release.value.steps[k := step]));
    }

    method SetDesired(i: nat, desired: Desired)
      requires i < |instances|
      modifies this`instances
      ensures State() == Model.SetDesired(old(State()), i, desired)
    {
      instances := instances[i := instances[i].(desired := desired)];
    }

    method SetPhase(phase: Phase)
      modifies this`service
      ensures State() == Model.SetPhase(old(State()), phase)
    {
      service := service.(phase := phase);
    }
  }
}
