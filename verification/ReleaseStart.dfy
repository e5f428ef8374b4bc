/** Exactly when a request opens a release, what refuses it, and what it opens
    (cloudhelm/routers/scaling.py). */
module ReleaseStart {
  import opened Wrappers
  import opened ImageReference
  import opened Model
  import opened Releases
  import opened Actors
  import opened Runs

  // ---------------------------------------------------------------- the instances of a request

  /** A present row that could be the same container, recreated. */
  ghost predicate LooksLike(c: Container, like: Container) {
    && c.node == like.node && c.present
    && if like.project != "" && like.service != "" then c.project == like.project && c.service == like.service
       else c.name == like.name
  }

  /** Row `c` is the container of the instance: the one bound to it, or, if that is gone, the
      only one that looks like it. */
  ghost predicate IsContainerOf(containers: seq<Container>, bound: Option<nat>, c: nat) {
    && bound.Some? && bound.value < |containers| && c < |containers|
    && if containers[bound.value].present then c == bound.value
       else forall d :: 0 <= d < |containers| ==> (LooksLike(containers[d], containers[bound.value]) <==> d == c)
  }

  lemma OneCandidate(containers: seq<Container>, like: Container, c: nat)
    ensures Candidates(containers, like) == [c] <==>
      c < |containers| && forall d :: 0 <= d < |containers| ==> (LooksLike(containers[d], like) <==> d == c)
  {
    hide Candidates;
    var found := Candidates(containers, like);
    forall d | 0 <= d < |containers| ensures LooksLike(containers[d], like) <==> d in found {
      assert Recreates(containers[d], like) <==> LooksLike(containers[d], like);
    }
    hide LooksLike;
    if c < |containers| && forall d :: 0 <= d < |containers| ==> (LooksLike(containers[d], like) <==> d == c) {
      assert c in found && forall k :: 0 <= k < |found| ==> found[k] == c;
      assert found[0] == c && found[|found| - 1] == c;
    }
  }

  /** The search for a container finds exactly that row, if there is one. */
  lemma ResolvesExactly(containers: seq<Container>, bound: Option<nat>, c: nat)
    ensures Resolve(containers, bound) == Some(c) <==> IsContainerOf(containers, bound, c)
  {
    hide Candidates, LooksLike;
    if bound.Some? && bound.value < |containers| { OneCandidate(containers, containers[bound.value], c); }
  }

  /** A watched local instance with a container. */
  ghost predicate TakesPart(x: Instance) {
    x.pool == Local && x.monitored && x.container.Some?
  }

  /** It serves and is healthy, ready and accepting. */
  ghost predicate InService(x: Instance) {
    x.desired == Serve && x.healthy && x.ready && x.accepting
  }

  ghost predicate SameRepository(a: string, b: string) {
    RepositoryOf(a).Some? && RepositoryOf(a) == RepositoryOf(b)
  }

  /** Its container runs, is not ill and waits for no task, and its image lies in the target's
      repository. */
  ghost predicate CanBeReplaced(w: World, x: Instance, target: string) {
    exists c: nat :: IsContainerOf(w.containers, x.container, c)
      && w.containers[c].running && !w.containers[c].unhealthy
      && (forall t :: 0 <= t < |w.tasks| && w.tasks[t].container == c ==> w.tasks[t].status !in {TaskPending, TaskDispatched})
      && SameRepository(w.containers[c].image, target)
  }

  /** Its container runs another image than the target. */
  ghost predicate RunsOther(w: World, x: Instance, target: string) {
    exists c: nat :: IsContainerOf(w.containers, x.container, c) && !SameImage(w.containers[c].image, target)
  }

  ghost predicate SomeTakesPart(w: World) {
    exists i :: 0 <= i < |w.instances| && TakesPart(w.instances[i])
  }

  ghost predicate AllReplaceable(w: World, target: string) {
    forall i :: 0 <= i < |w.instances| && TakesPart(w.instances[i]) ==>
      InService(w.instances[i]) && CanBeReplaced(w, w.instances[i], target)
  }

  ghost predicate SomeRunsOther(w: World, target: string) {
    exists i :: 0 <= i < |w.instances| && TakesPart(w.instances[i]) && RunsOther(w, w.instances[i], target)
  }

  /** Changing the tag, or keeping the image, is staying in the repository. */
  lemma StaysInRepository(current: string, target: string)
    ensures ValidateTagChange(current, target).Success? || SameImage(current, target) <==> SameRepository(current, target)
  {
    TagChangeExactly(current, target);
    if Canonical(current).Some? && Canonical(target).Some? { CanonicalTextInjective(current, target); }
  }

  lemma ReplaceableExactly(w: World, i: nat, target: string)
    requires i < |w.instances|
    ensures Replaceable(w, i, target) <==> InService(w.instances[i]) && CanBeReplaced(w, w.instances[i], target)
    ensures Replaceable(w, i, target) ==> (!SameImage(ImageOf(w, i), target) <==> RunsOther(w, w.instances[i], target))
  {
    hide ValidateTagChange, SameImage, SameRepository, Resolve, IsContainerOf;
    var x := w.instances[i];
    forall c: nat ensures Resolve(w.containers, x.container) == Some(c) <==> IsContainerOf(w.containers, x.container, c) {
      ResolvesExactly(w.containers, x.container, c);
    }
    var found := Resolve(w.containers, x.container);
    if found.Some? { StaysInRepository(w.containers[found.value].image, target); }
  }

  // ---------------------------------------------------------------- the answer

  /** The answer to a request: what refuses it, in this order, or the target. */
  lemma AnswerExactly(w: World, raw: string)
    ensures var answer := StartCheck(w, raw);
      if Active(w.service.phase) then answer == Failure(AlreadyRunning)
      else if Canonical(raw).None? then answer == Failure(BadTarget)
      else
        var target := Canonical(raw).value;
        if !SomeTakesPart(w) then answer == Failure(NoLocalInstance)
        else if !AllReplaceable(w, target) then answer == Failure(NotReplaceable)
        else if !SomeRunsOther(w, target) then answer == Failure(AllCurrent)
        else answer == Success(target)
  {
    hide Canonical, Replaceable, CanBeReplaced, RunsOther, InService, ImageOf, SameImage, TakesPart;
    if !Active(w.service.phase) && Canonical(raw).Some? {
      var target, chosen := Canonical(raw).value, LocalInstances(w.instances);
      forall i: nat | i < |w.instances|
        ensures i in chosen <==> TakesPart(w.instances[i])
        ensures Replaceable(w, i, target) <==> InService(w.instances[i]) && CanBeReplaced(w, w.instances[i], target)
        ensures Replaceable(w, i, target) ==> (!SameImage(ImageOf(w, i), target) <==> RunsOther(w, w.instances[i], target))
      {
        ChosenTakePart(w.instances, i);
        ReplaceableExactly(w, i, target);
      }
      assert forall i :: i in chosen ==> i < |w.instances|;
      if chosen != [] { assert chosen[0] in chosen; }
    }
  }

  lemma ChosenTakePart(instances: seq<Instance>, i: nat)
    requires i < |instances|
    ensures i in LocalInstances(instances) <==> TakesPart(instances[i])
  {}

  /** A request opens a release if and only if the switch is on, no release is active, the text
      is an image, and of the watched local instances with a container there is one, each is in
      service and can be replaced, and one runs another image. Otherwise nothing changes. */
  lemma OpensExactly(w: World, raw: string, now: Time, settings: Settings)
    ensures var after := ReleaseRequested(w, raw, now, settings);
      if && settings.autoscaling && !Active(w.service.phase) && Canonical(raw).Some?
         && SomeTakesPart(w) && AllReplaceable(w, Canonical(raw).value) && SomeRunsOther(w, Canonical(raw).value)
      then Active(after.service.phase) && after.release.Some? && after.service.nextRelease == w.service.nextRelease + 1
      else after == w
  {
    hide Canonical, StartCheck, SomeTakesPart, AllReplaceable, SomeRunsOther;
    AnswerExactly(w, raw);
    if StartCheck(w, raw).Success? { StartedFields(w, raw, now); }
  }

  // ---------------------------------------------------------------- what is opened

  /** The first instance that takes part. */
  ghost predicate IsFirst(w: World, i: nat) {
    i < |w.instances| && TakesPart(w.instances[i]) && forall j :: 0 <= j < i ==> !TakesPart(w.instances[j])
  }

  /** One pending step for each instance that takes part, in the order of their names. */
  ghost predicate PlansAll(w: World, steps: seq<Step>) {
    && (forall k :: 0 <= k < |steps| ==>
          steps[k].instance < |w.instances| && TakesPart(w.instances[steps[k].instance])
          && steps[k].status == StepPending && steps[k].task.None?)
    && (forall i :: 0 <= i < |w.instances| && TakesPart(w.instances[i]) ==>
          exists k :: 0 <= k < |steps| && steps[k].instance == i)
    && (forall j, k :: 0 <= j < k < |steps| ==>
          steps[j].instance != steps[k].instance
          && w.instances[steps[j].instance].name <= w.instances[steps[k].instance].name)
  }

  /** Each instance that takes part is bound to its container; no other row changes. */
  ghost predicate BindsAll(w: World, after: seq<Instance>) {
    && |after| == |w.instances|
    && forall i :: 0 <= i < |w.instances| ==>
         && after[i] == w.instances[i].(container := after[i].container)
         && if TakesPart(w.instances[i]) then
              after[i].container.Some? && IsContainerOf(w.containers, w.instances[i].container, after[i].container.value)
            else after[i].container == w.instances[i].container
  }

  lemma {:induction false} BoundExactly(w: World, chosen: seq<nat>, i: nat)
    requires i < |w.instances| && Indexes(chosen, |w.instances|)
    ensures var found := Resolve(w.containers, w.instances[i].container);
      BindResolved(w, chosen).instances[i].container ==
        if i in chosen && found.Some? then found else w.instances[i].container
  {
    hide Resolve;
    if chosen != [] {
      assert chosen == chosen[..|chosen| - 1] + [chosen[|chosen| - 1]];
      BoundExactly(w, chosen[..|chosen| - 1], i);
    }
  }

  lemma AllAreBound(w: World, target: string)
    requires AllReplaceable(w, target)
    ensures BindsAll(w, BindResolved(w, LocalInstances(w.instances)).instances)
  {
    hide Resolve, InService, LocalInstances, BindResolved, SameRepository;
    var chosen := LocalInstances(w.instances);
    var after := BindResolved(w, chosen).instances;
    forall i | 0 <= i < |w.instances|
      ensures after[i].container == if TakesPart(w.instances[i]) then Resolve(w.containers, w.instances[i].container)
                                    else w.instances[i].container
      ensures TakesPart(w.instances[i]) ==>
        after[i].container.Some? && IsContainerOf(w.containers, w.instances[i].container, after[i].container.value)
    {
      ChosenTakePart(w.instances, i);
      BoundExactly(w, chosen, i);
      if TakesPart(w.instances[i]) {
        var c: nat :| IsContainerOf(w.containers, w.instances[i].container, c);
        ResolvesExactly(w.containers, w.instances[i].container, c);
      }
    }
  }

  lemma AllArePlanned(w: World)
    ensures PlansAll(w, PlannedSteps(ByName(w.instances, LocalInstances(w.instances))))
  {
    hide LocalInstances, ByName, TakesPart;
    var chosen := LocalInstances(w.instances);
    var ordered := ByName(w.instances, chosen);
    ReorderedDistinct(chosen, ordered);
    forall i: nat | i < |w.instances| ensures i in ordered <==> TakesPart(w.instances[i]) {
      ChosenTakePart(w.instances, i);
    }
    forall k | 0 <= k < |ordered| ensures ordered[k] < |w.instances| && TakesPart(w.instances[ordered[k]]) {
      assert ordered[k] in ordered;
    }
  }

  /** An accepted request opens a release numbered next, to the target, with a plan of all of them and neither task nor guard;
      the service records both images, who asked and when; the source's version is listed; and
      nothing else changes but the bindings. */
  lemma OpenedExactly(w: World, raw: string, now: Time)
    requires StartCheck(w, raw).Success?
    ensures var r, s := Started(w, raw, now).release, Started(w, raw, now).service;
      && r.Some? && r.value.id == w.service.nextRelease && r.value.target == Canonical(raw).value && r.value.guard.None?
      && PlansAll(w, r.value.steps)
      && s == w.service.(
           phase := PreflightingLocal, taskId := None, requestedBy := true, startedAt := Some(now),
           desiredImage := Some(r.value.target), previousImage := Some(r.value.source), nextRelease := w.service.nextRelease + 1)
    ensures var r, after := Started(w, raw, now).release, Started(w, raw, now);
      && BindsAll(w, after.instances)
      && after == w.(service := after.service, release := r, instances := after.instances, versions := after.versions)
      && (after.versions == w.versions || after.versions == w.versions + [Version(r.value.source, None, now)])
      && (exists v :: v in after.versions && v.image == r.value.source)
  {
    hide Canonical, AllReplaceable, SomeRunsOther, PlansAll, BindsAll, LocalInstances, BindResolved, ByName, PlannedSteps,
      Resolve, Replaceable, StartCheck;
    AnswerExactly(w, raw);
    AllAreBound(w, Canonical(raw).value);
    AllArePlanned(w);
    SourceListed(w, raw, now);
  }

  lemma SourceListed(w: World, raw: string, now: Time)
    requires StartCheck(w, raw).Success?
    ensures var r, after := Started(w, raw, now).release, Started(w, raw, now);
      && r.Some?
      && (after.versions == w.versions || after.versions == w.versions + [Version(r.value.source, None, now)])
      && (exists v :: v in after.versions && v.image == r.value.source)
  {
    hide StartCheck, Canonical, ImageOf, LocalInstances, ByName, BindResolved;
    var r, after := Started(w, raw, now).release, Started(w, raw, now);
    var known := IndexOfVersion(w.versions, r.value.source);
    if known.Some? {
      assert w.versions[known.value] in after.versions;
    } else {
      assert after.versions[|w.versions|] in after.versions;
    }
  }

  /** The source, and the image to roll back to, is what the first instance's container runs. */
  lemma FirstGivesSource(w: World, raw: string, now: Time, i: nat, c: nat)
    requires StartCheck(w, raw).Success? && IsFirst(w, i) && IsContainerOf(w.containers, w.instances[i].container, c)
    ensures Started(w, raw, now).release.Some?
    ensures Canonical(w.containers[c].image) == Some(Started(w, raw, now).release.value.source)
  {
    hide BindResolved, ByName, Resolve, IsContainerOf, ValidateTagChange, SameImage, IndexOfVersion, Busy;
    var chosen := LocalInstances(w.instances);
    StartEstablishes(w, raw);
    ChosenTakePart(w.instances, i);
    assert chosen[0] in chosen;
    ChosenTakePart(w.instances, chosen[0]);
    assert chosen[0] == i;
    ResolvesExactly(w.containers, w.instances[i].container, c);
    TargetIsCanonical(w, raw, StartCheck(w, raw).value, i);
    hide Canonical;
  }
}
