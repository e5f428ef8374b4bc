/** Over whole runs: no release outlives its time limit. */
module ReleaseLimits {
  import opened Wrappers
  import opened ImageReference
  import opened Model
  import opened Releases
  import opened Actors
  import opened ReleaseInvariant
  import opened ReleaseTicks
  import opened ReleaseOutcomes
  import opened Runs
  import opened ReleaseRuns

  /** A tick keeps the time at which the release began. */
  lemma TickKeepsStart(w: World, now: Time, settings: Settings, p: Answers)
    requires Inv(w) && Active(w.service.phase)
    ensures Tick(w, now, settings, p).service.startedAt == w.service.startedAt
  {
    hide Core, Failed, Preflight, Rollout, Canonical, RepositoryOf, SameImage, GuardIsServing, RecordVersion, CleanStop,
      ImagesFixed, GuardKept;
    FailureKeepsStart(w, now);
    FailureKeepsStart(DrainGuards(w, w.release.value.id), now);
    if w.service.phase == PreflightingLocal {
      PreflightKeeps(w, now, settings);
    } else if LocalPhase(w.service.phase) {
      RolloutKeeps(w, now, settings);
    }
  }

  lemma FailureKeepsStart(w: World, now: Time)
    ensures Failed(w, now).service.startedAt == w.service.startedAt
  {}

  lemma EffectKeepsStart(s: World, m: Moment, settings: Settings)
    requires Inv(s)
    requires m.event.StartRelease? ==> !settings.autoscaling || StartCheck(s, m.event.image).Failure?
    ensures Effect(s, m, settings).service.startedAt == s.service.startedAt
    ensures !Active(s.service.phase) ==> !Active(Effect(s, m, settings).service.phase)
  {
    hide Tick, StartCheck, ActiveInv, VersionsDistinct, Steady;
    if m.event.ReleaseTick? {
      if Active(s.service.phase) {
        TickKeepsStart(s, m.now, settings, m.event.answers);
      } else {
        TickOfInactive(s, m.now, settings, m.event.answers);
      }
    } else if !m.event.StartRelease? {
      OthersUndisturbed(s, m, settings);
      hide Effect;
    }
  }

  lemma StartsNow(w: World, raw: string, now: Time)
    requires StartCheck(w, raw).Success?
    ensures Started(w, raw, now).service.startedAt == Some(now) && Active(Started(w, raw, now).service.phase)
  {
    hide StartCheck, Canonical, ImageOf, LocalInstances, ByName, BindResolved;
  }

  /** Until the next start the service remembers when its release began. */
  lemma {:induction false} StartRemembered(t: Trace, q: nat, n: nat)
    requires Execution(t) && StartsAt(t, q) && q < n && NoStart(t, q + 1, n)
    ensures t.states[n].service.startedAt == Some(t.run[q].now)
  {
    hide Execution, Inv, Effect, StartCheck, Started;
    if n == q + 1 {
      StepOf(t, q);
      NumbersGrow(t.states[q], t.run[q], t.settings);
      StartEffect(t.states[q], t.run[q], t.settings);
    } else {
      NoStartBefore(t, q + 1, n);
      StartRemembered(t, q, n - 1);
      StepOf(t, n - 1);
      EffectKeepsStart(t.states[n - 1], t.run[n - 1], t.settings);
    }
  }

  lemma StartEffect(s: World, m: Moment, settings: Settings)
    requires Inv(s) && m.event.StartRelease? && settings.autoscaling && StartCheck(s, m.event.image).Success?
    ensures Effect(s, m, settings).service.startedAt == Some(m.now)
  {
    hide StartCheck, Started, Inv;
    StartsNow(s, m.event.image, m.now);
  }

  lemma {:induction false} StaysInactive(t: Trace, a: nat, b: nat)
    requires Execution(t) && NoStart(t, a, b) && !Active(t.states[a].service.phase)
    ensures !Active(t.states[b].service.phase)
  {
    hide Execution, Inv, Effect, StartCheck, Active;
    if a < b {
      NoStartBefore(t, a, b);
      StaysInactive(t, a, b - 1);
      StepOf(t, b - 1);
      EffectKeepsStart(t.states[b - 1], t.run[b - 1], t.settings);
    }
  }

  /** In every run: from the first tick later than its start and the limit, a release is not
      active any more; if it still was, that tick stopped it, cleanly. */
  lemma NoReleaseOutlivesItsLimit(t: Trace, q: nat, m: nat, n: nat)
    requires Execution(t) && StartsAt(t, q) && q < m < n && NoStart(t, q + 1, n)
    requires t.run[m].event.ReleaseTick? && t.run[m].now > t.run[q].now + t.settings.releaseTimeout
    ensures !Active(t.states[n].service.phase)
    ensures Active(t.states[m].service.phase) ==>
      t.states[m + 1].service.phase == ReleaseFailed && CleanStop(t.states[m].service.taskId, t.states[m + 1])
  {
    hide Execution, Inv, Effect, StartCheck, CleanStop, Tick;
    StartsBetween(t, q + 1, m, n);
    StartsBetween(t, q + 1, m + 1, n);
    StartRemembered(t, q, m);
    StepOf(t, m);
    TickEffect(t.states[m], t.run[m], t.settings);
    if Active(t.states[m].service.phase) {
      TickStops(t.states[m], t.run[m].now, t.settings, t.run[m].event.answers);
    } else {
      StaysInactive(t, m, m + 1);
    }
    StaysInactive(t, m + 1, n);
  }

  lemma TickEffect(s: World, m: Moment, settings: Settings)
    requires Inv(s) && m.event.ReleaseTick?
    ensures Effect(s, m, settings) == Tick(s, m.now, settings, m.event.answers)
  {
    hide Tick, Inv;
  }

  lemma StartsBetween(t: Trace, a: nat, m: nat, b: nat)
    requires Execution(t) && a <= m <= b && NoStart(t, a, b)
    ensures NoStart(t, a, m) && NoStart(t, m, b)
  {
    hide Execution, Inv;
    RunNumbersGrow(t, a, m);
    RunNumbersGrow(t, m, b);
  }

  /** In every run that begins without a release, an active one has begun at some position, and
      no other since. */
  lemma {:induction false} ActiveHasBegun(t: Trace, n: nat) returns (q: nat)
    requires FromRest(t) && n <= |t.run| && Active(t.states[n].service.phase)
    ensures q < n && StartsAt(t, q) && NoStart(t, q + 1, n)
  {
    hide Inv, Effect, StartCheck, Active;
    StepOf(t, n - 1);
    if StartsAt(t, n - 1) {
      q := n - 1;
    } else {
      NumbersGrow(t.states[n - 1], t.run[n - 1], t.settings);
      EffectKeepsStart(t.states[n - 1], t.run[n - 1], t.settings);
      q := ActiveHasBegun(t, n - 1);
    }
  }
}
