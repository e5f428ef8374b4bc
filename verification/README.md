# Cloud Helm: verified models of the console's state machines

Cloud Helm is an operations console. This project models the parts of it that are state machines or
algebra, in Dafny, and proves properties of them over every input and every run:

- **Staged image release** (`Releases`, `ReleaseInvariant`, `ReleaseTicks`, `ReleaseOutcomes`, `ReleaseStart`,
  `ReleaseRuns`, `ReleaseLimits`). A tick of the
  release of one service moves it through preflight, an optional old-image guard, the one-by-one
  drain/update/verify of the local instances, the workload update and the guard's cleanup. `Actors` holds
  everybody else who writes the same rows, and `ActorOutcomes` what each does to them: business reports, operators, release requests, the agents' task
  queue with its 90 s redelivery, and heartbeats. `Runs` lets all of them, the autoscaler and direct edits of
  the workload interleave as atomic steps; the release theorems are about all such runs.
- **Hybrid autoscaler** (`Autoscaling`, `ScalingTriggers`, `ScaleRuns`): windowed averages, the decision cascade, drain before
  removal, and the compare-and-set write of the replica count, with another writer allowed between the read
  and the write. Its run theorems hold with release ticks in between.
- **Delegated access control** (`Access`, `Delegation`, `Grants`): the containment test used when a rule is granted
  against the semantics used when a request is served, what a request grants, and what delegation can do over
  whole runs.
- **Smaller algorithms**: tagged image references (`ImageReference`, `ImageGrammar`), alert hysteresis (`AlertHysteresis`),
  bounded batch cleanup (`MetricCleanup`), the sliding-window login limiter (`LoginLimiter`) and
  crash-restartable migrations (`Migrations`).

The code that assigns rows in place is written that way: `Rows.Session` holds the service row, its release and
the tables as fields; `ReleaseEngine`, `ScalingEngine` and `Handlers` are the loops and assignments of
`releases.py`, `autoscaling.py` and the routers. Each method is proved to compute the state its specification
function gives, and `Console.Handle` does so for every event a run can contain, so that theorems about runs are
theorems about sequences of these calls. `Example` and `CompleteRun` run concrete releases: one of two
instances until it drains, and one of a single instance through its guard, update and workload to completion.

Conventions: rows are identified by their position in their table; instants are integers (reals in the login
limiter); averages and percentages are exact rationals; `instance_id` is its rank in the text order; the
capacity limit 0 means unset. One tick, request or heartbeat is one atomic step. What the provider answers
during a tick, and what another writer stores during an evaluation, are parameters of the step.

What the proofs found, besides the promised properties:

- A failed release leaves its agent task unfinished exactly when the task's status was dispatched at that moment
  (`StoppedReleaseLeavesDispatchedTask`); a pending one it expires (`FailureExpires`). In both cases the result
  of the update still switches the container: exactly when it reports success with the new container's id, the
  task had no result when the release stopped, and no other row of the host has that id
  (`LateResultSwitchesImage`). A fetched task is pending again, and so can be expired while its agent works on
  it, exactly when it is overdue and not handed out in the same request (`FetchedTaskIsPendingAgain`).
- An instance stays in maintenance, and so unrouted, during its update exactly as long as no operator has ended
  its maintenance or switched its monitoring off since the update was queued (`UpdatedOnlyWhenUnrouted`); after
  an exit and one healthy report it can be routed during its update (`ExitReroutesDuringUpdate`), and there is a
  run in which it serves again while its task is with the agent (`ExitDuringUpdateHappens`).
- A task result whose new docker id another row of its host already has is refused by the database, and the task
  stays dispatched (`Clashes` in `Actors`).
- The image to roll back to can be the target itself: exactly when the first local instance already ran it
  (`PreviousImageCanBeTheTarget`, met in `StartFromTargetAccepted`).
- A cleanup pass can ask for another one although nothing is left to delete: exactly when the expired rows took
  all batches and the cap already holds (`AsksInVain` in `PassOutcome`, met in `SomePassAsksInVain`).
- The canonical text of an accepted image can be longer than the 512 characters the parser accepts
  (`CanonicalCanOutgrowLimit`); a release target never is (`TargetIsCanonical`).
- A heartbeat that names a new docker id twice is refused as a whole (`NewIdTwice` in `Actors`).
- docs/container-upgrade-design.md:61 promises a rollback task when business verification fails; the code only
  stops the release. The model follows the code.

## Model

| member | source | states |
|---|---|---|
| Runs.ExecutionKeepsInv | cloudhelm/main.py:72-79 | The release invariant holds in every state of every run: atomic steps of all actors in any order |
| Runs.EveryRunExecutes | cloudhelm/main.py:72-79 | For every sequence of events and every state that satisfies the invariant there is such a run |
| Runs.SameCourse | cloudhelm/main.py:72-79 | Runs that begin in one state and make the same steps pass through the same states |
| Runs.EffectKeepsInv | cloudhelm/routers/scaling.py:284-297 | Every actor's step keeps the invariant: plan of distinct local instances, serial steps, others serving, task link, fixed canonical images, guard present exactly from its creation to its cleanup |
| Runs.OthersUndisturbed | cloudhelm/routers/scaling.py:964-1084 | No report, operator, agent or autoscaler step touches the release, its task, its guards or the versions; while it is active none withdraws a serving local instance |
| Runs.StartedKeepsInv | cloudhelm/routers/scaling.py:545-666 | An accepted start sets up a release that satisfies the invariant; a refused one changes nothing that matters |
| Runs.TargetIsCanonical | cloudhelm/routers/scaling.py:602-606 | The target of an accepted request is its own canonical text, and every image it replaces parses |
| ReleaseStart.ResolvesExactly | cloudhelm/releases.py:187-210 | The search finds a row if and only if it is the present bound one or the only one that looks like the recreated one |
| ReleaseStart.AnswerExactly | cloudhelm/routers/scaling.py:556-610 | What refuses a request, in which order, on the rows: active release, unreadable text, no local instance, one out of service or not replaceable, all on the target |
| ReleaseStart.OpensExactly | cloudhelm/routers/scaling.py:679-694 | A request opens a release if and only if the switch is on and nothing refuses it; otherwise nothing changes |
| ReleaseStart.OpenedExactly | cloudhelm/routers/scaling.py:611-666 | What it opens: one pending step per instance in name order, both images, the start time, the source's version, the bindings; nothing else changes |
| ReleaseStart.FirstGivesSource | cloudhelm/routers/scaling.py:611-612 | The source is the canonical image of the first local instance's container |
| Example.ReleaseGetsUnderway | cloudhelm/routers/scaling.py:545-666 | For every valid tag change a run begins without a release and its release of two instances reaches a state with one of them draining |
| Example.StartFromTargetAccepted | cloudhelm/routers/scaling.py:560-656 | A request is accepted whose first local instance already runs the target; its release takes the target for the image to roll back to |
| CompleteRun.ReleaseRunsToCompletion | cloudhelm/releases.py:527-617 | For every valid tag change between images whose canonical texts can be read back, a run takes a release of one instance from its request to completion: withdrawn behind its guard, updated with the task at an agent, workload written, guard deleted |
| CompleteRun.ExitDuringUpdateHappens | cloudhelm/routers/scaling.py:1011-1050 | A run in which an exit and a report put that instance back in service while its update task is with the agent |
| Example.SomeTagChange | cloudhelm/image_reference.py:72-79 | Such tag changes exist |
| Runs.UndisturbedKeepsInv | cloudhelm/releases.py:24-35 | Any step that leaves the release's fields alone and withdraws no serving local instance keeps the invariant |
| Releases.Candidates | cloudhelm/releases.py:196-207 | Exactly the present rows that could be the recreated container, in order |
| Releases.Resolve | cloudhelm/releases.py:187-210 | The bound row if present, otherwise the only candidate |
| Actors.LocalInstances | cloudhelm/routers/scaling.py:560-568 | Exactly the monitored local instances with a container, each once |
| Actors.ByName | cloudhelm/routers/scaling.py:625-635 | The same instances in the order of their names |
| Actors.Redelivered | cloudhelm/routers/agent.py:238-248 | Exactly the node's tasks dispatched more than 90 s ago become pending again |
| Actors.NextPending | cloudhelm/routers/agent.py:250-255 | The first pending task of the node, or none if there is none |
| Actors.HeartbeatShowsHost | cloudhelm/routers/agent.py:165-218 | A heartbeat leaves other hosts' rows alone and shows every reported container in a row, with its last snapshot |
| Actors.Freed | cloudhelm/routers/agent.py:73-80 | No other local instance keeps the container |
| ActorOutcomes.AcceptedExactly | cloudhelm/routers/scaling.py:209-270 | A report is accepted if and only if its pool, container and address fit its row and the networks |
| ActorOutcomes.ReportStores | cloudhelm/routers/scaling.py:271-298 | What an accepted report leaves in its row, and that no other row changes |
| ActorOutcomes.DesiredExactly | cloudhelm/routers/scaling.py:964-1084 | The desired state every event but ticks, evaluations and starts leaves |
| ActorOutcomes.MaintenanceExactly | cloudhelm/routers/scaling.py:284-289 | In every run: an instance comes into maintenance if and only if, asked to drain, it reports that it takes no work and has none |
| ActorOutcomes.OperatorsExactly | cloudhelm/routers/scaling.py:917-1083 | Operators set monitoring, limit and, outside releases, a valid configuration, and nothing else but desired states |
| ActorOutcomes.FetchedExactly | cloudhelm/routers/agent.py:237-267 | An agent's request dispatches the first task that waits or is overdue and lets the other overdue ones wait |
| ActorOutcomes.ResultExactly | cloudhelm/routers/agent.py:271-321 | A result counts once and from the task's node; what it does to the container and the task |
| ActorOutcomes.ActionExactly | cloudhelm/routers/api.py:567-632 | When an operator's action is queued, and as which task |
| ActorOutcomes.HeartbeatExactly | cloudhelm/routers/agent.py:133-218 | When a heartbeat counts, and which rows it shows, hides and leaves |
| ActorOutcomes.LabelExactly | cloudhelm/routers/agent.py:73-91 | When a label binds, whom it binds and who lets go |
| ActorOutcomes.RoutedExactly | cloudhelm/routers/scaling.py:319-351 | An instance is routed if and only if the autoscaler counts it as working, it serves, and its address lies in the networks |
| ReleaseInvariant.TickKeepsInv | cloudhelm/releases.py:620-663 | One pass over the active release keeps the invariant, whatever the provider answers |
| ReleaseInvariant.FailureStopsClean | cloudhelm/releases.py:133-169 | Failing from any state of an active release leaves no interrupted step, no task recorded or waiting, every instance serving or restoring |
| ReleaseInvariant.FailureTouchesOneStep | cloudhelm/releases.py:141-165 | Failing marks exactly the interrupted step, of which there is at most one, and changes no instance but that step's, which it sends back to service |
| ReleaseInvariant.FailureExpires | cloudhelm/releases.py:133-140 | Failing changes no task but the recorded one, and that one exactly when it is pending: it expires |
| ReleaseInvariant.RecordKeepsDistinct | cloudhelm/releases.py:112-130 | Recording a version keeps one row per image, has the given release in it and loses no other image |
| ReleaseRuns.SerialRollout | cloudhelm/releases.py:394-511 | In every run: at most one step draining, updating or verifying, all lower ones completed, every other instance serving, at least n-1 of n in service |
| ReleaseRuns.TaskRecordedExactly | cloudhelm/releases.py:286-319 | In every run: a task is recorded exactly while one step prepares, updates or verifies, and that step alone carries it |
| ReleaseRuns.FailureIsClean | cloudhelm/releases.py:133-169 | In every run: the tick that stops a release stops it cleanly |
| ReleaseTicks.TickFailsCleanly | cloudhelm/releases.py:626-663 | By whatever branch a tick fails an active release (error, timeout, provider, switch), it stops cleanly |
| ReleaseOutcomes.TickStops | cloudhelm/releases.py:632-657 | With the switch off, without a client or past the time limit every tick of an active release stops it, cleanly |
| ReleaseOutcomes.TickAwaitsTask | cloudhelm/releases.py:293-306 | Otherwise a tick that finds the release's task unfinished changes nothing |
| ReleaseLimits.NoReleaseOutlivesItsLimit | cloudhelm/releases.py:644-656 | In every run: from the first tick later than start and limit the release is not active; if it was, that tick stopped it cleanly |
| ReleaseLimits.ActiveHasBegun | cloudhelm/routers/scaling.py:657-665 | In every run from a state without a release, an active one has a start position and no later one |
| ReleaseOutcomes.PreflightTakes | cloudhelm/releases.py:321-354 | The first pending step not on the target gets its preparation task if its container can take one, and the release fails if not; without such a step preflight ends |
| ReleaseOutcomes.PreflightHears | cloudhelm/releases.py:299-320 | A successful preparation prepares the step that waits for it, any other result fails the release |
| ReleaseOutcomes.RolloutTakes | cloudhelm/releases.py:456-511 | The first step neither completed nor on the target starts draining, waits until its instance is drained, or gets its update task; the steps before it are completed and serve |
| ReleaseOutcomes.RolloutHears | cloudhelm/releases.py:394-454 | After its task a step is completed if and only if its container is on the target, runs and is not ill, and the business reported itself well since; it is verified further if only the business is missing; otherwise the release fails |
| ReleaseOutcomes.GuardCreated | cloudhelm/releases.py:544-558 | The guard is created with the source image if and only if the provider takes it and the workload lies in the source's repository |
| ReleaseOutcomes.GuardAwaited | cloudhelm/releases.py:559-568 | The wait ends if and only if the guard is reported ready and one of its instances takes work |
| ReleaseOutcomes.WorkloadSet | cloudhelm/releases.py:575-580 | The workload is set to the target if and only if the provider takes it and the repository is the same |
| ReleaseOutcomes.WorkloadAwaited | cloudhelm/releases.py:581-590 | The rollout is over if and only if the workload runs the target and is reported ready |
| ReleaseOutcomes.GuardCleaned | cloudhelm/releases.py:591-617 | Guards are asked to drain until all are in maintenance and empty; then the guard is deleted and the release completes |
| ReleaseTicks.StoppedReleaseLeavesDispatchedTask | cloudhelm/releases.py:136-140 | After a failure the outstanding task is unfinished if and only if its status was dispatched at that moment |
| ReleaseRuns.LateResultSwitchesImage | cloudhelm/routers/agent.py:271-310 | After its release has failed, the result of an update task switches the container to the target if and only if the task had no result before, the result is a success with a docker id, and that id is free; expiring the task does not prevent it |
| ReleaseRuns.FetchedTaskIsPendingAgain | cloudhelm/routers/agent.py:238-265 | A dispatched task is pending after an agent's request if and only if it is overdue and not the one handed out |
| ReleaseTicks.TickMoves | cloudhelm/releases.py:293-511 | The only ways a step can move in one tick; completion and verification only with the container found on the target, updating only from drained |
| ReleaseTicks.TickOrders | cloudhelm/releases.py:527-617 | A tick keeps id, source, target, plan, desired and previous image, and configuration |
| ReleaseTicks.TickAdvances | cloudhelm/releases.py:293-354 | Every tick of an active release leaves phase, steps and tasks as they are or strictly lowers what remains |
| ReleaseRuns.BoundedProgress | cloudhelm/releases.py:541-617 | Over any run of one release, ticks that do not wait plus what remains never exceed what remained at the beginning |
| ReleaseRuns.LinearlyManyTicks | cloudhelm/releases.py:394-511 | A release of n instances makes at most 7 + 6n ticks that do not wait; after that many it has ended |
| ReleaseTicks.TickPassesGuard | cloudhelm/releases.py:544-568 | A one-instance release leaves its early phases only by a tick that found the old-image guard ready, healthy, accepting, fresh and routable |
| ReleaseRuns.SingleInstanceProtected | cloudhelm/releases.py:353-568 | In every run: while the only instance is withdrawn, its guard exists with the old image, which differs from the target, and an earlier tick confirmed it |
| ReleaseRuns.FailedReleaseKeepsGuard | cloudhelm/releases.py:133-169 | In every run: the guard of a one-instance release that failed after creating it stays, with the old image, whatever follows |
| ReleaseTicks.TickDeletesGuard | cloudhelm/releases.py:591-617 | A guard is deleted only by its own release's cleaning tick, all steps completed, every registered guard instance in maintenance, not accepting, without business |
| ReleaseRuns.GuardDeletedLast | cloudhelm/releases.py:581-617 | In every run: a guard disappears only after the step completed on the target, the rollout was reported ready and all guard instances were drained |
| ReleaseTicks.TickWritesWorkload | cloudhelm/autoscaling.py:141-173 | The workload image changes only in the workload phase with every step completed, inside one repository, to the target |
| ReleaseRuns.WorkloadWrittenLast | cloudhelm/releases.py:569-580 | In every run: the workload is written only when each step is completed and has been found on the target by a tick of this release |
| ReleaseRuns.CompletedMeansReady | cloudhelm/releases.py:514-525 | In every run: completion only with all steps completed, after the rollout was reported ready, with exactly one version row for the target |
| ReleaseTicks.TickRecords | cloudhelm/releases.py:112-130 | A completing tick comes from the last two phases and leaves exactly one row for the target, of this release |
| ReleaseRuns.ImagesStayFixed | cloudhelm/releases.py:569-580 | Until the next start, desired, previous, source and target image and the plan stay what they were |
| ReleaseRuns.PreviousImageCanBeTheTarget | cloudhelm/routers/scaling.py:611-656 | Previous and desired image are equal if and only if the first local instance already ran the target |
| ReleaseRuns.UpdatedOnlyWhenUnrouted | cloudhelm/releases.py:484-509 | In every run, for a step being updated since a tick queued it: the instance was found drained then; it is now in maintenance if and only if no operator has sent it back since, and then not discoverable; otherwise it is restoring or serving |
| ReleaseRuns.UpdateHasBegun | cloudhelm/releases.py:484-509 | In every run from a state without a release, a step being updated has such a beginning |
| ReleaseRuns.OnlyOperatorsSendBack | cloudhelm/routers/scaling.py:1011-1070 | Outside ticks, an instance leaves maintenance during a release if and only if the step is its exit or its monitoring switched off |
| ReleaseRuns.ExitReroutesDuringUpdate | cloudhelm/routers/scaling.py:319-351 | After exit and one healthy report only this instance has changed: it serves while its update runs, and is routed if and only if its address and container allow it |
| ReleaseEngine.FailRelease | cloudhelm/releases.py:133-169 | In place: computes the specification's failed state |
| ReleaseEngine.ResolveContainer | cloudhelm/releases.py:187-210 | In place: finds the bound or uniquely recreated container and rebinds |
| ReleaseEngine.HasUnfinishedTask | cloudhelm/releases.py:258-263 | The search answers whether an unfinished task of the container exists |
| ReleaseEngine.QueueLocalTask | cloudhelm/releases.py:240-290 | In place: queues exactly when requester, node and container allow it, otherwise changes nothing |
| ReleaseEngine.FindStep | cloudhelm/releases.py:307-309 | The search by task id finds the first step with it, or none |
| ReleaseEngine.ProgressPreflight | cloudhelm/releases.py:293-320 | In place: computes the specification's preflight |
| ReleaseEngine.PreparePending | cloudhelm/releases.py:321-354 | In place: the loop over the steps computes the recursive specification |
| ReleaseEngine.VerifyStep | cloudhelm/releases.py:412-454 | In place: the assignments of verification and completion compute the specification |
| ReleaseEngine.ProgressLocalRollout | cloudhelm/releases.py:394-411 | In place: computes the rollout and whether it is finished |
| ReleaseEngine.RolloutSteps | cloudhelm/releases.py:456-511 | In place: the loop that stops at the first unfinished step computes the recursive specification |
| ReleaseEngine.AdvanceStep | cloudhelm/releases.py:470-510 | In place: drains a step, or queues its update once drained |
| ReleaseEngine.GuardInstances | cloudhelm/releases.py:357-375 | Exactly the monitored guard instances tagged with the release |
| ReleaseEngine.AnyGuardServes | cloudhelm/releases.py:378-391 | Whether a guard instance is healthy, accepting, fresh and routable |
| ReleaseEngine.CompleteRelease | cloudhelm/releases.py:514-525 | In place: marks completion and records the version |
| ReleaseEngine.CleanUpGuard | cloudhelm/releases.py:591-617 | In place: asks guards to drain, and deletes and forgets them once all are drained |
| ReleaseEngine.ProgressService | cloudhelm/releases.py:527-617 | In place: the dispatch on the phase computes the specification |
| ReleaseEngine.ProgressImageReleases | cloudhelm/releases.py:620-663 | In place: one pass computes the specification's tick |
| Handlers.ReportBusinessLoad | cloudhelm/routers/scaling.py:190-299 | In place: accepted exactly when no check refuses; stores the report and moves draining to maintenance and restoring to serve |
| Handlers.CheckInstances | cloudhelm/routers/scaling.py:570-609 | The checking loop accepts exactly when every instance is replaceable, collects their images and rebinds recreated containers |
| Handlers.StartImageRelease | cloudhelm/routers/scaling.py:545-666 | In place: the outcome of all checks in their order; opens the release or rolls everything back |
| Handlers.FetchNextTask | cloudhelm/routers/agent.py:237-267 | In place: requeues overdue tasks of the node and dispatches its oldest pending one |
| Handlers.StoreTaskResult | cloudhelm/routers/agent.py:271-321 | In place: finishes the task and, for a successful update, overwrites the container row; a clash of docker ids changes nothing |
| Handlers.StoreHeartbeat | cloudhelm/routers/agent.py:133-218 | In place: marks the node's containers absent and every reported one present, or changes nothing and refuses when a new docker id is named twice |
| Handlers.BindLabel | cloudhelm/routers/agent.py:58-91 | In place: binds one local instance to the container and frees all others |
| Console.CreateAgentAction | cloudhelm/routers/api.py:567-632 | In place: queues an action for a present container on an online node; an image update needs a valid tag change |
| Console.DeleteSamples | cloudhelm/autoscaling.py:658-663 | In place: exactly the samples from the cutoff on stay |
| Console.Handle | cloudhelm/main.py:72-79 | Every event of a run, handled in place, leaves the state the run's step gives |
| ScalingEngine.CancelDrains | cloudhelm/autoscaling.py:355-363 | In place: exactly the monitored elastic instances that were withdrawn serve again |
| ScalingEngine.Totals | cloudhelm/autoscaling.py:375-464 | The loop's sums are the specification's businesses, capacities, missing capacity and local failure |
| ScalingEngine.ReadWindow | cloudhelm/autoscaling.py:414-440 | The loop's average, utilisation and coverage are those of the window |
| ScalingEngine.FindDrained | cloudhelm/autoscaling.py:578-588 | The first drained elastic instance, or none |
| ScalingEngine.FindLeastLoaded | cloudhelm/autoscaling.py:590-594 | The first of the least loaded, longest unreported serving instances, or none |
| ScalingEngine.SetReplicas | cloudhelm/autoscaling.py:88-100 | The conditional write succeeds exactly on the value that was read |
| ScalingEngine.Act | cloudhelm/autoscaling.py:487-628 | In place: the cascade applies the specification's decision |
| ScalingEngine.EvaluateService | cloudhelm/autoscaling.py:366-628 | In place: one evaluation computes the specification's state |
| Autoscaling.Window | cloudhelm/autoscaling.py:414-424 | Exactly the samples inside the window |
| Autoscaling.Decide | cloudhelm/autoscaling.py:487-600 | Only a serving elastic instance is asked to drain, only a drained one is removed |
| Autoscaling.LeastLoaded | cloudhelm/autoscaling.py:590-594 | A serving elastic instance than which none is less loaded or, equally loaded, longer unreported |
| Autoscaling.LoadTargetIsLeast | cloudhelm/autoscaling.py:504-517 | The load target is the least n whose capacity, on top of the healthy local one, carries the average load at the threshold |
| Autoscaling.UpTargetIsSafe | cloudhelm/autoscaling.py:518-520 | An upward target strictly rises, stays within the limits and, below the maximum, meets the threshold and replaces missing local capacity |
| Autoscaling.LocalFailureMeansMissing | cloudhelm/autoscaling.py:445-455 | Capacity is missing if and only if some local instance is down without having been taken out |
| Autoscaling.ReplicaWritesAreSafe | cloudhelm/autoscaling.py:502-615 | A write goes up within the maximum, or down by exactly one not below the minimum and never during a release, and only on the value read |
| Autoscaling.OnlyElasticInstancesChange | cloudhelm/autoscaling.py:355-600 | An evaluation changes no local or guard instance, and of elastic ones only the desired state |
| ScalingTriggers.ReplicasExactly | cloudhelm/autoscaling.py:366-615 | When the replica count rises, on samples, capacities and configuration, and to which least number; when it falls, by one; otherwise it stays |
| ScalingTriggers.InstancesExactly | cloudhelm/autoscaling.py:502-600 | Which elastic instance is asked to drain, which ones serve again, and that no other changes |
| ScalingTriggers.FiguresExactly | cloudhelm/autoscaling.py:458-615 | The counts shown and the time of the last scaling, which is set if and only if the count was written |
| ScalingTriggers.StatusTells | cloudhelm/autoscaling.py:502-615 | What each status says about samples, failures, release and cooldown |
| ScaleRuns.ReplicasNotLoweredDuringRelease | cloudhelm/autoscaling.py:547-562 | In every run: while a release is active the replica count falls only by another writer |
| ScaleRuns.RemovalIsDrained | cloudhelm/autoscaling.py:578-605 | A scale-down names a fresh, healthy, withdrawn elastic instance that does not accept and has no business, outside the cooldown and outside releases |
| ScaleRuns.ScalingIsStamped | cloudhelm/autoscaling.py:521-615 | The time of the last scaling is set if and only if the count was written |
| ScaleRuns.RemovalsRespectCooldown | cloudhelm/autoscaling.py:487-490 | In every run with a monotone clock: no scale-down within the cooldown of any earlier successful scaling |
| ScaleRuns.RemovalsAreDistinct | cloudhelm/autoscaling.py:376-385 | In every such run: two scale-downs name different instances if the first one's report goes stale before the cooldown ends and it stays silent |
| Delegation.ValidatedIsWellFormed | cloudhelm/routers/api.py:1322-1384 | Validation yields rules of their scope's shape |
| Grants.ValidatedGivesAsked | cloudhelm/routers/api.py:1322-1384 | A validated rule has the scope asked for and each permission if and only if it or a stronger one was asked for |
| Grants.ValidatedExactly | cloudhelm/routers/api.py:1342-1384 | A rule is valid if and only if it names something present |
| Grants.GrantOpensAsked | cloudhelm/access.py:31-84 | A granted rule opens a resource if and only if the request's rule matches it and asks for the permission or a stronger one |
| Grants.AcceptedRequestGrantsAsked | cloudhelm/routers/api.py:1912-1965 | After an accepted request the target's rules are, beside those outside the manager's scope, exactly what the request's last rule on each scope asks for; version and flags of the account; nobody else changes |
| Grants.AcceptedExactly | cloudhelm/routers/api.py:1511-1572 | When a request is accepted: both directions |
| Grants.AccessAfterRequest | cloudhelm/access.py:31-114 | After an administrator's request the account reaches exactly what its rules ask for, and sees exactly the metrics they name |
| Grants.ManagersStayInBounds | cloudhelm/routers/api.py:1516-1524 | Requests that are not an administrator's come from restricted operators and concern other restricted accounts |
| Grants.OnlyOperatorsManage | cloudhelm/routers/api.py:1548-1555 | Over any requests only operators hold rules that manage or operate a service |
| Grants.StaleRequestIsRefused | cloudhelm/routers/api.py:1525-1532 | Of the requests of a run that expect one version of an account at most one is accepted |
| Delegation.ContainmentIsSound | cloudhelm/routers/api.py:1416-1455 | A contained rule gives no access and shows no host metrics that the containing management rule does not give |
| Delegation.ContainmentReflexive | cloudhelm/routers/api.py:1416-1455 | Every well-formed rule outside service scope contains itself |
| Delegation.ContainmentTransitive | cloudhelm/routers/api.py:1416-1455 | Containment is transitive on such rules |
| Grants.ContainsExactly | cloudhelm/routers/api.py:1416-1455 | What each scope contains, between stored rules outside service scope: both directions |
| Delegation.OriginOfRule | cloudhelm/routers/api.py:1511-1572 | A rule after a manager's request was there before or lies inside a management rule of that manager |
| Delegation.RequestCreatesNoAuthority | cloudhelm/routers/api.py:1912-1992 | One request by a manager makes no access and no host metric newly reachable, over all accounts or over the restricted ones alone |
| Delegation.NoEscalation | cloudhelm/routers/api.py:1458-1482 | No sequence of such requests does |
| Delegation.DelegationHasOrigin | cloudhelm/routers/api.py:1471-1482 | Every rule after a run was held at the start, or lies inside a management rule some restricted operator held at the start |
| Delegation.AcceptedRequestStaysInScope | cloudhelm/routers/api.py:1950-1965 | An accepted request keeps exactly the target's rules outside the manager's scope and adds only rules inside it; nobody else changes |
| Delegation.AccessControl.ValidateRequest | cloudhelm/routers/api.py:1511-1572 | The loops over deduplicated inputs give the first refusal or all validated rules |
| Delegation.AccessControl.PrepareAccessChange | cloudhelm/routers/api.py:1511-1572 | The checks in their order give the validated rules or the refusal |
| Delegation.AccessControl.UpdateUserAccess | cloudhelm/routers/api.py:1912-1992 | In place: an accepted request replaces the rules in scope and raises the version; a refused one changes nothing |
| Delegation.AccessControl.RevokeUserManagement | cloudhelm/routers/api.py:1995-2022 | In place: no rule of the user manages any more, nothing else of it changes |
| Grants.RevokedExactly | cloudhelm/routers/api.py:1995-2022 | Revoking clears management in every rule, raises the version by one, and changes nothing else |
| ImageReference.CanonicalRoundTrip | cloudhelm/image_reference.py:39-69 | A canonical text parses if and only if it has at most 512 characters, and then to itself |
| ImageReference.CanonicalIdempotent | cloudhelm/image_reference.py:35-36 | Canonicalising twice changes nothing, up to that limit |
| ImageReference.CanonicalTextInjective | cloudhelm/image_reference.py:18-36 | Canonical texts agree if and only if canonical repository and tag do |
| ImageReference.TagChangeExactly | cloudhelm/image_reference.py:72-79 | A tag change is valid if and only if both parse, in one repository, to different canonical texts; it is symmetric |
| ImageReference.CanonicalCanOutgrowLimit | cloudhelm/image_reference.py:18-43 | An accepted reference whose canonical text the parser refuses exists |
| ImageGrammar.ComponentExactly | cloudhelm/image_reference.py:5-7 | The positional test of path components accepts exactly the language of the regular expression |
| ImageGrammar.RegistryExactly | cloudhelm/image_reference.py:8-10 | So does the test of registries |
| ImageGrammar.StripExactly | cloudhelm/image_reference.py:40-40 | The text read is the given one without the white space around it |
| ImageGrammar.ParsesExactly | cloudhelm/image_reference.py:39-69 | The parser accepts exactly repository, colon and tag of at most 512 characters, and reads off both |
| ImageGrammar.CanonicalExactly | cloudhelm/image_reference.py:17-36 | The canonical text spells out the registry, Docker Hub by default or alias, and Hub's library |
| ImageGrammar.SameImageExactly | cloudhelm/routers/scaling.py:669-673 | Two texts are the same image if and only if both parse, to one canonical repository and one tag |
| LoginLimiter.Limiter.RateLimit | cloudhelm/routers/auth.py:50-58 | In place: pops what left the window, refuses a full one, otherwise records the attempt |
| LoginLimiter.RefusedExactlyWhenWindowFull | cloudhelm/routers/auth.py:50-58 | A call is refused if and only if twenty accepted attempts of its peer lie within 300 s |
| LoginLimiter.AcceptedAttemptsAreSpaced | cloudhelm/routers/auth.py:50-58 | Accepted attempts i and i + 20 are always more than 300 s apart |
| LoginLimiter.QueueIsBoundedSuffix | cloudhelm/routers/auth.py:50-58 | The queue is a suffix of the accepted times, at most twenty long |
| AlertHysteresis.AlertEngine.Evaluate | cloudhelm/alerts.py:399-460 | In place: one evaluation of one target, and the event it fires |
| AlertHysteresis.AlertEngine.UpdateRule | cloudhelm/routers/api.py:894-932 | In place: editing a known rule deletes its states; an unknown id is refused |
| AlertHysteresis.AlertEngine.DeleteRule | cloudhelm/routers/api.py:935-962 | In place: deleting a rule deletes its states and the events it recorded |
| AlertHysteresis.AlertEngine.ResetBaseline | cloudhelm/routers/api.py:376-384 | In place: a new GPU baseline of one target deletes its states under the given rules and no others |
| AlertHysteresis.HysteresisClosedForm | cloudhelm/alerts.py:399-460 | Over any interleaving of evaluations, rule changes and baseline resets: count, activity and events are those of the closed form on the breach history |
| AlertHysteresis.EventsAlternate | cloudhelm/alerts.py:399-460 | Events of a history alternate, beginning with a trigger; the alert is active if and only if the last is a trigger |
| AlertHysteresis.RecordedEventsAlternate | cloudhelm/alerts.py:399-460 | So do the recorded events of any target since its states were last deleted |
| AlertHysteresis.ActiveExactly | cloudhelm/alerts.py:379-460 | An alert is active if and only if as many of the last values as required lie beyond the threshold |
| AlertHysteresis.BreachesAreBeyond | cloudhelm/alerts.py:379-384 | Every observation counts, as a breach if and only if it lies beyond the threshold of the rule in force |
| AlertHysteresis.StoredExactly | cloudhelm/alerts.py:437-460 | The stored events of a target are exactly those the closed form records, with value and threshold, since its rule was deleted |
| AlertHysteresis.StateShowsTrigger | cloudhelm/alerts.py:428-436 | The state shows since when the alert is active, if it is |
| AlertHysteresis.RulesAreLeft | cloudhelm/routers/api.py:865-960 | Which rule a history of creations, edits and deletions leaves |
| MetricCleanup.FirstBy | cloudhelm/metrics.py:176-183 | A batch holds as many rows as allowed, none ranked after one that stays |
| MetricCleanup.MetricHistory.DeleteExpired | cloudhelm/metrics.py:174-188 | In place: bounded batches of expired rows, until none is left or the batches are used |
| MetricCleanup.MetricHistory.DeleteExcess | cloudhelm/metrics.py:194-209 | In place: bounded batches of the smallest ids while the cap is exceeded |
| MetricCleanup.MetricHistory.Cleanup | cloudhelm/metrics.py:154-210 | One pass: how many rows go at most, in which direction, what it answers, and exactly when the specification is met |
| MetricCleanup.MetricHistory.CleanupUntilDone | cloudhelm/main.py:84-98 | Repeating passes ends, with exactly the retained rows cut to the largest ids |
| MetricCleanup.RetainedUnique | cloudhelm/metrics.py:162-166 | The specification of a finished cleanup determines the table |
| MetricCleanup.RetainedExactly | cloudhelm/metrics.py:154-210 | The finished table row by row: nothing older than the cutoff, and a younger row is missing only below a full cap of larger ids |
| MetricCleanup.BatchesLeast | cloudhelm/metrics.py:175-189 | The number of batches used is the least that covers the rows |
| MetricCleanup.SomePassAsksInVain | cloudhelm/metrics.py:189-190 | A table on which every pass asks again with nothing left to delete |
| Migrations.Database.AddColumns | cloudhelm/db.py:35-50 | In place: adds the missing columns of existing tables |
| Migrations.Database.Start | cloudhelm/db.py:190-212 | In place: one start, stopped after any number of transactions |
| Migrations.ResumeMigrations | cloudhelm/db.py:190-212 | Completing interrupted migrations gives what one uninterrupted run gives |
| Migrations.CrashSafeMigrations | cloudhelm/db.py:190-212 | Any number of stopped starts and one completed start equal one uninterrupted start, executed statements included; a further start changes nothing |
| Migrations.CompletedStartMigrates | cloudhelm/db.py:35-50 | After a completed start every version is recorded, existing columns keep their definition, and exactly the columns pending definitions ask for are added, as the first of them defines each |
| Migrations.StoppedStartsAreSound | cloudhelm/db.py:190-212 | In every state a stop can leave a version newly recorded has its columns, and columns have the definition an uninterrupted start gives |
| Migrations.NoColumnAddedTwice | cloudhelm/db.py:35-50 | Over any interrupted starts no column is added a second time, and those added are exactly the ones that were not there |

## Left out

- HTTP, authentication and permission checks of the handlers, audit rows, scaling events, notifications, error texts and the timestamps no decision reads.
- `delete_service_instance`: rows are never removed; the original refuses it during a release.
- Several services side by side: the model has one service; its ticks read no other one's rows.
- Steps of earlier releases: task ids are fresh, so the search by task id can only meet the active release's steps.
- The agent itself (`cloudhelm_agent`): a dispatched task succeeds or fails at any time; success of an update overwrites the container row.
- One heartbeat with labels is two atomic steps, the container rows and the binding.
- Kubernetes requests: the provider is a replica register with conditional write, a workload image and guard deployments, any call to which may fail; nobody but the release creates or deletes guards.
- Floating point: averages, percentages and rounding up are exact.
- Delegation.ContainmentIsSound: leaves out service scope, which only administrators grant; the inventory is fixed during delegation runs.
- Handlers.ReportBusinessLoad: the credential check and the special address classes are one set of networks a report may come from.
- Handlers.BindLabel: binds one label; the grouping of a heartbeat's labels, which skips a name several containers carry, is not modelled.
- Handlers.UpdateScalingService: the refusals of a duplicate name and of a binding by anyone but an administrator are not modelled.
- Console.CreateAgentAction: leaves out the permission checks of the handler.
- MetricCleanup.MetricHistory.CleanupUntilDone: fixes the cutoff, which the monitor computes anew before each pass.
- Migrations.Database.Start: creating the migration table is no step of its own; a start stopped before it leaves what a start stopped just after it leaves, no version recorded.
- Advisory locks of the cleanup, database backups and integrity checks around migrations.
- WeCom sign-in, callback cryptography, sessions, probes and front ends.
- Reading alert values from heartbeats, recipients and retention of alert events: not modelled.
