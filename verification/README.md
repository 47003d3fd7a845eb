# Verified model of commentToFix's backend

commentToFix turns `@agent` comments on a live page into preview deployments and, once an approver
says so, into a pull request. Its backend promises at-least-once delivery with an exactly-once
effect, no lost and no resurrected asks, previews that carry their lineage, and that nobody ships a
sha nobody reviewed. No single function establishes any of these. This project models the backend
and proves them about every run.

## How it is modelled

The server is one asyncio event loop, so a segment of code between two awaits is atomic.
`Protocol` is a step system whose steps are exactly those segments: a comment, an explicit cancel,
an approval, a dead-letter replay, a claim, a heartbeat, the clock, each phase of a handler,
recording, a worker's unwinding, failure, deadline, a vanished worker, the janitor's sweep, each
segment of the PR flow, and a process restart. What users, the launcher, the PR service and the
clock do is a choice of step, so a theorem about all step sequences covers all interleavings.

The stateful components are classes that update their tables in place, as the source's do. Every
update of `TaskTable.TaskRepo` is proved equal to a guarded row function, and every segment of
`Runtime.AgentRunner` is proved to change the whole system exactly as the step it implements
(`World(now) == Protocol.X(old(World(now)), ...)`); the theorems are then about the steps. The step
functions themselves carry no contract: what they guarantee is what the theorems say.

| file | contents |
|---|---|
| Domain.dfy | threads, comments, iterations, tasks, permissions, status sets |
| TaskTable.dfy | the task table: guarded transitions, ordered queries, `TaskRepo` |
| Protocol.dfy | the step system and its runs |
| Safety.dfy | the invariant of every run, restarts and unrestricted replays included |
| Journal.dfy | each step as a list of task-table operations |
| Evolution.dfy | what each step may say on a thread |
| Conservation.dfy | delivery ledger, conservation of asks, no resurrection, exactly-once effect |
| Lifecycle.dfy | the invariant of crash-free runs with guarded replays |
| Guarantees.dfy | one writer, approval and PR flow, replay guard, comments and the cutoff |
| Effects.dfy | what each operation leaves on its thread, case by case |
| Recovery.dfy | histories of all runs, resumed PR flows, the boot sweep |
| Cutoff.dfy | what stops a committed handler, over every step |
| Asks.dfy | no stranded ask, and when `cancel_run` strands one |
| Leases.dfy | the janitor, live handlers and the worker pool |
| Quiescence.dfy | only finitely many task transitions remain |
| Order.dfy | comments stay in log order, so keys are the newest comments |
| Branching.dfy | which sha each iteration of a run branched off |
| Lineage.dfy | base resolution, the iteration tree, the patch store, what is rendered |
| Events.dfy | broker, bounded ring and SSE generator against one unbounded log |
| RateLimiter.dfy | the sliding-window limiter |
| Runtime.dfy | the components as they run |
| Limits.dfy | concrete runs outside the premises, and the exact lease condition |

## Premises

- Ids are positions in append-only tables, which is the freshness of generated ids. A new preview
  sha differs from every stored sha, every base sha and the main sha (`FreshSha`).
- The clock is monotone, in whole milliseconds. The one timing assumption is `Timely`: the clock
  advances only while every live handler's last heartbeat is at most one interval plus
  `lateMs` old. `ConfigOk` says that a beat so late still lands inside the lease, and that
  `max_attempts >= 1`. `Limits.LeasesHoldIff` proves that `ConfigOk` is exactly what lease safety needs.
- A failing handler and its worker's unwinding are one step, and `add_iteration`'s two updates are
  one. A handler that returned and whose worker has not resumed is a separate state (`Finished`):
  its row still says RUNNING.
- Deploying and recording are two steps although no await separates them, so other segments may
  fall between them. That only adds runs.
- The launcher reports ANALYZING in the handler's first segment, as the shipped one does.
- A restart happens at an await point. Safety, Conservation, Order, Recovery, Leases, Quiescence
  and Lineage hold with restarts and unrestricted replays. Effects is about single operations, in
  any world unless it says otherwise. Lifecycle, Guarantees, Cutoff, Asks and Branching are about
  crash-free runs in which a replay satisfies `ReplayGuard`: the thread is not in flight, not
  closed, and no newer row of it is RUNNING.
- Narrations are taken to mention `@agent`, as some do; only the `system` flag keeps them out of
  the bookkeeping.

## What does not hold as promised

Each has its exact condition and a concrete run that leaves it.

- Replaying a dead letter sets the status whatever the thread is doing. It keeps one writer per
  thread, the statuses and the PR flow if and only if `ReplayGuard` holds
  (`Guarantees.ReplayIffGuard`, `Limits.UnguardedReplayMakesTwoWriters`).
- `cancel_run` returns a thread to rest without a drain. An ask that was waiting for the drain is
  then pending on a resting thread, if and only if `_pending_comment_ids` was not empty at the call
  (`Asks.CancelRunStrandsIff`, `Limits.CancelRunStrandsWaitingAsk`). It is neither covered nor
  dropped: the next drain of the thread takes it (`Asks.DrainTakesEveryPendingAsk`).
- The heartbeat interval never falls below 0.5 s. Some lateness is tolerable if and only if the
  lease is at least 500 ms (`Leases.LeaseFitsHeartbeatIff`); under a shorter lease punctual
  heartbeats still let the janitor requeue a live handler's row (`Limits.ShortLeaseReclaimsLiveHandler`).
- The event replay promises a reset whenever the gap cannot be verified. A client whose id is ahead
  of this process's ids gets an empty replay and no reset as soon as the ring is not empty, and a
  broker with `history = 0` skips silently (`Events.LosslessIff`, `Limits.StaleClientGetsNoReset`,
  `Limits.EmptyRingSkipsSilently`).

Code and comments disagree in two places, and the model follows the code. The comment on
`_pending_comment_ids` speaks of comments no live task covers, while the code leaves out those any
task ever covered, cancelled tasks included. The comment on `replay_since` promises a reset for
a fresh process, which the code gives only while its ring is empty.

## Model

| member | source | states |
|---|---|---|
| Domain.Dedup | backend/agent/runner.py:114 | combined asks keep every comment, each once |
| TaskTable.NewestActive | backend/db/repos.py:193-198 | the active row with the latest creation, ties by rowid; None iff the thread has none |
| TaskTable.OldestQueued | backend/db/repos.py:211-216 | the queued row first in line; None iff nothing is queued |
| TaskTable.ExpiredIds | backend/db/repos.py:259-263 | every running row with a lapsed lease, each once, and no other |
| TaskTable.SweepIsComplete | backend/db/repos.py:258-268 | after a sweep no running row is behind the clock, and only rows that were have changed, to QUEUED or DLQ |
| TaskTable.TaskRepo.Enqueue | backend/db/repos.py:186-191 | one fresh queued row is appended |
| TaskTable.TaskRepo.ActiveForThread | backend/db/repos.py:193-198 | answers the thread's newest active task |
| TaskTable.TaskRepo.CoalesceComment | backend/db/repos.py:200-208 | adds the comment iff the row is QUEUED, and reports it |
| TaskTable.TaskRepo.ClaimNext | backend/db/repos.py:210-226 | claims the first queued row: RUNNING, owner, attempt counted, lease from now; no other row changes |
| TaskTable.TaskRepo.Heartbeat | backend/db/repos.py:228-234 | extends the lease iff the row is RUNNING under this worker |
| TaskTable.TaskRepo.Complete | backend/db/repos.py:236-240 | DONE iff it was RUNNING, whoever holds it |
| TaskTable.TaskRepo.Cancel | backend/db/repos.py:242-245 | CANCELLED iff it was queued or running |
| TaskTable.TaskRepo.Fail | backend/db/repos.py:247-256 | requeued, or dead-lettered once attempts are used up, iff it was RUNNING; the answer is computed before the swap |
| TaskTable.TaskRepo.ReapExpired | backend/db/repos.py:258-268 | fails exactly the expired rows in place and reports each once with its true new state |
| TaskTable.TaskRepo.RequeueFromDlq | backend/db/repos.py:270-276 | DLQ only: back to QUEUED with a fresh budget |
| TaskTable.TaskRepo.CoveredCommentIds | backend/db/repos.py:278-286 | exactly the comments any task of the thread ever covered, in any state |
| Protocol.PendingIds | backend/agent/runner.py:357-365 | exactly the user's @agent comments no iteration addressed and no task covered, each once and oldest first |
| Protocol.OwnerOf | backend/db/repos.py:120-124 | a thread that deployed the sha, or None iff none did |
| Safety.StepKeeps | backend/agent/runner.py:76-443 | every step keeps the joint invariant of rows, handlers, comments and iterations |
| Safety.RunKeeps | backend/agent/runner.py:76-443 | so every run does, restarts and any replay included |
| Safety.InterruptKeeps | backend/agent/runner.py:110-119 | combining loses no ask and repeats none: the combined list is the old one and the new comment |
| Safety.AddressedIsApplied | backend/agent/runner.py:278-285 | an iteration that holds a task's key holds all its comments, so skipping redelivered work drops none |
| Safety.ReapSparesTheLiving | backend/agent/queue.py:208-227 | a live handler's row is never expired |
| Journal.StepDoes | backend/db/repos.py:186-276 | what each step does to the task table is a legal sequence of guarded row operations and nothing else |
| Journal.SubmitAlwaysSubmits | backend/agent/runner.py:404-416 | the duplicate guard never swallows a submission whose newest comment no task has covered |
| Conservation.DeliveryLedger | backend/db/repos.py:210-276 | total claims = attempts + max_attempts x replays for every task; queued, running and dead rows keep their attempt bounds |
| Conservation.ConservationOfAsks | backend/agent/runner.py:97-128 | in every run each ask is uncovered, in exactly one task that is not cancelled, or dropped by cancel_run; comment lists are disjoint and duplicate-free |
| Conservation.OnlyCancelRunDrops | backend/agent/runner.py:236-259 | an operation that drops asks is a permitted cancel_run stopping the active task |
| Conservation.NoResurrection | backend/agent/runner.py:236-259 | a comment of a task stopped by cancel_run is in no later task, whatever follows, and that row stays cancelled |
| Conservation.CoverageOnlyGrows | backend/db/repos.py:278-286 | covered comments stay covered and cancelled is absorbing, over every run |
| Conservation.ExactlyOnceEffect | backend/agent/runner.py:274-305 | over every run, the key of an iteration occurs in no earlier iteration of its thread |
| Conservation.NoTwoIterationsShareAKey | backend/agent/models.py:88-93 | from the empty system, no two iterations of a thread share an idempotency key |
| Order.StepAscends | backend/agent/runner.py:404-416 | every step keeps each task's comments in log order, through coalescing, combining and drains |
| Order.TaskKeyIsNewest | backend/agent/models.py:88-93 | in every run a task's key is the newest comment it addresses |
| Order.IterationKeyIsNewest | backend/agent/models.py:88-93 | and so is the key of every iteration |
| Conservation.DoneMeansRecorded | backend/agent/queue.py:165-168 | every comment of a DONE task is in one recorded iteration |
| Lifecycle.StepCalm | backend/agent/runner.py:76-305 | every crash-free step with guarded replay keeps one writer, tracking statuses and one PR flow |
| Lifecycle.RunCalm | backend/agent/runner.py:76-305 | so every such run does |
| Guarantees.OneWriterPerThread | backend/agent/runner.py:89-128 | at most one task is queued or running and unrecorded, exactly while the thread is in flight, and it is the active task |
| Guarantees.NoIterationOnClosedThread | backend/agent/runner.py:335-353 | an iteration is recorded only on a thread that is DEPLOYING |
| Guarantees.FlowWasApproved | backend/agent/runner.py:132-154 | every PR flow was started by an approver naming the sha the flow carries |
| Guarantees.ShippedShaWasApproved | backend/agent/runner.py:132-154 | the preview of a DONE thread is the sha an approver named, merged by that approval's flow |
| Guarantees.SinglePrFlow | backend/agent/runner.py:156-210 | one flow per thread; MERGED only after its merge returned, DONE only right after MERGED |
| Guarantees.FailedOpenReverts | backend/agent/runner.py:160-171 | a failed open returns to the approved preview with no flow left |
| Guarantees.RacingApprovals | backend/db/repos.py:134-144 | however many approvals race, one flow starts and the rest change nothing |
| Guarantees.ReplayIffGuard | backend/agent/runner.py:263-270 | a replay keeps the crash-free promises iff its guard holds |
| Guarantees.CommentsRespectTheCutoff | backend/agent/runner.py:97-125 | a comment leaves a committed handler and its row untouched; before the cutoff it stops the handler iff it is an @agent comment on its thread |
| Guarantees.SnapshotIsRow | backend/db/repos.py:200-208 | a handler's snapshot of comment ids equals its row for as long as it runs |
| Effects.ClosedTakesNoComment | backend/comments/service.py:56-63 | a comment on a thread at PR_OPEN, MERGED, DONE or CANCELLED changes nothing |
| Effects.PlainCommentOnlyJoinsTheLog | backend/agent/runner.py:76-81 | a comment without @agent joins the log and does nothing else |
| Effects.AskStartsTask | backend/agent/runner.py:127-128 | an ask on an OPEN, PREVIEW_READY or FAILED thread is a new queued task at once |
| Effects.AskJoinsWork | backend/agent/runner.py:97-125 | an ask joins a waiting task, replaces one before the cutoff by the combination, leaves a committed one alone |
| Effects.StalePreviewIsRejected | backend/comments/service.py:67-76 | a comment from a preview whose threads are over opens nothing |
| Effects.OpensOnTheCapturedSha | backend/comments/service.py:65-86 | a new thread's base is the captured sha or the main sha, its first comment the one posted |
| Effects.CancelRunReturnsToLastPreview | backend/agent/runner.py:246-259 | a cancelled run leaves PREVIEW_READY if the thread has an iteration and OPEN otherwise; preview, iterations and flows stay |
| Effects.CancelRunNeedsARun | backend/agent/runner.py:243-248 | a viewer's cancel, or one with nothing in flight, changes nothing |
| Effects.CancelledPreviewCanBeApproved | backend/agent/runner.py:249-259 | in every run the preview a cancelled run leaves can be approved at once |
| Effects.ApprovalTakesEffectIff | backend/agent/runner.py:132-154 | an approval starts a flow iff an approver names the current preview at PREVIEW_READY; otherwise nothing changes |
| Effects.DrainOutcome | backend/agent/runner.py:367-377 | a drain spares threads that are over or FAILED; elsewhere one queued task takes exactly the pending asks |
| Effects.RecordShowsThePreview | backend/agent/runner.py:335-353 | the recorded iteration is the handler's, its sha the preview, the status PREVIEW_READY, and only then a drain |
| Effects.RedeliveryOnlyRepairs | backend/agent/runner.py:278-286 | applied work adds no iteration: the status is repaired and asks are drained |
| Effects.StartBeginsWork | backend/agent/runner.py:287-303 | other work begins at ANALYZING off the resolved base, announced when it is not the newest sha |
| Effects.BeatRenews | backend/db/repos.py:228-234 | a beat of a live handler renews its lease in full |
| Effects.FlowTells | backend/agent/runner.py:172-205 | opening records the given PR; CI and a failed merge only narrate, the status stays |
| Effects.FailedOpenOutcome | backend/agent/runner.py:160-171 | a failed first open goes back to the preview unless the thread moved on; a failed reopening leaves the thread |
| Effects.LandingIsDone | backend/agent/runner.py:206-210 | landing adds MERGED and DONE to the history, in that order |
| Recovery.StepChronicled | backend/db/repos.py:130-149 | every step keeps each history ending at the status and each DONE right after MERGED |
| Recovery.DoneComesFromMerged | backend/agent/runner.py:189-232 | in every run, restarts and any replay included, DONE comes right after MERGED |
| Recovery.ResumeContinues | backend/agent/runner.py:212-232 | a recorded PR goes on to CI with the status kept, an unrecorded one is opened again, a merged one is rolled out |
| Recovery.RestartResumesFlows | backend/agent/runner.py:379-391 | after a restart a frozen thread is untouched with exactly one flow resuming it, and no other thread has a live flow |
| Recovery.RestartTendsEveryThread | backend/agent/runner.py:392-399 | after a restart an ask is pending only on a thread that is over, FAILED or has an active task |
| Cutoff.StatusTracksHandler | backend/agent/agent.py:32-49 | the status names the phase of the thread's one live handler |
| Cutoff.CommittedStopsOnlyBy | backend/agent/queue.py:119-125 | over every step, a coding or deploying handler is stopped only by its own end or cancel_run |
| Asks.NoStrandedAsk | backend/agent/runner.py:300-305 | without cancel_run no thread at rest has a pending ask |
| Asks.PrOpensWithEveryAskPlaced | backend/agent/runner.py:367-377 | when a PR opens every ask is in an iteration or in a dead-lettered task |
| Asks.CancelRunStrandsIff | backend/agent/runner.py:236-259 | cancel_run leaves an ask pending at rest iff the drain had one to take |
| Asks.DrainTakesEveryPendingAsk | backend/agent/runner.py:367-377 | a drain puts every pending ask in one new queued task and leaves none pending |
| Leases.LeaseMutualExclusion | backend/agent/queue.py:141-155 | in every run live handlers hold their leases and never outnumber the workers |
| Leases.SweepSparesTheLiving | backend/agent/queue.py:215-227 | the janitor sweeps the whole table and touches no live handler or its row |
| Leases.ClaimFindsNoHandler | backend/agent/queue.py:155-157 | a claimed row has no live handler, so each task has at most one |
| Leases.FailAnswersTruly | backend/agent/queue.py:169-181 | the outcome a failing handler surfaces is its row's new state |
| Leases.LeaseFitsHeartbeatIff | backend/agent/queue.py:208-213 | some heartbeat lateness is tolerable iff the lease is at least 500 ms |
| Limits.LeasesHoldIff | backend/agent/queue.py:208-227 | lease safety of all runs holds iff a beat as late as allowed still lands in the lease |
| Limits.ShortLeaseReclaimsLiveHandler | backend/agent/queue.py:208-227 | a run with a 0.3 s lease in which a punctual handler's row is requeued |
| Limits.UnguardedReplayMakesTwoWriters | backend/agent/runner.py:263-270 | a run in which a replay puts two tasks of one thread in line |
| Limits.CancelRunStrandsWaitingAsk | backend/agent/runner.py:236-259 | a run in which cancel_run leaves an ask pending on an OPEN thread with no task |
| Limits.EmptyRingSkipsSilently | backend/pubsub.py:17-20 | with no history an event is skipped without a reset |
| Limits.StaleClientGetsNoReset | backend/pubsub.py:38-47 | a client ahead of the process's ids gets no reset |
| Quiescence.QuietStepSpends | backend/db/repos.py:210-268 | every effective claim, completion, failure, reap or cancel spends the measure, and a drain pays with a waiting ask |
| Quiescence.OnlyFinitelyManyTransitions | backend/agent/runner.py:367-377 | with no new comment or replay at most the measure's worth of transitions remain |
| PreviewLineage.LatestCaptureIsNewest | backend/agent/runner.py:320-324 | the reverse scan finds the newest non-empty capture of the task's user comments |
| PreviewLineage.BaseResolution | backend/agent/runner.py:318-333 | the newest captured sha if an iteration of the thread deployed it; otherwise the newest iteration's sha, or the base of a thread without one |
| Branching.StepKeepsBranches | backend/agent/runner.py:287-304 | every crash-free step keeps every iteration and handler on the branch point its asks picked |
| Branching.FixBuildsOn | backend/agent/runner.py:307-333 | an iteration that picked no preview stores the previous one's patches and its own; one that picked a preview stores that preview's and its own |
| PreviewLineage.ParentIsInTree | backend/agent/runner.py:307-333 | always the thread's base or one of its iterations |
| PreviewLineage.StepKeepsLineage | backend/db/repos.py:151-159 | every step keeps a tree rooted at the base, the newest iteration as preview, and patches stored incrementally |
| PreviewLineage.PreviewAgreement | backend/agent/integrations.py:60-65 | every preview's patches are the base's followed by those on its root path, forks included |
| PreviewLineage.JoinedInOrder | backend/routes/previews.py:24-25 | patches are rendered oldest first, each once, with the separator between any two |
| PreviewLineage.RenderedIsTipPath | backend/routes/previews.py:18-25 | the live preview and the PR file render the path to the newest iteration |
| Events.ReplayIsLogSuffix | backend/pubsub.py:38-47 | the ring answers with exactly the log after the client's id, or admits the gap |
| Events.BeginReplays | backend/routes/events.py:54-63 | a client whose missed events the ring holds gets exactly those and no reset |
| Events.BeginResetsIff | backend/pubsub.py:42-47 | a reset is sent iff the ring holds nothing and the client has an id, or its next event was evicted |
| Events.ResetIff | backend/routes/events.py:54-59 | for every interleaving, a reset is in the stream iff one was owed when the replay was computed |
| Events.SparedIff | backend/routes/events.py:25-31 | a page is spared exactly the events of threads neither on it nor previewed on it |
| Events.FilterInOrder | backend/routes/events.py:60-63 | filtering keeps the order and drops exactly the spared events |
| Events.LosslessIff | backend/routes/events.py:52-63 | without a reset the stream continues the client's position, iff it was at the subscription point or behind a ring that holds something |
| Events.LosslessReplay | backend/routes/events.py:43-76 | for an id issued before subscribing: exactly the relevant events after it, no gap or repeat, under any interleaving; reset then tail iff the next event had left the ring when it was consulted |
| Events.MovesOk | backend/routes/events.py:51-76 | every interleaving keeps the frames equal to the filtered log up to the cursor |
| Events.StatusBroker.Subscribe | backend/pubsub.py:22-26 | a fresh empty queue joins the subscribers |
| Events.StatusBroker.Unsubscribe | backend/pubsub.py:28-30 | the queue leaves, nothing else changes |
| Events.StatusBroker.Publish | backend/pubsub.py:32-36 | the event takes the next id, enters the bounded ring and every subscriber's queue |
| Events.StatusBroker.ReplaySince | backend/pubsub.py:38-47 | the ring's events newer than the id, or None |
| Events.StreamGenerator.constructor | backend/routes/events.py:41-43 | subscribes before anything is replayed |
| Events.StreamGenerator.BeginReplay | backend/routes/events.py:54-59 | the first resumption is the machine's Begin |
| Events.StreamGenerator.SendNext | backend/routes/events.py:60-63 | one replayed event is the machine's SendMissed |
| Events.StreamGenerator.TakeNext | backend/routes/events.py:64-73 | one drained event is the machine's Take, behind the watermark |
| Events.StreamGenerator.KeepAlive | backend/routes/events.py:65-69 | a timeout on an empty queue sends only a keepalive |
| Events.PublishUnder | backend/pubsub.py:32-36 | a publish is one move of every generator's machine |
| RateLimiter.RateBound | backend/comments/service.py:23-31 | every closed window holds at most max_events acceptances per key |
| RateLimiter.AcceptedSpreads | backend/comments/service.py:23-31 | any max_events + 1 consecutive acceptances span more than a window |
| RateLimiter.AcceptedUnlessWindowFull | backend/comments/service.py:23-31 | a call is turned away iff the closed window that ends now already holds max_events acceptances |
| RateLimiter.SlidingWindowRateLimiter.Prune | backend/comments/service.py:26-27 | what is left in the queue is exactly the key's acceptances of the last window |
| RateLimiter.SlidingWindowRateLimiter.Allow | backend/comments/service.py:23-31 | answers as if all past acceptances in the last window were counted, though it keeps only a pruned queue |
| Runtime.ThreadRepo.Create | backend/db/repos.py:79-90 | a new OPEN thread with its first history entry |
| Runtime.ThreadRepo.Append | backend/db/repos.py:54-63 | the log gains one comment at its end |
| Runtime.ThreadRepo.SetStatus | backend/db/repos.py:130-132 | unconditional status change, recorded in the history |
| Runtime.ThreadRepo.Transition | backend/db/repos.py:134-144 | moves iff the status is the expected one; otherwise nothing changes |
| Runtime.ThreadRepo.AddIteration | backend/db/repos.py:151-159 | appends the iteration and makes its sha the preview |
| Runtime.ThreadRepo.SetPrUrl | backend/db/repos.py:161-162 | records the PR |
| Runtime.ThreadRepo.AddressedIds | backend/agent/runner.py:361 | exactly the comments some iteration of the thread addressed |
| Runtime.ThreadRepo.ThreadForPreviewSha | backend/db/repos.py:120-124 | answers the thread that deployed the sha |
| Runtime.PatchRepo.Get | backend/db/repos.py:300-305 | the stored patches; None for an unknown sha |
| Runtime.PatchRepo.Put | backend/db/repos.py:307-311 | stores the whole list in order, row by row |
| Runtime.AgentTaskQueue.Cancel | backend/agent/queue.py:119-125 | tombstones the row and cancels a handler that has not returned |
| Runtime.AgentRunner.System | backend/agent/runner.py:447-448 | a narration joins the log and nothing else changes |
| Runtime.AgentRunner.Submit | backend/agent/runner.py:404-416 | changes the whole system as the model's submission |
| Runtime.AgentRunner.PendingCommentIds | backend/agent/runner.py:357-365 | the pending asks in log order |
| Runtime.AgentRunner.DrainPending | backend/agent/runner.py:367-377 | a drain, closed and FAILED threads excepted |
| Runtime.AgentRunner.OnComment | backend/agent/runner.py:76-128 | coalesce, interrupt and combine, queue behind the cutoff, or submit |
| Runtime.AgentRunner.PostComment | backend/comments/service.py:53-86 | a closed thread rejects the comment and nothing changes |
| Runtime.AgentRunner.OpenThread | backend/comments/service.py:65-86 | a stale preview rejects it; otherwise a thread on the captured or main sha |
| Runtime.AgentRunner.CancelRun | backend/agent/runner.py:236-259 | permitted iff the user may comment and an in-flight task exists; stops it and returns to the last preview |
| Runtime.AgentRunner.Approve | backend/agent/runner.py:132-154 | starts a flow iff an approver names the current preview of a PREVIEW_READY thread |
| Runtime.AgentRunner.RequeueFromDlq | backend/agent/runner.py:263-270 | replays a dead letter and sets TRIGGERED |
| Runtime.AgentRunner.Claim | backend/agent/queue.py:141-157 | a worker claims and spawns a handler on a snapshot of the row |
| Runtime.AgentRunner.Heartbeat | backend/agent/queue.py:208-213 | one beat |
| Runtime.AgentRunner.OnTaskOutcome | backend/agent/runner.py:418-435 | a retry shows TRIGGERED, a dead letter FAILED |
| Runtime.AgentRunner.FailRun | backend/agent/queue.py:169-206 | a failed attempt with its worker's unwinding |
| Runtime.AgentRunner.UnwindRun | backend/agent/queue.py:165-206 | completes a returned handler's row, cancels an interrupted one's |
| Runtime.AgentRunner.SurfaceEach | backend/agent/queue.py:220-227 | every reported outcome shows on its thread, in order |
| Runtime.AgentRunner.Sweep | backend/agent/queue.py:215-227 | one janitor round: every expired row failed, each outcome surfaced |
| Runtime.AgentRunner.ResolveParentSha | backend/agent/runner.py:307-333 | the reverse scan computes the resolved base and announces a fork |
| Runtime.AgentRunner.Start | backend/agent/runner.py:274-299 | the handler up to its first await: dedup and repair, or analysis |
| Runtime.AgentRunner.Progress | backend/agent/agent.py:36-41 | a reported phase becomes the status |
| Runtime.AgentRunner.Deploy | backend/agent/integrations.py:60-65 | the parent's patches and the new one under a fresh sha |
| Runtime.AgentRunner.RecordIteration | backend/agent/runner.py:335-353 | the iteration, the preview, PREVIEW_READY, then the drain |
| Runtime.AgentRunner.PrOpened | backend/agent/runner.py:172-187 | the PR is recorded and CI awaited |
| Runtime.AgentRunner.PrOpenFailed | backend/agent/runner.py:160-171 | back to the preview unless the thread moved on |
| Runtime.AgentRunner.ReopenFailed | backend/agent/runner.py:221-226 | a resumed open that raises ends the flow and leaves the thread |
| Runtime.AgentRunner.CiPassed | backend/agent/runner.py:192-196 | narrates and goes on to merge |
| Runtime.AgentRunner.MergeFailed | backend/agent/runner.py:197-205 | the PR stays open and the status stays |
| Runtime.AgentRunner.PrMerged | backend/agent/runner.py:206-210 | MERGED, then DONE |
| Runtime.AgentRunner.ResumePrFlow | backend/agent/runner.py:212-232 | continues from the status and URL the crash left |
| Runtime.AgentRunner.RecoverOne | backend/agent/runner.py:386-399 | one thread of the boot sweep: resume its flow, leave it to its active task, or drain it |
| Runtime.AgentRunner.Recover | backend/agent/runner.py:379-400 | the boot sweep, thread by thread, resuming flows and resubmitting drains |

## Left out

- The infinite worker, heartbeat and janitor loops: each round is a step and a method; `poll_s` wakeups and any liveness are not modelled.
- TaskTable.TaskRepo.ClaimNext: not the retry when another process wins the row between query and update; there is one process.
- Runtime.AgentRunner.OnComment: not the fall-through when a coalesce misses its compare-and-swap; within one segment it cannot.
- Crashes between two SQL statements of one segment, for example between cancelling a task and submitting the combined one; the code does not recover from all of these.
- A deadline that fires after an interrupt and before the interrupted handler unwinds; the code then surfaces a failure for a row already cancelled.
- Launchers that report phases out of order or swallow cancellation; `backend/agent/launchers` is otherwise any choice of patch, exception, silence or hang.
- A sha that several threads deployed, some over and some not: fresh shas exclude it.
- Graceful shutdown, which leaves the rows as a crash does; the restart step covers it.
- `publish_state`'s broadcast: the runner's status changes are not wired to the broker, which is modelled on its own with arbitrary payloads.
- Narration texts, quoted asks and notes; of a narration only its place in the log is kept.
- `mentions_agent`, text, target and capture validation and redaction: the mention is a flag on a comment.
- Route-level authentication and permissions, HTTP status codes and schemas, beyond the permission checks of the runner itself.
- GitHub HTTP calls; of `backend/agent/github.py` only the css body of the committed file is modelled, without its header comment.
- SQLite, migrations, JSON columns, statsd, logging, middleware and configuration.
- The rate limiter keeps its times as reals, without floating-point rounding; user ids are numbers.
- The frontend.
