# Threads platform: verified protocols

A Dafny model of the parts of the platform where several operations must agree with each other, and proofs of what
they promise together.

* **WorkerJobs** (`Prelude`, `Commands`, `WorkerJobs`, `CapabilityRouter`, `Platform`, `JobSteps`, `JobService`,
  `WorkerControl`). The lease, fencing, cancellation and preemption protocol between the controller, its workers and
  the operators. `Platform` holds the durable tables with the queries and constraints of the repositories. `JobSteps`
  gives every public service method as one atomic step: the new tables, or the error that rolls the transaction back.
  `JobService` and the classes `WorkerJob` and `Command` are the imperative code, proved to do exactly those steps.
* **Its proofs.** `JobInvariants` states one inductive invariant, part by part. `JobProofs`, `HolderProofs`,
  `SchedulerProofs` and `ClaimProofs` show that every call keeps it. `JobHistory` shows what a call can do to the past:
  each change of a row has a cause that was entitled to it. `JobRuns` defines runs (any calls by anyone, at
  non-decreasing times, with the accounts, assignments, routes and activities of other services arbitrary at every
  step). `JobTheorems`, `JobOutcomes`, `RecoveryOutcomes`, `Stranded` and
  `StrandedRun` hold the results. `EnqueueMeanings`, `ClaimMeanings`, `HolderMeanings`, `OperatorMeanings` and
  `ControlMeanings` say of every call when it is accepted and what each field of each row is afterwards, without
  mentioning the steps.
* **The mutation journal** (`JsonText`, `Journal`, `JournalCodec`, `OperationStore`, `Publishing`, `CrashSafety`,
  `DepthScanner`, `JsonDepth`). The write-ahead journal that makes non-idempotent publishes crash safe. The runtime leaves an event
  for every durable write and every remote request and answer; a crash is a cut of that trace at any point.
* **Schedules** (`Recurrence`, `RecurrenceRuns`, `ScheduleMeanings`, `ConversationSync`, `SyncRuns`, `SyncMeanings`). Fixed-interval cursors, the bounded
  generation loop, materialisation into Commands, and the coalescing dispatch of conversation syncs, each with its runs
  from empty tables.

Modelling decisions:

* One service call is one serial transaction. The clock never goes back. An exception is a `Failure`, and the tables
  stay as they were.
* Database constraints are part of the code: primary keys, one job per Command, unique lease tokens and attempt
  numbers are `UniqueViolation`, the CHECK constraints of `worker_jobs` and `worker_nodes` are `CheckViolation`.
* Attempts, cancel requests and interventions are identified by their position in their job; other ids are numbers.
  Times are integers in microseconds. JSON documents of jobs and Commands are opaque.
* Rows that a query returns under a lock are listed by a parameter where their choice does not matter (recovery,
  materialisation and dispatch batches), and computed where it does (the claim listing).

Two things the code does not do, each with the exact condition and a witness:

* "A job is scheduled before its deadline" is broken by `fail` in one case (`WorkerJobs.FailKeepsScheduleBeforeDeadline`,
  `WorkerJobs.FailCanMissDeadline`). The table's CHECK then refuses the write, so the worker's report is rolled back
  (`HolderProofs.FailKeeps`); this and nothing else meets a defect of the stored rows (`JobTheorems.NoDefects`), and a
  run of four calls gets there (`StrandedRun.ReportCanBeRefused`).
* "A waiting preemption has a victim that can still stop" is broken by recovery and by a closing resolution, and by
  nothing else (`Stranded.RecoveryStrands`, `Stranded.ResolutionStrands`, `Stranded.StrandedExactlyBy`). If the preemptor
  has no deadline, no browser job of that account ever runs again (`Stranded.StrandedForever`); if it has one, recovery
  releases it once that has passed (`Stranded.DeadlineReleases`). A run of eight calls gets there
  (`StrandedRun.WaitersCanBeStranded`).

## Model

| member | source | states |
|---|---|---|
| `JobTheorems.BrowserExclusion` | src/threads_platform/application/worker_jobs.py:434-486 | in every reachable state an account has at most one RUNNING browser job, its waiting preemptions name one victim which is the only browser job that can run, and every waiting preemptor is QUEUED and never started |
| `JobTheorems.GateOpensForVictimOnly` | src/threads_platform/application/worker_jobs.py:1135-1176 | while a preemption waits, the browser gate of its account admits a listed job if and only if it is the victim |
| `JobTheorems.SatisfiedOnlyByProof` | src/threads_platform/application/worker_jobs.py:1063-1071 | in every run that satisfies a preemption there is the one event that did: an accepted call in which the victim's current holder gives up an unexpired lease, while the row still waits and its preemptor has never started |
| `JobTheorems.NoStartOnAssumedStop` | src/threads_platform/application/worker_jobs.py:1150-1176 | every row by which a started preemptor ever waited was satisfied by such an event, before the preemptor's first attempt |
| `JobTheorems.ReconciledClaimsAreConfirmed` | src/threads_platform/domain/worker_jobs.py:256-308 | RECONCILIATION_REQUIRED is never left, and over every run the claims of such a job exceed its budget by at most the operator-confirmed requeues |
| `JobTheorems.BornReconciled` | src/threads_platform/domain/worker_jobs.py:425-455 | a job enqueued that way is claimed at most once more often than it was confirmed |
| `JobTheorems.NeverStartedEarly` | src/threads_platform/application/worker_jobs.py:143-250 | in every run a job has an attempt only once the start it was enqueued for has come, the one asked for or the moment of enqueueing |
| `JobTheorems.OldTokensAreDead` | src/threads_platform/domain/worker_jobs.py:310-317 | once a newer token was issued, every holder call under an older one fails and changes nothing, in every continuation of the run |
| `JobTheorems.OneLiveExclusivePerAccount` | src/threads_platform/application/worker_jobs.py:954-970 | a job is live and exclusive if and only if it holds its account's lease; both leases end together, generations agree, and no second exclusive job of the account is live |
| `JobTheorems.PendingCancelIsCurrent` | src/threads_platform/application/worker_jobs.py:403-432 | generations are consecutive; only the newest request can be pending, only while the job runs, for exactly the running attempt |
| `JobTheorems.OldRequestsAreDead` | src/threads_platform/application/worker_jobs.py:516-528 | a request that is not the newest pending one can never be acknowledged again, in any continuation |
| `JobTheorems.Lockstep` | src/threads_platform/application/worker_jobs.py:1296-1346 | RUNNING iff exactly the last attempt runs; WAITING_INTERVENTION iff exactly the last intervention is open; the last attempt ended as the job did; the Command's status follows the job's, with exactly one result event once the job ended and none before |
| `JobTheorems.NoDefects` | src/threads_platform/application/worker_jobs.py:1320-1346 | a service call from a reachable state meets missing rows, a Command state conflict, an invalid Command transition or a refused write if and only if it is the holder's report of a failure whose retry would start past the deadline |
| `JobTheorems.ResultsAreFinal` | src/threads_platform/domain/commands.py:42-73 | a finished Command and its one result event never change again |
| `JobTheorems.EndedJobsAreFrozen` | src/threads_platform/domain/worker_jobs.py:256-308 | an ended job and its attempts never change again |
| `JobTheorems.HistoryOnlyGrows` | src/threads_platform/infrastructure/persistence/repositories.py:3348-3458 | over every run attempts and cancel requests are only appended; numbers, workers, tokens, generations and targets are fixed, and so is every finished row |
| `JobTheorems.OffWorkersOnlyLoseJobs` | src/threads_platform/application/worker_control.py:447-480 | while a worker is DRAINING, or anything but ONLINE, the set of RUNNING jobs it holds only shrinks, across all other calls |
| `JobTheorems.DrainedHoldsNothing` | src/threads_platform/application/worker_control.py:501-529 | after complete_drain a worker holds no job until it is ONLINE again |
| `JobTheorems.DrainingIsNotLeftForOnline` | src/threads_platform/application/worker_control.py:362-366 | no single call takes a DRAINING worker to ONLINE |
| `JobOutcomes.StopOutcome` | src/threads_platform/application/worker_jobs.py:564-718 | after an accepted completion, failure, intervention or acknowledgement every field of the job, its last attempt, its requests, its intervention, its Command and the result event is given; nobody waits for the job, and it holds no account lease |
| `JobOutcomes.FailureMeans` | src/threads_platform/application/worker_jobs.py:597-661 | after an accepted report of a failure: when an operator must decide, when the job is retried and when it is over, each if and only if; the open intervention, the Command and its one result event follow, and a doubtful outcome is remembered |
| `HolderMeanings.CompleteMeans` | src/threads_platform/application/worker_jobs.py:564-595 | a completion is accepted if and only if the caller holds an unexpired lease; job, attempt, requests, waiters, account lease, Command and result event are given field by field, and nothing else moves |
| `HolderMeanings.FailAccepted` | src/threads_platform/application/worker_jobs.py:597-661 | a failure report is accepted if and only if the caller holds the lease, gives a code, and a retry would not start past the deadline |
| `HolderMeanings.FailMeans` | src/threads_platform/application/worker_jobs.py:597-661 | what an accepted failure report stores, field by field: error code, status, retry time, attempt, kind of intervention, Command and result event |
| `HolderMeanings.RequestInterventionMeans` | src/threads_platform/application/worker_jobs.py:663-718 | accepted if and only if the caller holds the lease and the kind is known; job, attempt, intervention and Command field by field |
| `HolderMeanings.RenewMeans` | src/threads_platform/application/worker_jobs.py:350-360 | accepted if and only if the caller holds the lease; job and account lease then end exactly one lease duration from now, and nothing else moves |
| `HolderMeanings.SaveCheckpointMeans` | src/threads_platform/application/worker_jobs.py:362-378 | accepted if and only if the caller holds the lease; then only the checkpoint changes, to the one given |
| `HolderMeanings.AcknowledgeMeans` | src/threads_platform/application/worker_jobs.py:488-562 | accepted if and only if the holder acknowledges the newest pending request at a safe phase that its stored checkpoint shows, for a preemptible READ job of a materialised activity; what is stored, field by field |
| `HolderMeanings.RequestCancelMeans` | src/threads_platform/application/worker_jobs.py:380-432 | accepted if and only if the reason is a code and the job can be asked; then there is one pending request for the running attempt, the old one or one of the next generation, and nothing else moves |
| `OperatorMeanings.ResolveMeans` | src/threads_platform/application/worker_jobs.py:720-782 | accepted if and only if that intervention is open and, to be requeued, the job is in time, has an attempt left and is safe or confirmed; requeued or closed row, intervention, Command and result event field by field |
| `RecoveryOutcomes.RecoveryMeans` | src/threads_platform/application/worker_jobs.py:807-872 | recovery never fails; it expires, finally fails or suspends a job by the first reason that applies, and leaves nothing to recover |
| `RecoveryOutcomes.RecoverySettles` | src/threads_platform/application/worker_jobs.py:795-892 | one recovery pass settles every job of its batch |
| `RecoveryOutcomes.RecoveryEnds` | src/threads_platform/application/worker_jobs.py:795-892 | one recovery pass ends a job if and only if it is in the batch, recoverable, and past its deadline or out of attempts |
| `RecoveryOutcomes.RecoveryDrops` | src/threads_platform/application/worker_jobs.py:807-848 | one recovery pass drops a waiting preemption if and only if it ends its preemptor |
| `OperatorMeanings.RecoverOneMeans` | src/threads_platform/application/worker_jobs.py:807-872 | what recovering one job leaves, field by field: job, attempt, requests, interventions, its own account lease, the rows by which it waited, Command and result event |
| `OperatorMeanings.RecoveryTouches` | src/threads_platform/application/worker_jobs.py:795-892 | a recovery pass never fails, does that to exactly the jobs of its batch that are late, out of attempts, or lost on an attempt nobody may repeat, and changes no other job |
| `JobOutcomes.ClaimTakesFirst` | src/threads_platform/application/worker_jobs.py:284-345 | the claim loop takes the first listed candidate that policy, gate and account lease allow, through one claim step, or none is allowed and nothing changes; `ClaimMeanings.ClaimNextMeans` says which one that is and what it leaves |
| `ClaimMeanings.ClaimNextMeans` | src/threads_platform/application/worker_jobs.py:276-348 | a poll fails if and only if the worker is unknown or not served; with room and a job among the first fifty ready ones that can be taken, it takes the one with the highest priority, then the earliest start, then the earliest creation, then the smallest id, and job, attempts, requests, account lease and waiters are given field by field; otherwise it changes nothing |
| `ClaimMeanings.ListingMeans` | src/threads_platform/infrastructure/persistence/repositories.py:3023-3120 | the listing holds exactly the ready jobs with fewer than fifty ready jobs ahead of them, each at its place in line, and is empty for a worker without room |
| `ClaimMeanings.PolicyMeans` | src/threads_platform/application/worker_jobs.py:1091-1133 | what the policy check at claim time asks of account, worker, Command, route and policy |
| `ClaimMeanings.GateMeans` | src/threads_platform/application/worker_jobs.py:1135-1176 | a ready browser job passes the gate if and only if no other browser job of the account runs, every waiting preemption is its own to answer, and without any it comes first among the ready browser jobs of the account |
| `ClaimMeanings.ClaimFitsRoom` | src/threads_platform/application/worker_jobs.py:276-348 | a claim never leaves a worker with more live jobs than it may have |
| `JobOutcomes.TakeGrants` | src/threads_platform/application/worker_jobs.py:303-335 | a taken job belongs to the claiming worker under the new token for exactly one lease duration, and its account lease for that time |
| `JobOutcomes.RenewGrants` | src/threads_platform/application/worker_jobs.py:350-360 | a renewal lets the holder act for exactly one more lease duration, with the account lease for that time |
| `JobOutcomes.EnqueuePreempts` | src/threads_platform/application/worker_jobs.py:434-486 | a new high-priority browser job waits for the running browser job of its account and has its holder asked to stop whenever it can be asked |
| `JobOutcomes.UrgentJobPreempts` | src/threads_platform/application/worker_jobs.py:434-486 | the same in terms of stored rows: the new job waits for every less urgent running browser job of its account, whose holder is asked whenever the job is preemptible, cancellable, live and of a materialised activity |
| `Stranded.RecoveryStrands` | src/threads_platform/application/worker_jobs.py:795-892 | a recovery pass over any batch leaves a waiter waiting for an ended job if and only if the victim is in the batch, recoverable, and past its deadline or out of attempts, and the same pass does not end the waiter |
| `Stranded.ResolutionStrands` | src/threads_platform/application/worker_jobs.py:744-769 | resolving a victim's intervention does so if and only if it closes the job |
| `Stranded.StrandedExactlyBy` | src/threads_platform/application/worker_jobs.py:720-892 | any call strands a waiter if and only if it is accepted and is such a recovery or a resolution that closes the victim |
| `Stranded.StrandedForever` | src/threads_platform/application/worker_jobs.py:1150-1174 | if the preemptor has no deadline, it waits and no browser job of the account runs in every continuation |
| `Stranded.DeadlineReleases` | src/threads_platform/application/worker_jobs.py:807-848 | recovering a waiter ends it and releases its row if and only if its own deadline has passed |
| `StrandedRun.WaitersCanBeStranded` | src/threads_platform/application/worker_jobs.py:807-829 | a run of eight calls reaches such a state |
| `StrandedRun.ReportCanBeRefused` | src/threads_platform/application/worker_jobs.py:597-661 | a run of four calls reaches a state in which the holder's report of a failure is refused by the table |
| `JobRuns.ServiceIsSound` | src/threads_platform/application/worker_jobs.py:276-892 | from consistent tables every service call ends in consistent tables or fails for a reason the caller can see, with the one exact exception, which always fails |
| `JobRuns.RunKeeps` | src/threads_platform/application/worker_jobs.py:276-892 | the invariant holds along every run of service, worker-control and Command-runtime calls |
| `JobHistory.StepEvolves` | src/threads_platform/application/worker_jobs.py:276-892 | every change of a row in a call has a cause entitled to it: the holder of an unexpired lease, a claimant of a startable job, an operator, or recovery of a recoverable job; histories only grow |
| `JobInvariants.TimePasses` | src/threads_platform/domain/worker_jobs.py:310-317 | the invariant does not depend on when it is looked at |
| `HolderProofs.CompleteKeeps` | src/threads_platform/application/worker_jobs.py:564-595 | complete keeps the invariant and meets no defect |
| `HolderProofs.FailKeeps` | src/threads_platform/application/worker_jobs.py:597-661 | fail keeps the invariant; the table refuses it if and only if the caller is entitled to it and the retry would be too late |
| `HolderProofs.RequestInterventionKeeps` | src/threads_platform/application/worker_jobs.py:663-718 | request_intervention keeps the invariant and meets no defect |
| `HolderProofs.AcknowledgeCancelKeeps` | src/threads_platform/application/worker_jobs.py:488-562 | acknowledge_cancel keeps the invariant and meets no defect |
| `HolderProofs.RenewKeeps` | src/threads_platform/application/worker_jobs.py:350-360 | renew keeps the invariant: job and account lease move together |
| `HolderProofs.SaveCheckpointKeeps` | src/threads_platform/application/worker_jobs.py:362-378 | checkpoint keeps the invariant |
| `HolderProofs.RequestCancelKeeps` | src/threads_platform/application/worker_jobs.py:380-432 | request_cancel keeps the invariant: one pending request, for the running attempt |
| `SchedulerProofs.ResolveInterventionKeeps` | src/threads_platform/application/worker_jobs.py:720-782 | resolve_intervention keeps the invariant, requeued or closed |
| `SchedulerProofs.RecoverExpiredKeeps` | src/threads_platform/application/worker_jobs.py:795-892 | recover_expired succeeds and keeps the invariant over any batch |
| `ClaimProofs.EnqueueKeeps` | src/threads_platform/application/worker_jobs.py:143-250 | enqueue keeps the invariant, arbitration included |
| `EnqueueMeanings.EnqueueMeans` | src/threads_platform/application/worker_jobs.py:143-250 | accepted if and only if capability, Command, worker, request, identity and route fit; every field of the stored row comes from the request, the Command and the assignment; the Command is taken up, only browser jobs it preempts get requests to stop, and nothing else moves |
| `ClaimProofs.ListedCanBeClaimed` | src/threads_platform/infrastructure/persistence/repositories.py:3023-3120 | the domain claim never refuses a row that list_claimable returns |
| `ClaimProofs.ClaimNextKeeps` | src/threads_platform/application/worker_jobs.py:276-348 | claim_next keeps the invariant, and a poll that takes nothing changes nothing |
| `ClaimProofs.AcquireKeepsFences` | src/threads_platform/infrastructure/persistence/repositories.py:1019-1147 | an account lease is won only over an expired one, so every older fence belongs to a dead job lease |
| `WorkerJobs.FailKeepsScheduleBeforeDeadline` | src/threads_platform/domain/worker_jobs.py:398-400 | a failed row still satisfies the CHECK constraints if and only if it is not a retry at or past the deadline |
| `WorkerJobs.FailCanMissDeadline` | src/threads_platform/domain/worker_jobs.py:398-400 | a row for which it does not |
| `WorkerJobs.WorkerJob.Claim` | src/threads_platform/domain/worker_jobs.py:256-308 | accepted if and only if the job is startable, due, in time, has an attempt left, is for this worker and gets the right fence; then every field of the row is given, otherwise nothing is touched |
| `WorkerJobs.WorkerJob.Renew` | src/threads_platform/domain/worker_jobs.py:319-330 | moves the expiry exactly for the current holder |
| `WorkerJobs.WorkerJob.SaveCheckpoint` | src/threads_platform/domain/worker_jobs.py:332-344 | stores the checkpoint exactly for the current holder |
| `WorkerJobs.WorkerJob.Complete` | src/threads_platform/domain/worker_jobs.py:346-358 | accepted exactly from the current holder; then SUCCEEDED with that document, no lease, every other field as it was |
| `WorkerJobs.WorkerJob.Cancel` | src/threads_platform/domain/worker_jobs.py:360-372 | accepted exactly from the current holder of a preemptible job; then CANCELLED with that reason, no lease, every other field as it was |
| `WorkerJobs.WorkerJob.Fail` | src/threads_platform/domain/worker_jobs.py:374-405 | accepted exactly from the current holder; to an operator, to the queue or for good, each if and only if, with every field of the row |
| `WorkerJobs.WorkerJob.RequireIntervention` | src/threads_platform/domain/worker_jobs.py:407-414 | accepted exactly from the current holder; then it waits for an operator, without lease, every other field as it was |
| `WorkerJobs.WorkerJob.Suspend` | src/threads_platform/domain/worker_jobs.py:416-423 | hands a running job to an operator without its holder, with every field of the row |
| `WorkerJobs.WorkerJob.ResolveIntervention` | src/threads_platform/domain/worker_jobs.py:425-455 | accepted if and only if the job waits for an operator and, to be requeued, is in time, has an attempt left and is safe or confirmed; then every field of the requeued or closed row |
| `WorkerJobs.WorkerJob.Expire` | src/threads_platform/domain/worker_jobs.py:457-463 | ends the job as EXPIRED and releases the lease, with every field of the row |
| `WorkerJobs.WorkerJob.FinalizeFailure` | src/threads_platform/domain/worker_jobs.py:465-471 | ends the job as FAILED_FINAL and releases the lease, with every field of the row |
| `Commands.Command.Transition` | src/threads_platform/domain/commands.py:128-170 | moves the Command exactly as the table, the deadline and the retry time allow |
| `Commands.TransitionMeans` | src/threads_platform/domain/commands.py:128-170 | a move is accepted if and only if the table, read by target, and the times allow it; every field of the moved row |
| `Commands.CommandHistories` | src/threads_platform/domain/commands.py:42-73 | over every history a terminal Command is frozen, completion time and terminal status appear together, and a retry time stays before the deadline |
| `JobService.WorkerJobService.Enqueue` | src/threads_platform/application/worker_jobs.py:143-250 | commits exactly the enqueue step, or nothing; `EnqueueMeanings.EnqueueMeans` says when and every field of what is stored |
| `JobService.WorkerJobService.ArbitrateRunning` | src/threads_platform/application/worker_jobs.py:434-486 | the arbitration loop over the running browser jobs |
| `JobService.WorkerJobService.ListClaimable` | src/threads_platform/infrastructure/persistence/repositories.py:3023-3120 | the first fifty claimable jobs in the order of the query; `ClaimMeanings.ListingMeans` says which these are and in which order |
| `JobService.WorkerJobService.ClaimNext` | src/threads_platform/application/worker_jobs.py:276-348 | the candidate loop commits exactly the claim step, or nothing; `ClaimMeanings.ClaimNextMeans` says which job is taken and what is stored |
| `JobService.WorkerJobService.TryClaim` | src/threads_platform/application/worker_jobs.py:286-345 | one candidate: gates, account lease, claim, attempt, renewed request to stop |
| `JobService.WorkerJobService.Renew` | src/threads_platform/application/worker_jobs.py:350-360 | commits exactly the renew step, or nothing; see `HolderMeanings.RenewMeans` |
| `JobService.WorkerJobService.SaveCheckpoint` | src/threads_platform/application/worker_jobs.py:362-378 | commits exactly the checkpoint step, or nothing; see `HolderMeanings.SaveCheckpointMeans` |
| `JobService.WorkerJobService.RequestCancel` | src/threads_platform/application/worker_jobs.py:380-402 | commits exactly the cancel request, or nothing; see `HolderMeanings.RequestCancelMeans` |
| `JobService.WorkerJobService.AcknowledgeCancel` | src/threads_platform/application/worker_jobs.py:488-562 | commits exactly the acknowledgement, or nothing; see `HolderMeanings.AcknowledgeMeans` |
| `JobService.WorkerJobService.Complete` | src/threads_platform/application/worker_jobs.py:564-595 | commits exactly the completion, or nothing; `HolderMeanings.CompleteMeans` says when and what is stored |
| `JobService.WorkerJobService.Fail` | src/threads_platform/application/worker_jobs.py:597-661 | commits exactly the failure, or nothing; see `HolderMeanings.FailMeans` |
| `JobService.WorkerJobService.RequestIntervention` | src/threads_platform/application/worker_jobs.py:663-718 | commits exactly the intervention, or nothing; see `HolderMeanings.RequestInterventionMeans` |
| `JobService.WorkerJobService.ResolveIntervention` | src/threads_platform/application/worker_jobs.py:720-782 | commits exactly the resolution, or nothing; `OperatorMeanings.ResolveMeans` says when and what is stored |
| `JobService.WorkerJobService.RecoverExpired` | src/threads_platform/application/worker_jobs.py:795-892 | the recovery loop; one error rolls the batch back; see `OperatorMeanings.RecoveryTouches` |
| `JobService.SatisfyPreemptions` | src/threads_platform/application/worker_jobs.py:1063-1071 | the loop satisfies exactly the rows waiting for the victim |
| `JobService.SupersedePreemptions` | src/threads_platform/application/worker_jobs.py:1073-1089 | the two loops drop exactly the rows of the preemptor and the requests no one else needs |
| `JobService.FinishCommand` | src/threads_platform/application/worker_jobs.py:1320-1346 | ends the Command with one result event |
| `JobService.MoveCommandBetween` | src/threads_platform/application/worker_jobs.py:1296-1318 | moves the Command to or from an operator, idempotently |
| `Platform.OrderedIsSorted` | src/threads_platform/infrastructure/persistence/repositories.py:3098-3120 | the claim listing is sorted: higher priority first, then earlier start, then earlier creation, then smaller id |
| `CapabilityRouter.DecideIsSound` | src/threads_platform/application/capability_router.py:189-419 | every decision passes its own constructor, names an executor exactly for an execution target, and never changes executor after a first attempt |
| `CapabilityRouter.DecideExactly` | src/threads_platform/application/capability_router.py:189-419 | a WorkerJob (or local API) route is chosen if and only if the claim-time policy check, the shared gates, the turn and the previous executor allow it |
| `CapabilityRouter.DecideOtherwise` | src/threads_platform/application/capability_router.py:189-419 | the other three targets, each if and only if: impossible, a person must act first, or the work can only wait |
| `WorkerControl.WorkerControlService.Hello` | src/threads_platform/application/worker_control.py:298-389 | commits exactly the greeting, or nothing |
| `WorkerControl.WorkerControlService.Beat` | src/threads_platform/application/worker_control.py:391-445 | commits exactly the heartbeat, or nothing |
| `WorkerControl.WorkerControlService.Drain` | src/threads_platform/application/worker_control.py:447-480 | starts a drain exactly from ONLINE or DEGRADED |
| `WorkerControl.WorkerControlService.Complete` | src/threads_platform/application/worker_control.py:501-529 | ends a drain exactly when the worker is quiescent, and then it holds no job |
| `WorkerControl.WorkerControlService.Abort` | src/threads_platform/application/worker_control.py:531-557 | gives a drain up |
| `WorkerControl.WorkerControlService.Sweep` | src/threads_platform/application/worker_control.py:559-587 | takes exactly the listed workers with expired presence offline and counts them |
| `WorkerControl.SignsOfLifeDoNotUndoDrain` | src/threads_platform/application/worker_control.py:298-445 | hello and heartbeat leave a draining or disabled worker in its status if its protocol is supported, and otherwise require an upgrade; never ONLINE |
| `ControlMeanings.HelloMeans` | src/threads_platform/application/worker_control.py:298-389 | a greeting is accepted if and only if its capacities are consistent and no capability is blocked; every field of the worker row |
| `ControlMeanings.BeatMeans` | src/threads_platform/application/worker_control.py:391-445 | a heartbeat is accepted if and only if its session count fits; it changes presence, sessions and status only |
| `ControlMeanings.DrainMeans` | src/threads_platform/application/worker_control.py:447-480 | a drain starts if and only if the reason is a code and the worker is online, degraded or draining already |
| `ControlMeanings.CompletionMeans` | src/threads_platform/application/worker_control.py:501-529 | a drain completes if and only if the worker drains, has no session and holds no running job |
| `ControlMeanings.AbortMeans` | src/threads_platform/application/worker_control.py:531-557 | a drain is given up if and only if there is one, and the worker is then offline |
| `ControlMeanings.SweepMeans` | src/threads_platform/application/worker_control.py:559-587 | exactly the listed online or degraded workers whose presence has run out are offline afterwards |
| `CrashSafety.AtMostOnce` | src/threads_platform/standalone/mutations.py:949-1002 | cut anywhere, a run has sent at most one remote mutation and updated its record at most 24 times |
| `CrashSafety.SentOnlyWhenDurable` | src/threads_platform/standalone/mutations.py:949-960 | a publish request goes out only while the record on disk says PUBLISH_REQUESTED for that container |
| `CrashSafety.JournalTellsTheTruth` | src/threads_platform/standalone/mutations.py:960-1002 | the record found after a crash: earlier phases mean never sent, PUBLISHED holds the returned id, FAILED_FINAL means never sent, or a listed rejection and after it a read of the container as settled |
| `CrashSafety.ModerationTellsTheTruth` | src/threads_platform/standalone/mutations.py:674-743 | a moderation record found after a crash: RECEIVED means never sent, CONFIRMED means sent once and confirmed, AMBIGUOUS means sent once, and nothing was ever published |
| `CrashSafety.ModeratedOnlyWhenDurable` | src/threads_platform/standalone/mutations.py:690-743 | a moderation request goes out only while the record on disk says MUTATION_REQUESTED for that action |
| `CrashSafety.OncePerOperation` | src/threads_platform/standalone/mutations.py:329-351 | over all processes that ever run on one store, whatever their crash points, an operation sends at most one remote mutation |
| `CrashSafety.RuntimeIsPossible` | src/threads_platform/standalone/mutations.py:674-947 | wherever the runtime is cut, it is one of those processes: it leaves no event for an id that was taken, and writes only its own record |
| `CrashSafety.CarouselIsComplete` | src/threads_platform/standalone/mutations.py:853-927 | past its children, a carousel record holds one distinct child per item in order, each seen FINISHED, and the parent was requested with exactly that list |
| `Publishing.Runtime.PublishContainer` | src/threads_platform/standalone/mutations.py:745-822 | every prefix of its trace is in order, and a returned id is the recorded one; an id that is already on disk sends and writes nothing. If every write succeeds, the publish is sent exactly when the container came back with a usable id and, where it must be processed, was read as FINISHED; then a usable media id is DONE and PUBLISHED, a refusal borne out by reading the container again is FAILED_FINAL, and anything else is AMBIGUOUS; unsent it is FAILED_FINAL with the raised code, or was interrupted |
| `Publishing.Runtime.PublishCarousel` | src/threads_platform/standalone/mutations.py:824-947 | the same for a carousel: if every write succeeds it is sent exactly when every child and the parent came back with a usable id of its own and each was read as FINISHED |
| `Publishing.Runtime.AddChild` | src/threads_platform/standalone/mutations.py:853-895 | one more recorded child, made for the next item and seen FINISHED, or the operation is given up |
| `Publishing.Runtime.AddParent` | src/threads_platform/standalone/mutations.py:897-927 | the parent is requested with the recorded children, or the operation is given up |
| `Publishing.Runtime.PublishReady` | src/threads_platform/standalone/mutations.py:949-1002 | requests, sends and records a publish in that order; if every write succeeds it is sent once for that container, and the answer decides between PUBLISHED, FAILED_FINAL and AMBIGUOUS, each if and only if |
| `Publishing.Runtime.SettleRefusal` | src/threads_platform/standalone/mutations.py:960-986 | a refused publish is final if and only if the reason is listed and the container, read again, is settled, with the code of what was found; otherwise AMBIGUOUS |
| `Publishing.Runtime.RecordPublished` | src/threads_platform/standalone/mutations.py:992-1002 | if every write succeeds, a usable media id is recorded as PUBLISHED and returned, and any other is AMBIGUOUS |
| `Publishing.Runtime.RecordReply` | src/threads_platform/standalone/mutations.py:960-1002 | if every write succeeds, what each answer to the publish request comes to: record, outcome code, media id and result |
| `Publishing.Runtime.RecordModeration` | src/threads_platform/standalone/mutations.py:720-743 | the same for the answer to a moderation request |
| `Publishing.Runtime.WaitForReady` | src/threads_platform/standalone/mutations.py:1004-1024 | reads that container at most ten times, going on only while it is in progress; the last answer decides, and ready means exactly that it was FINISHED |
| `Publishing.Runtime.ModerateReply` | src/threads_platform/standalone/mutations.py:674-743 | sends one moderation request after MUTATION_REQUESTED is durable; if every write succeeds it is DONE and CONFIRMED if and only if it was confirmed, and AMBIGUOUS otherwise; a taken id sends nothing |
| `OperationStore.Store.CreateReceived` | src/threads_platform/standalone/mutations.py:329-351 | writes a first record exactly when id, shape and disk allow |
| `OperationStore.Store.Update` | src/threads_platform/standalone/mutations.py:353-382 | replaces a record exactly by an allowed successor of the one on disk |
| `OperationStore.Store.Get` | src/threads_platform/standalone/mutations.py:384-404 | a file is read as the one valid record it is the encoding of, whichever that is; nothing else is made up, and in a consistent store every file is read |
| `OperationStore.StoreReadsBack` | src/threads_platform/standalone/mutations.py:384-404 | a consistent store can read every file it holds |
| `Journal.UpdatesUseRank` | src/threads_platform/standalone/mutations.py:100-109 | every allowed update lowers a rank of at most 24 |
| `Journal.ChainsAreShort` | src/threads_platform/standalone/mutations.py:1237-1354 | a record sees at most 24 updates; account, kind and action are fixed and children only added |
| `JournalCodec.DecodeInvertsEncode` | src/threads_platform/standalone/mutations.py:1357-1455 | decoding the file of any valid record gives that record; the file is ASCII and within the 8192 bytes the reader accepts |
| `JournalCodec.RecordsFit` | src/threads_platform/standalone/mutations.py:98-99 | the size bound, twenty children of 255 characters included |
| `JournalCodec.FromJson` | src/threads_platform/standalone/mutations.py:1393-1455 | whatever is decoded is a valid record of the requested id |
| `JsonText.LoadsPrinted` | src/threads_platform/standalone/mutations.py:1377 | the strict reader gives back every printed document |
| `DepthScanner.ValidateDepth` | src/threads_platform/standalone/mutations.py:219-242 | the scanning loop computes the scanner state machine |
| `DepthScanner.AcceptsExactlyShallow` | src/threads_platform/standalone/mutations.py:219-242 | it accepts a JSON text, however spaced and escaped, if and only if its nesting depth is at most three |
| `JsonDepth.AcceptsWhatIsShallow` | src/threads_platform/standalone/mutations.py:219-242 | on every text that the strict reader accepts, the scanner accepts if and only if the value read is nested at most three deep |
| `Recurrence.Scheduler.GenerateDue` | src/threads_platform/application/account_activity_recurrence.py:27-82 | the loop with its skipped rows is exactly a generation tick: the soonest live due cursor again and again, at most limit times; each mention adds exactly the next slot, which was due; if it stops early every due cursor is of an old revision, not recurring or switched off |
| `Recurrence.GenerationMeans` | src/threads_platform/application/account_activity_recurrence.py:27-82 | a generation tick keeps every cursor at first slot + count * interval with exactly those slots covered, advances at most limit cursors, and exhausts what is due if it advances fewer |
| `Recurrence.GenerationIsUnique` | src/threads_platform/application/account_activity_recurrence.py:32-82 | there is only one such tick: generation is deterministic |
| `ScheduleMeanings.TickTakesFirst` | src/threads_platform/application/account_activity_recurrence.py:27-82 | each occurrence of a tick is of the newest revision of a recurring template, due, under a plan that is not disabled, and comes first by slot, template and revision |
| `ScheduleMeanings.TickLeavesNone` | src/threads_platform/application/account_activity_recurrence.py:27-82 | a tick that stops before its limit leaves no such occurrence |
| `Recurrence.SkippingIsHarmless` | src/threads_platform/application/account_activity_recurrence.py:38-58 | listing stale rows and skipping them does not change which live row is taken next |
| `Recurrence.Scheduler.NextDue` | src/threads_platform/infrastructure/persistence/repositories.py:557-618 | the soonest due cursor that is not excluded |
| `Recurrence.Scheduler.MaterializeDue` | src/threads_platform/application/account_activity_materialization.py:45-87 | the sequential loop is exactly the order-free tick over the rows it looks at: a paused plan leaves an occurrence, a disabled plan or unsupported type writes it off, otherwise it has its Command; it returns how many were turned into Commands, and fails and changes nothing if and only if one of these conflicts |
| `ScheduleMeanings.SettledMeans` | src/threads_platform/application/account_activity_materialization.py:45-117 | a tick fails if and only if the identity of one of its Commands is taken by another content; the outcome of every occurrence and exactly the Commands that are new |
| `Recurrence.Scheduler.AddRevision` | src/threads_platform/infrastructure/persistence/repositories.py:392-467 | a new revision starts its cursor at its anchor |
| `ScheduleMeanings.RevisionMeans` | src/threads_platform/infrastructure/persistence/repositories.py:392-467 | a revision is added if and only if it is the next one of its template, of the same existing plan, with an interval of 15 minutes to 30 days; a recurring one starts at its anchor |
| `Recurrence.GeneratedKeeps` | src/threads_platform/domain/account_activities.py:420-433 | one advance keeps the progression without gap or duplicate, and its slot is new |
| `RecurrenceRuns.OneCommandPerSlot` | src/threads_platform/application/account_activity_materialization.py:90-117 | over every interleaving of ticks, revisions, plan changes and other people's Commands: every materialised slot has one Command made from its own snapshot, no two slots share one, and every Command nobody else submitted is of a materialised slot |
| `RecurrenceRuns.ConflictsAreForeign` | src/threads_platform/application/account_activity_materialization.py:75-83 | a materialisation tick fails if and only if one of its slots finds its identity taken by someone else's Command with another content |
| `RecurrenceRuns.SlotsAreTheProgression` | src/threads_platform/domain/account_activities.py:331-351 | over every interleaving a cursor stands at first slot + count * interval, and its occurrences are exactly the slots before, none missing, none twice, none else |
| `RecurrenceRuns.RunExtends` | src/threads_platform/application/account_activity_recurrence.py:32-82 | no run undoes anything: revisions, covered slots, settled occurrences and Commands stay |
| `ConversationSync.DispatchIsLeastSlot` | src/threads_platform/domain/conversation_sync.py:149-152 | the floor division equals repeated addition of the interval: the least aligned slot after now |
| `ConversationSync.SyncSchedule.Dispatch` | src/threads_platform/domain/conversation_sync.py:130-156 | dispatches exactly an active, due schedule and keeps it aligned |
| `ConversationSync.SyncSchedule.Transition` | src/threads_platform/domain/conversation_sync.py:98-128 | moves the status exactly along the allowed pairs |
| `ConversationSync.SyncScheduler.DispatchDue` | src/threads_platform/application/conversation_sync_scheduling.py:35-96 | the sequential loop is exactly the order-free dispatch of the listed schedules that are ready (active, due, with a post, last Command ended): each gains exactly the slot it stood at and moves to the least slot after now, every other is unchanged; it returns their number, and fails and changes nothing if and only if one of them is refused |
| `SyncMeanings.TickMeans` | src/threads_platform/application/conversation_sync_scheduling.py:35-96 | in terms of rows: which listed schedules dispatch, the slot they record, the Command they have, the first slot after now they move to; all others and all other Commands are as they were |
| `ConversationSync.SyncScheduler.Create` | src/threads_platform/infrastructure/persistence/repositories.py:817-819 | adds a schedule exactly when its interval and first slot are valid, its id is new and its target has no other schedule that is not disabled |
| `SyncMeanings.CreatedMeans` | src/threads_platform/infrastructure/persistence/repositories.py:817-819 | created if and only if the interval is 15 minutes to 30 days, the first slot is a positive multiple of it after the anchor, the id is new and the target free |
| `SyncMeanings.MovedMeans` | src/threads_platform/domain/conversation_sync.py:98-128 | a status change is accepted if and only if the schedule is not disabled, the status is new and time has not gone back; every field of the moved row |
| `SyncRuns.OneOpenCommand` | src/threads_platform/application/conversation_sync_scheduling.py:43-53 | over every run from empty tables, of the Commands of a schedule that nobody else submitted at most one is open, that of the newest dispatched slot, and every dispatched slot has its Command |
| `SyncRuns.OneOpenDispatch` | src/threads_platform/application/conversation_sync_scheduling.py:43-53 | even with other people's Commands in the way, only the newest dispatched slot of a schedule can be open |
| `SyncRuns.SlotsIncrease` | src/threads_platform/domain/conversation_sync.py:130-156 | over every run dispatched slots strictly increase, lie on the grid and before the next due time, and are only appended to; the configuration is fixed and DISABLED is final |
| `SyncRuns.OneSchedulePerTarget` | src/threads_platform/infrastructure/persistence/models.py:1065-1072 | over every run no target has two schedules that are not disabled |

## Left out

- SQL, migrations, HTTP and websocket transport, metrics, tracing, logging and notifications: plumbing around the modelled calls.
- Concurrency inside a transaction: row locks and `SKIP LOCKED` are not modelled; a call is one serial step.
- `CommandRuntime` beyond what reaches the shared tables: it may move any Command that no job is bound to and take account leases in its own name.
- Worker enrollment, challenges, sessions and access tokens; worker audit events.
- Outbox delivery and retry arithmetic: only the result event of a Command is modelled.
- `reconcile` and the pending request attached to a polled job: read-only views.
- Text, URL and UUID validation of requests, payload models, the manifest parser behind the depth check.
- Files and locks of the journal: a write happens whole or not at all; symbolic links, temporary files and process locks are not modelled.
- Scheduling details outside the cursors: activity plans' revisions and reasons, schedule reasons, the posts behind a sync.
- Publishing.Runtime.WaitForReady: the thirty-second clock is one of the answers the remote side may give.
- Job timestamps `completed_at` and `updated_at`: written by every transition, read by none of the modelled code.
- ClaimMeanings.ClaimNextMeans: the token of a claim is taken to be unused; a token that was issued before is refused by its unique index (`ClaimProofs.ClaimLoopKeeps`).
- Publishing.Runtime.PublishContainer: an interrupt while a journal file is being replaced is a crash, not a return.
- JsonText.Load: refuses surrogate escapes and the non-standard literals NaN and Infinity, which the source reads; a journal that contains one is invalid either way.
- Recurrence.Scheduler.GenerateDue: cursors locked by another generator are not skipped.
- Recurrence.Scheduler.MaterializeDue: the listing is any sequence of occurrences, re-checked for status and due time.
- RecurrenceRuns.SlotsAreTheProgression: occurrences come from generation only; nothing in the platform adds one by hand.
- ConversationSync.SyncScheduler.DispatchDue: the listing is any sequence of schedule ids, re-checked for status and due time.
- ConversationSync.SyncScheduler.Create: a new schedule has not dispatched anything yet.
- CrashSafety.OncePerOperation: files are never removed from the store by anyone.
