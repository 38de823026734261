# GridBank settlement model

A Dafny model of GridBank, a multi-tenant exchange for compute resources: workload sessions with
idempotent planning, capacity streams and usage segments, metering batches, credit accounts, ledger drafts
and releases, leased scheduler jobs, the transactional outbox, and restart recovery.

Each service is a class whose methods read the tables of a `Database`, work on a copy and assign it back when
they commit, as `Write` does with one SQL transaction. A method is proved against a function on the tables
(`PlanStep`, `AppendStep`, `JobRows`, ...) that gives the committed tables or the error; a refused call leaves
the tables as they were. The UNIQUE keys of the schema are part of these functions. Clock readings and random
values are parameters, so nothing assumes that commits follow the clock.

`System.dfy` puts all calls together as commands and states the invariant of the settlement pipeline. The main
results speak of every state that commands can reach, or of every run:

- **Leases** (`Leases`, `LeaseSafety`, `LeaseProgress`, `TextLeases`, `SchedulerProofs`, `Outbox`, `SystemLeases`):
  jobs and events refine one leased-retry machine; stale versions are fenced off, and every row ends after a
  bounded number of steps and a bounded delay. The guards of the SQL compare stored texts, so the machine takes
  its comparison of times as a parameter. On the clock holds exclude each other and a due row waits for a bounded
  number of claims; on the texts the same holds of every run whose compared times are comparable, and a pair of
  overlapping holds shows that the condition is needed.
- **Settlement** (`WorkloadInvariants`, `CapacityInvariants`, `MeteringInvariants`, `LedgerInvariants`,
  `Reachability`, `Settlement`, `LedgerStability`, `CapacityTheorems`, `Attainment`): what a release contains, why
  its digest and its members never go stale, which calls can never commit, and that every reachable state leads on
  to a new release.
- **History** (`WorkloadHistory`, `PoolHistory`, `UsageHistory`, `SealDigests`, `MeterHistory`, `LedgerHistory`,
  `QueueHistory`, `CreditHistory`, `Bookkeeping`, `Refusals`): after any run each table holds what the calls that
  committed tell, written down call by call without regard to the tables; which calls commit and what a refusal
  says; and what a failure, a settlement, a rejection and a revocation imply for good.
- **Appending, planning and credits** (`AppendProofs`, `Planning`, `SystemCredit`): idempotence, commuting
  batches, replays, and conservation.
- **Text** (`Timestamps`, `LikeSearch`, `Fingerprints`): when timestamps compare like instants, what a name
  search matches, and which bytes the fingerprints and digests determine.

Check the project with `dafny verify dfyconfig.toml`.

Where the code is not what its documentation or its interface suggests, the model follows the code:

- `Reopen` is offered for failed workloads, but the lease row that it inserts always collides with the one
  that planning inserted, so it never commits (`WorkloadInvariants.ReopenNeverCommits`).
- A rejected ledger returns to draft and can be frozen again, but its second review always violates the key on
  reviews, so it is never published (`LedgerStability.RejectedNeverPublished`).
- Leases are guarded by comparing printed times, with fractions trimmed of their zeros, and `12:00:00.5Z` is before
  `12:00:00Z` as text. Two times are comparable when they lie in different seconds or neither fraction is a proper
  prefix of the other; each guard agrees with the clock exactly then (`TextLeases.GuardsAgreeIff`). Otherwise a live
  lease is reclaimed up to a second early and two holds overlap (`TextLeases.TextHoldsOverlapIff`), an expired one
  is missed (`TextLeases.TextMissesExpired`), and a plan over an expired record fails
  (`Planning.StaleRecordBlocksIff`). Whole-second durations with readings of one number of digits avoid all of it;
  the default retry base of 250 milliseconds is not of that kind.
- A deposit under a key that a reservation used succeeds without effect (`Credit.Service.Deposit`).
- The overview promises that planning reserves capacity and credits together; planning only takes the pool
  lease, and credits are reserved by a separate call.

## Model

| member | source | states |
|---|---|---|
| Leases.NextIsLeastDue | internal/scheduler/repository.go:41-51 | Under any weak order of times, the stored texts among them, the due query finds a row exactly when some row is due, and it is the least one by next attempt, creation time and id; no second row qualifies. |
| LeaseSafety.ReachableTableOk | internal/scheduler/service.go:74-268 | Over every run from the empty table: a waiting row has attempts below its budget, a held or finished one between one and its budget, and owner, token and expiry are set exactly while the row is held. |
| LeaseSafety.RunRows | internal/scheduler/repository.go:83-205 | Over every run rows are never deleted, versions never decrease, an unchanged version means an unchanged row, and a finished row never changes again. |
| LeaseSafety.VersionFences | internal/scheduler/service.go:118-268 | A call that presents the version a row had is accepted after any further run only if the row is still exactly what it was, and only from the worker and token of that row. |
| LeaseSafety.ExclusiveHolds | internal/outbox/lifecycle.go:12-101 | For guards that read the clock: in whatever order the readings commit, each token has one tenure of a row, tenures of different tokens share no instant, and the row shows the last tenure; needs positive time to live, fresh tokens and presenters whose reading is not before their claim. TextLeases.TextHoldsExclude is the statement for the guards of the source. |
| LeaseSafety.HistoryHolds | internal/scheduler/repository.go:83-205 | The induction behind exclusivity, for guards that read the clock: the tenures of a row form a chain, each over before the next begins although reclaim and recovery end none of them early, and the last one matches the lease columns of the row. |
| LeaseProgress.MeasureDrops | internal/scheduler/repository.go:83-103 | 2*(max-attempts), plus one while held and zero once finished, never grows, and every step that changes the row except renewing and checkpointing lowers it strictly. |
| LeaseProgress.MovesBounded | internal/scheduler/service.go:239-277 | Over any run a row with budget max takes at most 2*max steps other than renewals and checkpoints. |
| LeaseProgress.DelayBounded | internal/scheduler/service.go:274-277 | Over any run the times by which its failures put a row off, from the reading of each to the next attempt that the row stores, add up to at most base*(2^(max-1)-1) for max up to ten, and base*(511+256*(max-10)) beyond. |
| LeaseProgress.FailPutsOff | internal/outbox/service.go:139-168 | A failure that is not permanent, of a row with budget left, leaves it waiting and due exactly at readings not before the call plus base*2^min(attempts-1,8); any other failure buries it. |
| LeaseProgress.WaitsForRetry | internal/scheduler/repository.go:41-51 | No run whose claims all read earlier than its next attempt serves or changes a waiting row. |
| LeaseProgress.BackoffSumClosed | internal/outbox/service.go:165-168 | The closed form of the sum of the first n backoffs, with the exponent capped at eight. |
| LeaseProgress.BoundedWait | internal/scheduler/repository.go:41-51 | For guards that read the clock: when recovery runs before each claim at the same reading and later readings exceed the first, a due row with k due rows ahead is served by claim k+1; the claims before it are accepted and serve other rows. TextLeases.TextWaitBounded is the statement for the guards of the source. |
| TextLeases.RunAgrees | internal/scheduler/repository.go:41-168 | Transfer: a run in which all times that a claim, a holder call or a recovery compares are pairwise comparable is step by step the run of the machine that reads the clock. |
| TextLeases.TextHoldsExclude | internal/outbox/lifecycle.go:12-101 | Exclusive holds under the guards of the source, which compare stored texts, for every run whose compared times are comparable. |
| TextLeases.TextWaitBounded | internal/scheduler/repository.go:41-51 | The bounded wait under the guards and the ORDER BY of the source, for rounds whose compared times are comparable. |
| TextLeases.OneDigitCountExcludes | internal/storage/database.go:196 | A condition that needs no look at the rows: durations in whole seconds and readings printed with one number of fractional digits make every run comparable, so holds exclude each other. |
| TextLeases.GuardsAgreeIff | internal/scheduler/repository.go:118-168 | Each guard on a row, live, expired or due, agrees with the clock exactly when the two times that it compares are comparable. |
| TextLeases.TextHoldsOverlapIff | internal/outbox/lifecycle.go:12-32 | Two honest workers claim one job, the second before the lease of the first expires: their tenures overlap from the second claim to that expiry exactly when the second reading is comparable with the first but not with the expiry, and otherwise the second claim finds nothing. |
| TextLeases.EarlyReclaim | internal/storage/database.go:196 | An instance: a lease that expires on a half second is reclaimed on the whole second before it. |
| TextLeases.TextMissesExpired | internal/recovery/service.go:102-142 | And recovery misses a lease that expired on a whole second when it reads the clock half a second later. |
| Scheduler.FindDueSelectsNext | internal/scheduler/repository.go:41-51 | For any weak order of times, in particular that of the texts which the query compares: the first row by the SQL order among the rows of the SQL due condition is the row the lease machine serves next, and when no row is due the machine serves none. |
| Scheduler.Service.Enqueue | internal/scheduler/service.go:42-72 | Stores a queued job without attempts for a published release, or nothing; every refusal and its error is the specified one. |
| Scheduler.Service.Claim | internal/scheduler/service.go:74-116 | Leases the first due job, counts the attempt, opens its attempt row and returns both, or fails with nothing written; an exhausted first job fails the claim. |
| Scheduler.Service.Renew | internal/scheduler/service.go:118-144 | Moves the expiry of a live lease under owner, token and version, or reports the lease lost with nothing written; the guard compares texts. |
| Scheduler.Service.Checkpoint | internal/scheduler/service.go:146-175 | Stores a bounded checkpoint under a live lease; anything else leaves the tables unchanged. |
| Scheduler.Service.Complete | internal/scheduler/service.go:177-219 | Finishes a checkpointed job under a live lease and closes its attempt; the stored row has its last error cleared although the returned job keeps it. |
| Scheduler.Service.Fail | internal/scheduler/service.go:221-268 | Schedules a retry after the backoff while budget remains, otherwise fails the job, and closes the attempt; needs the lease identity but not a live lease. |
| Scheduler.Service.FinishAttempt | internal/scheduler/repository.go:207-223 | Closes exactly the open attempt row with that number and reports whether there was one. |
| SchedulerProofs.JobRefines | internal/scheduler/service.go:42-268 | A job call commits exactly when the lease machine accepts the corresponding step and no guard outside the protocol refuses it, and then moves the jobs as that step does. |
| SchedulerProofs.JobStepKeepsAttempts | internal/scheduler/repository.go:105-117 | Every call keeps the attempt rows of a job numbered exactly 1..attempts, with the last one open while the job runs, across reclaims and recovery. |
| SchedulerProofs.AttemptWritesSucceed | internal/scheduler/repository.go:207-223 | The unique key on attempts never fires and closing an attempt always changes one row; a claim is refused as exhausted exactly when the first due row is an expired lease on its last attempt. |
| SchedulerProofs.JobStepKeepsReleases | internal/scheduler/service.go:55-65 | No call moves a job to another release or makes a finished job active, and new jobs belong to published releases. |
| SchedulerProofs.JobStepVersions | internal/scheduler/repository.go:83-205 | Every write of a job bumps its version, so one version belongs to one row content, text columns included. |
| Outbox.ListDueSelectsNext | internal/outbox/repository.go:45-76 | For any weak order of times, in particular that of the stored texts: the first row of the due list is the row the lease machine serves next. |
| Outbox.Service.Enqueue | internal/outbox/repository.go:16-35 | Stores a pending event without attempts and with a budget of five, or refuses. |
| Outbox.Service.Claim | internal/outbox/service.go:32-67 | Leases the first due event and counts the attempt, or fails with nothing written. |
| Outbox.Service.Renew | internal/outbox/service.go:69-92 | Moves the expiry of a live lease under owner, token and version. |
| Outbox.Service.Acknowledge | internal/outbox/service.go:94-120 | Delivers an event under a live lease and clears its lease columns and last error. |
| Outbox.Service.Fail | internal/outbox/service.go:122-159 | Returns the event to pending after the backoff while budget remains, otherwise buries it; needs the lease identity but not a live lease. |
| Outbox.EventRefines | internal/outbox/lifecycle.go:12-101 | An event call commits exactly when the lease machine accepts the corresponding step and validation does not refuse it, and then moves the events as that step does. |
| Outbox.EventStepVersions | internal/outbox/lifecycle.go:12-101 | Every write of an event bumps its version, so one version belongs to one row content. |
| Recovery.Service.RecoverSchedulerJobs | internal/recovery/service.go:102-154 | The select-then-update loop has the effect of recovering at once every job whose expiry reads as passed, and counts the selected jobs. |
| Recovery.Service.RecoverExpired | internal/recovery/service.go:33-67 | One transaction takes back every pool lease, metering batch, job and event whose expiry reads as passed, leaves everything else alone, and reports the four counts. |
| Recovery.CountsChanged | internal/recovery/service.go:33-67 | The four counts are the numbers of rows that recovery changes. |
| SystemLeases.RunsMachine | internal/recovery/service.go:102-175 | For jobs and for events: whatever the rest of the system does, the rows are those of the text-guarded lease machine run on the accepted calls and recoveries, with the table invariant and the attempt rows of jobs in step. |
| SystemLeases.HoldsExclude | internal/scheduler/service.go:74-268 | For jobs and for events: over any run of the whole system whose compared times are comparable, holds under different tokens share no instant and the row shows the last one. |
| SystemLeases.OneDigitCountExcludes | internal/outbox/service.go:32-159 | The same from a condition on the calls alone: durations in whole seconds and readings printed with one number of fractional digits. |
| SystemLeases.WorkBounded | internal/scheduler/service.go:239-277 | For jobs and for events, over any run of the whole system: at most 2*max moves, and the bound on the sum of the delays that failures store in the row, with the guards as they are. |
| SystemLeases.RetryIsDue | internal/scheduler/service.go:239-277 | After a committed failure that is not permanent, of a job or event with budget left, the stored row waits and is due exactly at readings that do not read as before the call plus base*2^min(attempts-1,8); for comparable times, from that time on. |
| SystemLeases.RetryWaits | internal/outbox/service.go:122-168 | Over any run of the whole system whose claims on the queue read as before that time, no claim serves the row and it stays as it is. |
| SystemLeases.WaitBounded | internal/outbox/service.go:32-67 | The bounded wait for jobs and for events in the whole system, when the compared times are comparable: with recovery before each claim, the row with k due rows ahead is claimed by claim k+1 and none of those claims is refused, with any other calls in between. |
| SystemLeases.JobsFenced | internal/scheduler/service.go:118-268 | A job call that presents a version commits after any run of the system only if the whole job row is still the one that had that version. |
| SystemLeases.EventsFenced | internal/outbox/lifecycle.go:34-101 | A stale version never commits an event call, over any run of the system. |
| QueueHistory.JobsAreHistory | internal/scheduler/repository.go:16-205 | After any run every business column of a job, from status and lease to checkpoint, output and last error, is what the committed calls on it, the claims that found it first due and the recoveries tell. |
| QueueHistory.AttemptsAreHistory | internal/scheduler/repository.go:105-223 | After any run attempt n of a job has the worker and time of the claim that opened it, and the end, outcome and error of the call that closed it. |
| QueueHistory.EventsAreHistory | internal/outbox/lifecycle.go:12-101 | After any run every business column of an event is what the committed calls on it, the claims that found it first due and the recoveries tell. |
| QueueHistory.JobCommitsIff | internal/scheduler/service.go:42-268 | In step with its attempt rows a job call commits exactly when: the release is published; the first due job has budget; the named lease reads as live (renew, checkpoint, complete with a checkpoint); or the lease is named at all (fail). |
| QueueHistory.EventCommitsIff | internal/outbox/service.go:32-159 | The like for event calls: renewing and acknowledging need a lease that reads as live, failing only its identity. |
| Workloads.Service.Plan | internal/workload/service.go:62-160 | Replays a live record with the same fingerprint, conflicts with a different one, otherwise checks the catalog and stores workload, lease and record together or nothing; an expired record that the text guard of the DELETE leaves in place makes the plan fail. |
| Workloads.Service.Change | internal/workload/service.go:319-368 | Ready, start, settle and fail move exactly one workload from the one allowed status, stamp its time and bump its version, or leave the tables unchanged. |
| WorkloadHistory.WorkloadsAreHistory | internal/workload/service.go:62-267 | After any run from the empty database a workload is what the committed calls tell: the status is the target of the last call on it, each of the four time columns the reading of the call that stamps it, and the rest what its plan asked for. |
| WorkloadHistory.EndedIffAsked | internal/workload/service.go:215-267 | Over any run a workload is settled exactly when a call to settle it has committed, failed exactly when a call to fail it has, and canceled exactly when a call to cancel it has. |
| WorkloadHistory.FailureIsFinal | internal/workload/service.go:220-221 | Failing a metered workload leads to failed with its time columns as they were; over any further run no batch for it exists or can be created, and it is in no ledger and no release. |
| WorkloadHistory.ChangeCommitsIff | internal/workload/service.go:319-368 | Ready, start, settle and fail commit exactly from planned, ready, metering and metering, for a steward or the operator of the workload. |
| WorkloadHistory.SubmitCommitsIff | internal/workload/service.go:171-213 | Submitting commits exactly for the operator of an executing workload with two different streams and no stream that is not aligned. |
| Workloads.Service.Submit | internal/workload/service.go:171-213 | Moves an owned executing workload to metering exactly when it has at least two streams and all are aligned. |
| Workloads.Service.Cancel | internal/workload/service.go:224-267 | Cancels a workload and releases its live pool lease in one transaction, and conflicts when the live lease belongs to another workload. |
| Workloads.Service.Reopen | internal/workload/service.go:269-313 | Inserts a new lease under the unique keys before it moves the workload, and writes nothing when the keys collide. |
| Workloads.PoolService.Reserve | internal/provider/service.go:131-169 | Checks the pool as it was read before the transaction, then inserts a lease under the keys for one lease per workload and one live lease per pool, or refuses. |
| Workloads.PoolService.Renew | internal/provider/service.go:171-199 | Finds the live lease of the pool as it was read before the transaction and renews it, if the row still has the owner, token and version that the caller names, is not released and its expiry reads as not passed. |
| Workloads.PoolService.Release | internal/provider/service.go:201-223 | Finds the live lease as it was read before the transaction and releases it, if the row still has the owner, token and version that the caller names; an expired lease may still be released. |
| PoolHistory.LeasesAreHistory | internal/storage/migrations/001_initial.sql:107-123 | After any run a pool lease is what the committed calls tell: taken, renewed, released by its holder, by canceling the workload of its pool or by recovery; a pool has at most one live lease and a workload at most one lease on a pool. |
| PoolHistory.PlanCommitsIff | internal/workload/service.go:77-160 | A plan whose key has no live record commits exactly when its input is valid, provider, pool and offer are known, active and fit together, the ids are new and the pool is free, and no record of its key reads as not yet expired. |
| PoolHistory.ReserveCommitsIff | internal/provider/service.go:131-169 | A pool is reserved exactly when it was seen active, has no live lease and never had one for that workload, under a new id. |
| PoolHistory.HolderCommitsIff | internal/provider/service.go:171-223 | Renewing commits exactly for the holder of the live lease, seen before and found again, whose expiry reads as not passed; releasing needs no expiry. |
| PoolHistory.CancelCommitsIff | internal/workload/service.go:224-267 | Canceling commits exactly before metering, for a steward or the operator, unless another workload holds the pool, and leaves the pool free. |
| WorkloadInvariants.ReopenNeverCommits | internal/storage/migrations/001_initial.sql:107-123 | Every workload already has a lease row on its own pool, so the lease that reopening inserts always violates the key and reopening never commits. |
| WorkloadInvariants.PlanKeeps | internal/workload/service.go:126-134 | Planning keeps the pipeline invariant; in particular each new workload gets a lease row on its own pool. |
| WorkloadInvariants.CancelKeeps | internal/workload/service.go:224-267 | Canceling keeps the pipeline invariant and leaves the released lease row in place. |
| WorkloadInvariants.ReservePoolKeeps | internal/provider/service.go:131-169 | Reserving a pool keeps the pipeline invariant: lease rows are only added, under the unique keys. |
| WorkloadInvariants.ReleasePoolKeeps | internal/provider/service.go:201-223 | Releasing a pool keeps the pipeline invariant: the row stays, with its pool and workload. |
| Planning.CreationsApart | internal/workload/service.go:62-160 | Two creations under one idempotency key, with any run of the system between them, read clocks at least 24 hours apart. |
| Planning.ReplaysReturnFirst | internal/idempotency/store.go:17-84 | After a creation and until the next one under its key, a plan within 24 hours returns the first workload and lease if the request is the same and conflicts if it differs, writing nothing either way; later no replay happens. |
| Planning.RecordStep | internal/idempotency/store.go:17-73 | Only a creation under a key changes the record of that key, and only over an expired record or none. |
| Planning.StaleRecordBlocksIff | internal/idempotency/store.go:43-50 | A plan over an expired record creates exactly when the text guard of the DELETE can tell the two times apart, that is when they are comparable; otherwise it fails on the key and writes nothing. |
| Fingerprints.FramedInjective | internal/domain/identity.go:44-51 | On parts without a zero byte the bytes given to SHA-256 determine the parts. |
| Capacity.ValidateInputs | internal/capacity/service.go:288-313 | The scan with two maps accepts exactly the batches whose inputs are each valid and differ pairwise in sequence and key. |
| Capacity.Service.OpenStream | internal/capacity/service.go:52-94 | Opens one empty stream per kind for an owned ready or executing workload, or refuses with the specified error. |
| UsageHistory.StreamsAreHistory | internal/capacity/service.go:52-279 | After any run a stream has the workload and kind it was opened with and the status of the last committed call on it: opened, sealed, or aligned with its workload. |
| UsageHistory.OpenCommitsIff | internal/capacity/service.go:52-94 | Opening commits exactly for the operator of a ready or executing workload without a stream of that kind, under a new id. |
| Capacity.Service.InsertSegments | internal/capacity/service.go:117-140 | The loop replays equal segments, refuses different data under a used key, inserts the rest, finds the stored segment of each input and counts what it inserted. |
| Capacity.Service.Append | internal/capacity/service.go:96-163 | Commits the whole batch with recomputed aggregates or nothing, and returns for each input the stored segment with its key and data; inserted plus replayed is the batch size and the number of new rows is the number inserted. |
| Capacity.Service.ValidateContinuity | internal/capacity/service.go:321-333 | Sorting a copy and comparing neighbours decides whether the listed segments are numbered by position without overlap. |
| Capacity.Service.Seal | internal/capacity/service.go:165-215 | Seals an open non-empty continuous stream of an owned executing workload with the digest of its listing, or leaves the tables unchanged. |
| Capacity.Service.ValidateAlignment | internal/capacity/service.go:343-362 | The scan accepts exactly when all streams are sealed and not empty and the latest start exceeds the earliest end by at most the tolerance. |
| Capacity.Service.TransitionAll | internal/capacity/service.go:243-252 | The loop over the listed streams aligns all of them and nothing else and returns their rows in that order; none of its conditional updates misses. |
| Capacity.Service.Align | internal/capacity/service.go:217-279 | Aligns every stream of an executing workload together and returns their stored rows in listing order, or aligns none. |
| CapacityProofs.AdjacentIffTiled | internal/capacity/service.go:321-333 | The check on neighbours accepts exactly the segment sets numbered 0..n-1 and pairwise disjoint in that order. |
| CapacityProofs.SealedSpan | internal/capacity/repository.go:167-197 | For such a set, MIN(start) and MAX(end) are the first start and the last end in listing order, and their difference is total usage plus total gaps. |
| CapacityProofs.ScanIsHelly | internal/capacity/service.go:343-362 | The alignment scan accepts exactly when every two ranges overlap within the tolerance, exactly when all extended ranges share an instant, and its difference is an int64. |
| CapacityTheorems.SealAcceptsIff | internal/capacity/service.go:165-215 | In a reachable state sealing commits exactly for an open stream of an owned executing workload whose non-empty segments are numbered 0..n-1 and disjoint in that order. |
| CapacityTheorems.SealedAggregates | internal/capacity/repository.go:167-197 | In a reachable state the cached count, first and last of a sealed or aligned stream are recomputed from its listing, and last minus first is total usage plus total gaps. |
| CapacityTheorems.AlignAcceptsIff | internal/capacity/service.go:217-279 | In a reachable state aligning commits exactly when the guards hold, at least two streams are all sealed and every two ranges overlap within the tolerance, which is when all extended ranges share an instant; no overflow. |
| CapacityTheorems.ListedByKind | internal/capacity/repository.go:45-50 | The streams of a workload are listed in the order of the text of their kind. |
| CapacityInvariants.AppendKeeps | internal/capacity/service.go:96-163 | Appending keeps the unique keys, the cached aggregates and every other stream and batch of the pipeline as the invariant demands. |
| CapacityInvariants.SealKeeps | internal/capacity/service.go:165-215 | Sealing keeps the pipeline invariant: a stream that is no longer open is tiled. |
| SealDigests.DigestsStay | internal/capacity/service.go:335-341 | In every reachable state the digest of a sealed or aligned stream is that of the segments that it has now. |
| SealDigests.SealIdentifies | internal/capacity/service.go:335-341 | On locations without a zero byte and checksums without a line end, two listings have one digest preimage exactly when they agree, segment by segment, in sequence, range, location and checksum. |
| CapacityInvariants.AlignKeeps | internal/capacity/service.go:217-279 | Aligning keeps the pipeline invariant. |
| AppendProofs.AppendFromIff | internal/capacity/service.go:117-140 | The append loop stores the union of the old and the given records, and with fresh ids accepts exactly when no two records of that union share a key or a sequence number. |
| UsageHistory.UsageIsHistory | internal/capacity/service.go:96-163 | Conservation of usage: after any run the records stored for a stream are exactly those that the committed appends to it brought. |
| UsageHistory.AppendAcceptsIff | internal/capacity/service.go:96-163 | In a reachable state and with new ids an append commits exactly when it brings 1 to 250 valid records, each with its own key and sequence number, from the operator, to an open stream of an executing workload, and the stored and the new records have no two with one key or one sequence number. |
| UsageHistory.StoredIsValid | internal/capacity/service.go:288-313 | In every reachable state each stored record has a non-negative sequence, a non-empty int64 range, a location, a key and a checksum of 64 lower-case hexadecimal digits. |
| AppendProofs.AppendIdempotent | internal/capacity/service.go:96-163 | After an accepted batch and any further run of the system, the same caller appending the same batch again, with whatever ids and clock reading, changes no table: it commits while the stream is open and its workload executing, and is refused otherwise. |
| AppendProofs.AppendsCommute | internal/storage/migrations/001_initial.sql:143-156 | If batch A and then batch B commit, so do B and then A, on the same or on different streams, with the same records and aggregates up to ids, versions and times. |
| Settlement.AlignmentStep | internal/capacity/service.go:217-279 | A call changes the aligned streams of a workload only from none to all of its streams, by aligning that workload. |
| Settlement.AlignedForever | internal/capacity/service.go:217-279 | Once a stream of a workload is aligned, the aligned set is final over any run and no later alignment of the workload commits. |
| Settlement.AlignedInOneStep | internal/capacity/service.go:217-279 | The aligned streams of a workload in any run were all aligned by one call, which found none aligned and aligned all there were. |
| Metering.Service.Create | internal/metering/service.go:41-102 | Creates a batch with one open item for each listed segment of a settled workload whose streams are all aligned and returns batch and items, or stores nothing. |
| Metering.Service.CollectSegments | internal/metering/service.go:70-87 | The loop refuses an unaligned stream and otherwise collects the segments stream by stream. |
| Metering.Service.InsertItems | internal/metering/repository.go:33-51 | Inserts the items in order under the primary key and the key on batch and segment, and returns their rows. |
| Metering.Service.Claim | internal/metering/service.go:104-145 | Leases an open, reworked or expired batch to the caller and returns it with its items by creation time and id; both the check on the clock and the text guard of the UPDATE must find it expired. |
| Metering.Service.Renew | internal/metering/service.go:147-176 | Renews a batch lease under owner, token and version while its expiry reads as not passed. |
| Metering.Service.Record | internal/metering/service.go:178-230 | Completes one item of the batch with a bounded JSON payload, under a live lease and the version of the item, and touches no other row. |
| Metering.Service.Submit | internal/metering/service.go:232-268 | Submits a held batch exactly when none of its items is incomplete, both on the clock and by the text guard of the UPDATE, and gives up the lease. |
| Metering.Service.Review | internal/metering/repository.go:234-262 | Accepting leaves the items alone; rejecting reopens every item of that batch and of no other. |
| MeterHistory.BatchesAreHistory | internal/metering/service.go:41-310 | After any run a batch is what the committed calls on it and the recoveries tell: status, lease, and times of submission and review. |
| MeterHistory.ItemsAreHistory | internal/metering/repository.go:112-262 | After any run an item has the label and payload last recorded for it, and is complete exactly when no rejecting review of its batch followed. |
| MeterHistory.ReviewMeans | internal/metering/repository.go:225-262 | A rejection leaves the batch in rework, each of its items incomplete with its version raised, and every other row as it was; an acceptance touches no item. |
| MeterHistory.AcceptedIffReviewed | internal/metering/service.go:270-310 | Over any run from the empty database a batch is accepted exactly when the last review of it that committed accepted it. |
| MeterHistory.ReleasedWasAccepted | internal/ledger/repository.go:137-163 | Every workload in a release has a batch that a committed accepting review accepted. |
| MeterHistory.CreateCommitsIff | internal/metering/service.go:41-102 | In a reachable state a batch is created exactly for a settled workload with usage whose streams are all aligned, under new ids. |
| MeterHistory.ClaimCommitsIff | internal/metering/service.go:104-145 | A batch is claimed exactly when it is open, in rework, or claimed with an expiry that has passed on the clock and as text. |
| MeterHistory.HolderCommitsIff | internal/metering/service.go:147-268 | Renewing, recording and submitting commit exactly for the holder of the batch, under the right version, with a valid item and with all items complete, respectively. |
| MeterHistory.ReviewCommitsIff | internal/metering/service.go:270-310 | A review commits exactly for a submitted batch, and a rejection needs a reason. |
| MeteringInvariants.CreateKeeps | internal/metering/service.go:41-102 | Creating a batch keeps the invariant: the items of each batch are in bijection with the segments of all streams of its workload. |
| MeteringInvariants.CollectsAll | internal/metering/service.go:70-87 | The segments listed for a new batch are exactly the segments of the workload over all its streams. |
| MeteringInvariants.ReviewKeeps | internal/metering/service.go:270-310 | Reviewing keeps the invariant: all items of a submitted or accepted batch are complete. |
| MeteringInvariants.SubmitKeeps | internal/metering/service.go:232-268 | Submitting keeps the invariant, because it has counted no incomplete item. |
| MeteringInvariants.TextGuardMissesIff | internal/metering/repository.go:135-146 | When the check on the clock has passed, the text guard of the UPDATE misses an expired batch, or a held batch on submission, exactly when the two times are not comparable. |
| Ledger.MembershipDigest | internal/ledger/digest.go:12-25 | Sorting a copy and writing the lines gives, for every permutation of the members, the text of the one strictly ascending order. |
| Ledger.ListMembers | internal/ledger/repository.go:177-205 | Lists each member of the ledger once, by workload and then id. |
| Ledger.Service.Create | internal/ledger/service.go:31-55 | Stores an empty first-revision draft under an unused trimmed name. |
| Ledger.Service.CheckEligible | internal/ledger/repository.go:137-163 | The loop reports the first workload that is not settled with a reservation and an accepted batch. |
| Ledger.Service.AddWorkloads | internal/ledger/service.go:57-113 | Adds all listed workloads to a draft and recounts its members, or changes nothing; returns the added members and the draft with the count it read plus their number. |
| Ledger.Service.Freeze | internal/ledger/service.go:115-156 | Freezes a draft whose count is right and whose members are all eligible, with the digest of its membership. |
| Ledger.Service.Review | internal/ledger/service.go:158-208 | Stores the only review of a frozen ledger and approves it or returns it to draft; a rejection clears digest and freezing time in the returned draft but not in the stored row. |
| Ledger.Service.Publish | internal/ledger/service.go:210-248 | Publishes an approved ledger whose recomputed count and digest match, with one release item per member, or changes nothing. |
| Ledger.Service.InsertReleaseItems | internal/ledger/repository.go:263-283 | The loop adds exactly one release item for each listed member. |
| Ledger.Service.Revoke | internal/ledger/service.go:250-288 | Revokes a published release that has no active job. |
| LedgerHistory.LedgersAreHistory | internal/ledger/service.go:31-248 | After any run a ledger has the trimmed name it was created with, the status of the last committed call on it and the time of its last freezing, which a rejection leaves in place. |
| LedgerHistory.MembersAreHistory | internal/ledger/service.go:57-113 | After any run a workload is in a ledger exactly when a committed call added it there. |
| LedgerHistory.ReleasesAreHistory | internal/ledger/service.go:210-288 | After any run a release has the ledger and time of its publication and, once revoked, the time of its revocation. |
| LedgerHistory.RevocationIsFinal | internal/ledger/repository.go:317-342 | Once a revocation has committed, and over any further run, the release is revoked at that reading, no job is enqueued for it, none of its jobs is active and it is not revoked again. |
| LedgerHistory.RevokeCommitsIff | internal/ledger/service.go:250-288 | A revocation with a reason commits exactly for a published release without a queued, running or retrying job. |
| LedgerHistory.FreezeCommitsIff | internal/ledger/service.go:115-156 | In a reachable state a ledger is frozen exactly when it is a draft with a member. |
| LedgerHistory.ReviewCommitsIff | internal/ledger/service.go:158-208 | A review commits exactly for a frozen ledger that was never reviewed, a rejection needs a reason, and the review row holds the verdict. |
| LedgerHistory.AddCommitsIff | internal/ledger/service.go:57-113 | An addition commits exactly for a draft and up to 250 different eligible workloads that it does not have yet, under new ids. |
| LedgerInvariants.FreezeKeeps | internal/ledger/service.go:115-156 | Freezing keeps the invariant: count and digest of a frozen ledger are those of its members. |
| LedgerInvariants.AddKeeps | internal/ledger/service.go:57-113 | Adding members keeps the invariant, and leaves the digests and releases of all other ledgers right. |
| LedgerInvariants.PublishKeeps | internal/ledger/service.go:210-248 | Publishing keeps the invariant: the items of a release are exactly the members of its ledger. |
| LedgerInvariants.RevokeKeeps | internal/ledger/service.go:250-288 | Revoking keeps the invariant: no active job is left without a published release. |
| LedgerInvariants.JobCallKeeps | internal/scheduler/service.go:55-65 | Every job call keeps the invariant: an active job belongs to a published release. |
| LedgerInvariants.DigestStable | internal/ledger/digest.go:12-25 | The digest of a ledger depends only on its own member rows. |
| LedgerStability.DigestIdentifiesMembers | internal/ledger/digest.go:12-25 | On ids without a zero byte, the digest preimages of a ledger in two states agree exactly when its member rows do. |
| LedgerStability.FrozenConsistent | internal/ledger/service.go:115-156 | In every reachable state a ledger past draft has the count and digest recomputed from its members, at least one member, and only eligible members. |
| LedgerStability.PublishCommitsIff | internal/ledger/service.go:224-230 | In every reachable state publishing commits exactly when the ledger is approved and the release id is new, and it never fails its membership check. |
| LedgerStability.AddReturnsStored | internal/ledger/service.go:102-104 | In every reachable state the count that adding workloads computes for the returned draft is the count that it stores. |
| LedgerStability.MembersStayEligible | internal/ledger/repository.go:137-163 | A member of a ledger stays in it, stays eligible and stays fully settled over any further run. |
| LedgerStability.ReviewedOnce | internal/storage/migrations/001_initial.sql:191-203 | After a review that commits, no review of that ledger ever commits again. |
| LedgerStability.RejectedNeverPublished | internal/ledger/service.go:187-193 | A ledger whose review rejected it is not published now or after any run, and has no release. |
| LedgerStability.FailedForever | internal/workload/service.go:294-300 | A failed workload never changes again, over any run. |
| LedgerStability.ActiveJobsArePublished | internal/ledger/repository.go:317-326 | In every reachable state a queued, running or retrying job belongs to a published release. |
| LedgerStability.RevokedStaysIdle | internal/ledger/service.go:259-276 | A revoked release stays revoked and has no active job, now and after any run. |
| Reachability.CommandKeeps | internal/storage/database.go:138-165 | Every call of the system, committed or rolled back, keeps the pipeline invariant. |
| Bookkeeping.CallsAreBooked | internal/storage/migrations/001_initial.sql:86-290 | A committed call dates each row it changes in the ten versioned tables with its reading and raises its version by exactly one, starts new rows at version one, keeps creation times and deletes no row; segments and ledger members are only inserted, dated by the reading. |
| Refusals.NotFoundMeansMissing | internal/domain/errors.go:61-63 | For every call: "not found" answers only that a row which the call needs is missing, and without the row that it is about the answer is that or "malformed". |
| Refusals.MalformedEverywhere | internal/domain/errors.go:57-59 | A call that is malformed in one state is malformed in every state: that verdict depends on the call alone. |
| Refusals.ForbiddenMeansForeign | internal/workload/service.go:339-341 | For every call: "forbidden" answers exactly the well formed calls, in the right status, on a workload of another operator. |
| Refusals.ForbiddenForever | internal/capacity/service.go:117-119 | What is forbidden once never commits, over any run in between, because operators are for good. |
| Refusals.ReusedForever | internal/capacity/service.go:123-131 | An append is refused as a reuse of a key only when the stream has another record under a key of the batch, and then it never commits. |
| Refusals.PlanReusedIff | internal/workload/service.go:77-80 | A plan is refused as a reuse of its key exactly while the record of the key is of another request. |
| Refusals.LostMeansUnheld | internal/scheduler/service.go:118-268 | For every call: "lease lost" answers only a call that names a lease and is not from its holder, or comes too late. |
| Reachability.ReachableInv | internal/storage/migrations/001_initial.sql:86-290 | The pipeline invariant holds in every state that calls can reach from the empty database. |
| Settlement.ReleaseContents | internal/ledger/service.go:210-248 | In every reachable state a release is published or revoked and not empty, its items are exactly the members of its ledger, and each member workload is settled with at least two streams, all aligned and tiled, and an accepted batch whose complete items are in bijection with all its segments. |
| Settlement.ReleasedAlignedOnce | internal/capacity/service.go:217-279 | All streams of a released workload were aligned by one and the same call. |
| Attainment.ReleaseAttainable | internal/ledger/service.go:210-248 | No reachable state is a dead end: under unused names, and while a metering lease taken now reads as not expired now, some run leads from it to a new published release of one new, fully settled workload. |
| Attainment.SomeReleaseReachable | internal/storage/migrations/001_initial.sql:86-290 | With a metering time to live in whole seconds the empty database leads to a published release, so the statements about releases speak of something. |
| Credit.Service.Open | internal/ledger/credit.go:19-46 | Opens an empty account for an unused three-letter currency. |
| Credit.Service.Deposit | internal/ledger/credit.go:48-87 | Adds the amount and its entry once per key; the UPDATE whose row count is not checked always changes one row. |
| Credit.Service.Reserve | internal/ledger/credit.go:89-137 | Holds the amount once per key while the available credit covers it, and conflicts when the key belongs to a deposit. |
| Credit.CreditStepConserves | internal/ledger/credit.go:48-137 | Every call keeps each balance equal to the sum of deposits, each held amount equal to the sum of holds, 0 <= held <= balance, one entry per key, and all older entries. |
| SystemCredit.CreditsConserved | internal/storage/migrations/001_initial.sql:345-368 | The same in every reachable state of the system; while the deposits of the tenant stay below 2^63 the balance is an int64. |
| CreditHistory.BalancesAreHistory | internal/ledger/credit.go:48-137 | Conservation against the calls: after any run the balance of an account is the sum of the amounts of the committed deposits to it, and its held amount that of the committed reservations, each counted once per key. |
| CreditHistory.EntriesAreHistory | internal/ledger/credit.go:62-137 | After any run the entries are those that the committed calls asked for, with account, workload, kind, amount, key and time, in the order of the calls and once per key. |
| CreditHistory.ReserveCommitsIff | internal/ledger/credit.go:89-137 | Under a new key and entry id a reservation commits exactly when its amount is positive and at most the deposits so far less the holds so far, both summed over the calls. |
| CreditHistory.OpenCommitsIff | internal/ledger/credit.go:19-46 | An account is opened exactly for a currency of three characters that, in upper case, no account has; it is empty and no other account changes. |
| CreditHistory.KeysAreHistory | internal/ledger/credit.go:62-71 | A key has an entry on an account exactly when a committed call used it there. |
| SystemCredit.KeyTakesEffectOnce | internal/ledger/credit.go:48-137 | After a deposit or reservation that commits, every later call under its key on that account writes nothing, over any run in between. |
| Credit.AmountsFit | internal/ledger/credit.go:113-121 | While all deposits stay below 2^63, stored amounts and the available credit are int64 values. |
| Timestamps.SecondsOrder | internal/storage/database.go:196 | The printed date and time fields, compared in order, compare like seconds of the Gregorian calendar. |
| Timestamps.TextOrderIffNoPrefix | internal/storage/database.go:196 | Two printed timestamps compare as text like the instants exactly when they differ in the whole second or neither trimmed fraction is a proper prefix of the other (section 5.1 of RFC 3339). |
| Timestamps.StampOfInstant | internal/storage/database.go:196 | Every instant of the four-digit years has exactly one valid civil time with these nanoseconds. |
| Timestamps.TextOrderIffComparable | internal/storage/database.go:196 | The stored texts of two instants compare like the instants exactly when they are comparable: they differ in the whole second or neither trimmed fraction is a proper prefix of the other. |
| Timestamps.TextBeforeWeak | internal/scheduler/repository.go:49 | Comparing stored texts is a weak order, so the ORDER BY of the due queries always has a first row. |
| Timestamps.FixedDigitsAgree | internal/metering/repository.go:142-144 | With equally many printed fractional digits, the text guards of SQL agree with comparing instants. |
| Timestamps.TextOrderFails | internal/storage/database.go:196 | A concrete family of failures: half a second into any second sorts before its start. |
| LikeSearch.EscapeLikeIsOnePass | internal/ledger/repository.go:355-359 | The three chained replacements equal a one-pass escape of backslash, percent and underscore. |
| LikeSearch.SearchIsContains | internal/ledger/repository.go:72-77 | The pattern built from a search text matches a name exactly when the lower-cased name contains the lower-cased text literally. |

## Left out

- Tenants: the model is one tenant, because every query filters on the tenant id.
- Roles and authentication: a principal is already authorised; the guards on owner and operator are kept.
- Request ids, audit rows, and the outbox rows that service calls add: they have no effect on later calls. The events table is fed by enqueue commands of any id and topic instead.
- Providers, pools and capacity offers are an environment that may change between any two calls; their own calls are not modelled.
- Digests: the digest columns hold the bytes given to SHA-256, so collisions of the hash and its hexadecimal form are not modelled.
- Metering payloads: whether a payload is valid JSON is a parameter of the call, because JSON syntax has no part in the pipeline.
- Pool calls: what they read before their transaction is a parameter, so any older state may have been read.
- Planning: the stored response is the value itself; JSON encoding and the status code of the record are not modelled.
- Capacity.ValidateInputs: its bound on the end of a segment stands for the width of the int64 column.
- Amounts and nanoseconds: integers are unbounded; the lemmas say when the values are int64. SQL arithmetic beyond 64 bits is not modelled.
- Backoff: computed with exact integers; the floating-point factor of the source is exact for retry bases below 2^53 nanoseconds.
- Time: an instant is a number of nanoseconds from the beginning of the year zero; an instant outside the four-digit years has an empty printed form. Parsing is not modelled.
- Text: trimming, lower and upper case are those of ASCII, and lengths count characters.
- LikeSearch.SearchIsContains: covers the search condition only; paging, status filters and the SQL limit on pattern length are not modelled.
- Foreign keys to users, and CHECK constraints that repeat a guard of the code.
- The statuses no call reaches: archived workloads and ledgers, invalid streams, canceled batches and jobs.
- SQL driver behaviour, busy retries, write-ahead logging, migrations as executed code, and context cancellation: transactions are atomic and serial.
- HTTP routing, configuration, the worker loop, the outbox sender, settlement runs, and listing calls: plumbing that would only add easy members.
