# Notification delivery: a verified model

A caller asks for an HTTP notification. The service stores a task and an outbox event in one
PostgreSQL transaction. Publishers move events to RabbitMQ, workers receive messages, claim the
task under a lease, call the supplier and write the result back; a scheduler brings due retries and
expired leases back into the queue; operators replay dead tasks; retention deletes old terminal
ones. Everybody runs concurrently, everybody may crash between two statements, and every database
statement may be committed although its caller sees an error. This project models that system and
proves what it promises about lost notifications, repeated supplier calls, stale owners and
repeated requests.

## How the model is built

**The protocol** (`rows`, `tables`, `ledger`, `protocol`, `invariant`, `safety`, `guarantees`,
`origins`, `columns`, `machine`, `progress`, `leased`, `drops`). `Rows` says what each UPDATE does to a row, `Tables` what each statement or
transaction does to the two tables. `Protocol` is a transition system over the tables, the copies of
messages in the broker, and any number of worker and publisher sessions. A step is one statement,
one broker event, one call of Send, a crash, or an operator's action; a fault argument
(`Answered`, `Lost`, `Unseen`) says whether it was committed and whether its caller learns of it.
Clock readings are arguments of the steps and unconstrained, so no safety theorem depends on
clocks that agree or advance; the theorems that a continuation exists ask for one whose clock
starts at any given moment and never runs backwards, and whose retries are decided with a jitter that
can be drawn. Ledgers, births and slots are history: no step's effect on the tables, the
broker or a session depends on them (`Origins.StepIsStatement`). `Invariant.Inv` is the inductive
invariant; the theorems about reachable states and whole runs follow from it. `Columns` traces every row
of every run, column by column, to the statement that wrote it; `Selection` says the same of the three
SELECTs, and the store's methods of their UPDATEs.

**The code** (`store`, `ordering`, `selection`, `programs`, `joint`, `worker_loop`, `outbox_service`, `intake_service`,
`maintenance`). `Store.Database` holds the tables as fields and has the queries as methods with the
source's loops and branches. `Programs.World` pairs that database with the protocol state it is the
visible part of; `World.Others` stands for any run of steps the other participants take between two
statements of one's own. `Handle`, the worker loop's turn, `RunOnce`, `Create`, the scheduler's pass,
replay and retention run over the world and are proved to take protocol steps only, so every theorem
about the protocol holds of them. `joint` puts the protocol's steps and those of the limiter's
threads into one history: `Handle` has not turned to the limiter when it claims, holds a slot of its
task's destination when it is admitted and when it sends, and holds none when it writes the result
(`Joint.AtGate`, `Joint.SendsUnderSlot`). `RunOnce` runs over the broker client of `confirms`.

**The locks** (`row_locks`, `atomicity`, `orderly`). `FOR UPDATE SKIP LOCKED` and the unique index at
the granularity of select, insert, update and commit, refined to atomic transactions; these are exactly
the actions of the protocol's steps. What interleaves at this granularity is a run of the protocol if
and only if its effects are orderly (`Orderly.LocksMatchProtocol`): identifiers and tokens are new, a
claim follows a message for its task, a result follows its own claim and is decided from the row that
claim returned, and marks follow the order of their batch. All of that is read off the effects and
the state they begin in.

**The limiter** (`limiter`), **publisher confirms** (`confirms`), **retry arithmetic**
(`retry_arithmetic`, `notification`) and **request identity** (`canonical_json`, `intake_service`)
have models of their own. `sequences` and `wrappers` are helpers.

## What the code does otherwise than its documentation says

- The design document (section 10) lets a `Retry-After` count "when it remains within the task
  lifetime". The code measures every wait against the whole lifetime, not against what is left of
  it, so a task may be told to wait past its own deadline, by the supplier and by its own policy
  alike (`RetryArithmetic.RetryMayPassDeadline`). `RetryArithmetic.DeadlineRespected` says for
  exactly which inputs the decision stays before the deadline. A task that waits past it can only
  die, and so does one the scheduler gets to too late: `Leased.WhenDeliverable` says for every status
  exactly when a task can still be delivered without a replay.
- The design document's state machine (section 9) takes a due retry straight to `delivering` and an
  expired lease to `retry_wait`. The code takes both to `pending`, the second in one commit that is
  a path of two edges of `CanTransition` (`Guarantees.StatusFollowsMachine`).
- Validation admits a retry delay equal to the lifetime, and jitter may then push it past the
  lifetime, which makes the task dead. `RetryArithmetic.DelaySurvivesJitter` gives the exact
  condition under which a validated delay is always honoured.
- A nil error from Publish can be due to an earlier message's confirmation once an earlier call was
  given up on its context (`Confirms.NilIsTrustworthy`, if and only if). The publisher's loop does
  not end at such a failure, but it can then claim no batch, and it ends at every other one, so no
  nil it acts on is of that kind (`Confirms.LoopIsHonest`, `OutboxService.LoopIsReady`).
- RunOnce's count is the number of rows its marks changed if and only if its last mark was not one
  that was committed on a row of its own although its answer was lost; then it is one less
  (`OutboxService.Service.RunOnce`, and `OutboxService.UnseenMarkIsNotCounted` for such a run).
- The queue is declared as a quorum queue without a delivery limit and deployed on RabbitMQ 4.1
  (`internal/messaging/rabbitmq/topology.go:19`, `deployments/compose.yaml:36`), which by default
  drops a message after twenty redeliveries. Handle requeues at once whenever the database fails, so
  a short outage loses any queued message (`Drops.OutageDrops`). The protocol assumes that the broker
  drops nothing; `Drops` says what happens when it does. Dispatch coverage survives, in every
  continuation, exactly the bearable drops (`Drops.DropKeepsCoverage`,
  `Drops.CoverageNeedsBearableDrops`): of an event that is neither published nor confirmed and about to
  be marked, of a generation that is over, or of a message that has another copy left. One drop after
  an outage can leave a task pending for ever, out of the reach of scheduler, replay and retention
  (`Drops.OneDropLoses`, `Drops.LostForEver`).

## Model

| member | source | states |
|---|---|---|
| Invariant.StepKeeps | internal/store/postgres/delivery.go:14-73 | Every step of every participant, crashes and unknown commits included, keeps the invariant: unique keys, exact counters, one event per generation, honest sessions, and a broker copy for every unsettled enqueued event. |
| Safety.StepChanges | internal/store/postgres/retry.go:66-93 | Seen from one task, a step does nothing, or makes exactly one of the row changes with its history (a result being the one its session decided on), counts one call of Send, or deletes the row. |
| Safety.RunIsLater | internal/store/postgres/query.go:55-56 | Along every run ids are not reused, requests are immutable, generations and attempt counts never fall, a task never returns to a pending generation it has left, and `delivered` is final. |
| Guarantees.DispatchCoverage | internal/delivery/service.go:55-93 | In every reachable state a pending task's current event is unpublished or has an unacknowledged copy in the broker. |
| Guarantees.AcknowledgedIsSettled | internal/app/bootstrap.go:124-135 | Once a worker may acknowledge a message of generation g, its task is never again pending at g, in any continuation. |
| Guarantees.SendsBounded | internal/delivery/service.go:57-75 | In every run, calls of Send for a task are at most its attempt count, which is at most its budget plus its committed replays. |
| Guarantees.SendsBoundedAfterDeletion | internal/store/postgres/retention.go:9-20 | The budget a task was created with plus its replays also bounds the calls of workers that outlive the row. |
| Guarantees.StatusChangesBounded | internal/store/postgres/retry.go:36-93 | In every run a task's status changes other than replays are at most 3 * budget + 1 + 4 * replays. |
| Guarantees.MeasureDrops | internal/store/postgres/retry.go:36-93 | A measure of what is left of the budget and the status is never negative and drops with every status change that is not a replay. |
| Guarantees.RunTallies | internal/delivery/service.go:68-71 | The recorded history of calls, replays and status changes equals their count along the run. |
| Guarantees.ExactCounting | internal/store/postgres/retry.go:75-89 | attempt_count is the generation while pending and one more otherwise; there is exactly one event per generation up to the task's, and none beyond. |
| Guarantees.ConflictArmIsDead | internal/store/postgres/retry.go:88-89 | The slot a rescheduled task's event goes to is always free, and scheduler-made generations stay below the budget. |
| Guarantees.NoTaskHides | internal/store/postgres/retry.go:38-39 | Every nullable column is set in exactly the status it belongs to, so every waiting or leased task is due from some moment on. |
| Guarantees.LeaseLedger | internal/store/postgres/delivery.go:64-72 | The attempt count is the number of leases ended by their own result, plus those ended by the scheduler, plus one if a lease is running; no lease is ended twice. |
| Guarantees.EndedLeaseStaysEnded | internal/store/postgres/delivery.go:64-67 | A lease that has ended never owns its task again. |
| Guarantees.StaleResultIsInert | internal/store/postgres/delivery.go:64-72 | A result under a lease that does not own the row changes neither table. |
| Guarantees.StatusFollowsMachine | internal/notification/state.go:20-33 | Every committed status change is one edge of CanTransition, or the scheduler's lease recovery from delivering to pending; a delivered row does not change. |
| Guarantees.RecoveryIsAPath | internal/store/postgres/retry.go:77-82 | Lease recovery is no edge of CanTransition but a path of two. |
| Machine.EdgesAreTaken | internal/notification/state.go:20-33 | The reference state machine is exact: its edges are precisely the status changes that some step of some run makes, lease recovery apart. |
| Guarantees.DeliveredIsFinal | internal/notification/state.go:30-31 | A delivered row never changes again; it can only be deleted. |
| Guarantees.EverybodyMayCrash | internal/app/bootstrap.go:120-137 | From every state of every run all workers and publishers may crash, and then the tables are as they were and every message is queued again. |
| Origins.StepIsStatement | internal/store/postgres/outbox.go:27-61 | The tables after a protocol step are the tables after its SQL statement or transaction, whatever the history says. |
| Origins.StepEvent | internal/store/postgres/outbox.go:27-61 | What any step does to one event: nothing, its birth under a new id, a claim of a claimable row, its mark by the claimer, or its task's deletion. |
| Origins.PublishedWasEnqueued | internal/outbox/service.go:67-77 | An event that is marked published was put on the broker by some step of the run. |
| Origins.PublishedOnce | internal/store/postgres/outbox.go:55-56 | published_at, once set, never changes while the row exists. |
| Origins.NeverClaimedAgain | internal/store/postgres/outbox.go:31 | A published or deleted event is never claimed again. |
| Origins.ClaimsExclude | internal/store/postgres/outbox.go:31 | A claimed event reaches another publisher only by a claim whose clock has passed the first claim's end. |
| Origins.ClaimLasts | internal/store/postgres/outbox.go:31-36 | After a publisher has claimed an event until a given moment, another one has it only after a claim whose clock has passed that moment. |
| Origins.LeasesExclude | internal/store/postgres/delivery.go:64-67 | A leased task leaves its lease only by that lease's own committed result, or by a scheduler pass whose clock has passed the lease's end. |
| Origins.LeaseLasts | internal/store/postgres/delivery.go:15-17 | After a committed claim until a given moment the row is the session's and stays as it is in every run without its own result and without a scheduler pass past that moment. |
| Origins.WaitsItsTime | internal/store/postgres/retry.go:38 | A task in retry_wait stays as it is in every run until a scheduler pass over it whose clock has reached its retry time. |
| Origins.SuccessRecorded | internal/notification/state.go:3-18 | A lease counts as successful only if its own call of Send was answered with a 2xx status in the run. |
| Origins.DeliveredMeansAccepted | internal/store/postgres/delivery.go:54-67 | A delivered row goes back to a 2xx answer to a call of Send under a lease whose result was applied. |
| Origins.RetentionIsSafe | internal/store/postgres/retention.go:10-15 | Retention keeps the invariant, deletes only delivered or dead tasks that were last touched before the cutoff and whose events are all published, leaves other rows alone, and leaves no event without its task. |
| Origins.DeletedStaysDeleted | internal/store/postgres/delivery.go:15-29 | After deletion, a claim is answered "not acquired" and acknowledged, and an in-flight result is refused; neither touches the tables, in any continuation. |
| Origins.KeyKeepsItsTask | internal/store/postgres/intake.go:60-62 | Over any run in which a task is not deleted, its caller and key belong to it alone, with the request it was created with. |
| Columns.RowsAreWritten | internal/store/postgres/delivery.go:14-73 | Every task row in every run is, in all its columns, what one of the run's statements was given: the request, the lease and its end, the supplier's answer and the time of the decision, the scheduler's or the operator's clock. |
| Columns.EventsAreWritten | internal/store/postgres/outbox.go:27-61 | So is every event row: the task and generation it announces and when, the claimer and the end of its claim, the mark. |
| Columns.SupersededMarkIsInert | internal/store/postgres/outbox.go:54-61 | A mark changes the tables if and only if it is committed on an unpublished event whose claim is the session's own. |
| Progress.EveryTaskCanFinish | internal/store/postgres/retry.go:36-93 | From every reachable state, and whatever its clocks have read, each live task is at most eight steps, none a replay and no clock running backwards, from `delivered` or `dead`, with a jitter that can be drawn. |
| Progress.EveryTaskCanBeDelivered | internal/store/postgres/query.go:48-72 | From every reachable state, and whatever its clocks have read, each live task, even a dead one, can still be delivered within sixteen steps, no clock running backwards and every jitter one that can be drawn. |
| Progress.WaitingCanBeDelivered | internal/store/postgres/retry.go:67 | A task in retry_wait can be delivered without a replay, by clocks that have reached `floor` and go forward, if and only if its retry time and `floor` both lie before its own deadline. |
| Progress.DoomStays | internal/store/postgres/retry.go:67-69 | A task that waits past its deadline or is still waiting when the clock has passed it, or is dead or gone, stays so under every step but a replay, as long as no clock runs backwards. |
| Leased.LeasedCanBeDelivered | internal/store/postgres/delivery.go:50-73 | A task under a lease can be delivered without a replay if and only if its session can still get or write back a success, or write back a retry whose earliest time lies before the deadline, or the scheduler can recover the lease with budget left before the deadline. |
| Leased.WhenDeliverable | internal/store/postgres/retry.go:36-93 | For every status, exactly when a task can still be delivered without a replay, by clocks that go forward and a jitter that can be drawn. |
| Drops.DropKeepsCoverage | internal/messaging/rabbitmq/topology.go:19 | After the drop of a message, every pending task stays covered in all further runs if and only if its event is neither published nor about to be marked, or its generation is over, or another copy is left. |
| Drops.CoverageNeedsBearableDrops | internal/messaging/rabbitmq/topology.go:19 | Along a run with drops, dispatch coverage holds throughout, and in every drop-free continuation, if and only if every drop is bearable. |
| Drops.PendingIsDeliverableUnlessLost | internal/app/bootstrap.go:124-135 | A pending task can be delivered if and only if it is not lost: some message for it, of any generation, is or will be with the broker or a worker. |
| Drops.LostForEver | internal/store/postgres/retry.go:38-39 | A lost task stays pending, unchanged, under all steps and drops. |
| Drops.OutageDrops | internal/delivery/service.go:58-60 | Any queued message is dropped by a run of nothing but claims that fail and requeue, once the broker has had it back more than twenty times; tables and sessions are as before. |
| Drops.OutageLoses | internal/app/bootstrap.go:130-135 | Such a run loses every task whose only message that copy was. |
| Drops.OneDropLoses | internal/messaging/rabbitmq/topology.go:19 | From the empty database a run with a single drop, after an outage has returned the message more than twenty times, loses a task. |
| Drops.NothingIsLostWithoutDrops | internal/outbox/service.go:67-77 | In reachable states of the protocol no task is lost. |
| Tables.ScheduleAllRows | internal/store/postgres/retry.go:66-93 | The scheduler's loop gives each candidate its own step and leaves every other row alone. |
| Tables.ScheduleAllEvents | internal/store/postgres/retry.go:85-91 | The loop keeps every old event and adds exactly one event per rescheduled candidate whose slot is free. |
| Ordering.Take | internal/store/postgres/retry.go:40-41 | ORDER BY ... LIMIT always has an answer: in order, up to the limit, nothing earlier left out. |
| Ordering.TopIsUnique | internal/store/postgres/retry.go:40-41 | And only one. |
| Selection.DueByColumns | internal/store/postgres/retry.go:36-41 | The scheduler's SELECT picks, by COALESCE(next_attempt_at, lease_until) and id and up to its limit, exactly the unlocked rows whose retry time has come or whose lease has run out. |
| Selection.ClaimableByColumns | internal/store/postgres/outbox.go:29-34 | The publisher's SELECT picks, by created_at and id and up to its limit, exactly the unlocked rows that are unpublished and unclaimed or whose claim has run out. |
| Selection.DeletableByColumns | internal/store/postgres/retention.go:10-15 | Retention's SELECT picks, by updated_at and id and up to its limit, exactly the unlocked delivered or dead tasks last touched before the cutoff that have no unpublished event. |
| Selection.PassByColumns | internal/store/postgres/retry.go:66-93 | After a pass every candidate that is out of attempts or of time is dead, every other one is pending in its next generation, which has its event, with all their columns, and nothing else has changed. |
| Selection.CountersCount | internal/store/postgres/retry.go:67-92 | The counters are the numbers of candidates that ended dead and of expired leases that went back to pending. |
| Selection.SecondPassIsEmpty | internal/store/postgres/retry.go:36-97 | After a pass not cut short by its limit, a second pass at the same time selects nothing. |
| Store.Database.ScheduleCandidate | internal/store/postgres/retry.go:67-92 | One turn of the loop is the per-task step, although its UPDATE is guarded by the id alone. |
| Store.Database.Candidates | internal/store/postgres/retry.go:36-65 | The scheduler's SELECT picks the first due, unlocked rows and scans them as they are; no row before its retry time or the end of its lease is picked, and none whose time has come is left unless the limit is used up. |
| Store.Database.ScheduleDue | internal/store/postgres/retry.go:29-98 | The batch is the fold of the per-task step over the first due, unlocked rows, or nothing; scheduled + dead is the number of candidates and the counters count them. |
| Store.Database.ClaimDelivery | internal/store/postgres/delivery.go:14-48 | The claim acquires exactly a pending task, with the lease, its end as asked for, and one more attempt, leaves every other row and column alone, and says so unless its answer is lost. |
| Store.Database.ApplyDeliveryResult | internal/store/postgres/delivery.go:50-73 | The result is applied exactly under the lease that owns the row, column by column as its outcome demands. |
| Store.Database.ClaimOutbox | internal/store/postgres/outbox.go:27-52 | The first claimable, unlocked rows by creation time and id, and no others, get the token, the end asked for and one more attempt, and are returned with their tasks, in any order. |
| Store.Database.MarkPublished | internal/store/postgres/outbox.go:54-61 | The mark and its time are set, and the claim cleared, exactly by the current claimer of an unpublished event. |
| Store.Database.ReplayDeadAtomic | internal/store/postgres/query.go:48-72 | A dead task gets a new generation and its event together, or nothing happens; an error before the row is known changes nothing, whatever the row is. |
| Store.Database.InsertTaskAndEvent | internal/store/postgres/tx.go:24-37 | Task and event are both inserted or neither, and a taken key is reported as a conflict. |
| Store.Database.GetByCallerAndKey | internal/store/postgres/query.go:16-30 | Finds the task of a caller and key if and only if there is one. |
| Store.Database.DeleteTerminalBefore | internal/store/postgres/retention.go:9-20 | Deletes the first deletable, unlocked tasks by update time and id, with their events, and reports how many: only delivered or dead ones untouched since before the cutoff with all events published, and every such one unless the limit is used up. |
| Programs.DeliveryService.Attempt | internal/delivery/service.go:72-80 | The attempt record carries the supplier's answer, and the retry decision's time for the jitter drawn for the configured delay; a refused retry makes it permanent. |
| Programs.DeliveryService.SendAndApply | internal/delivery/service.go:68-84 | One call of Send while the thread holds a slot of the task's destination, its release, and then one result; the disposition says whether the result's outcome is known. |
| Programs.DeliveryService.AdmitAndDeliver | internal/delivery/service.go:64-93 | In one history of protocol and limiter: a refused admission calls nobody and requeues; an admitted one is admitted and sends while it holds a slot of the task's destination, releases it, and applies. In both cases the thread ends up holding nothing. |
| Programs.DeliveryService.Handle | internal/delivery/service.go:55-94 | Whatever others do in between, Handle takes protocol and limiter steps in one history: one claim, a request for a slot of the task's destination under the task's limit, then at most one admission, one Send under that slot and one result without it; it is refused only if it never held a slot; it acknowledges exactly if the claim was answered "not acquired" or the result was answered, and returns without a slot. |
| Joint.SendsUnderSlot | internal/delivery/service.go:64-71 | In every such history the call of Send lies after the critical section that granted the thread a slot of the task's destination and before the release of that slot, and the thread does nothing else at the limiter in between. |
| Programs.OthersLeaveWorker | internal/delivery/service.go:55-94 | No other participant can change a worker session. |
| Programs.OthersLeavePublisher | internal/outbox/service.go:59-83 | No other participant can change a publisher session. |
| WorkerLoop.Consumer.Turn | internal/app/bootstrap.go:124-137 | A turn handles its message once, which ends in the disposition Handle is entitled to, and settles its copy by that disposition in one last step: acknowledged only if the task has left the message's generation, otherwise back in the queue. |
| WorkerLoop.AckedIsSpent | internal/app/bootstrap.go:127-129 | An acknowledged message's task has left its generation or has been deleted. |
| OutboxService.Service.RunOnce | internal/outbox/service.go:59-83 | RunOnce claims the first claimable rows it meets until now + TTL, hands over a prefix of them, all unless it fails, and stops at the first failure; it returns the number of rows its marks changed, less one exactly if the last mark matched its row and was committed unseen. Its calls of Publish lead the client's channels on and leave nothing behind unless it fails. |
| OutboxService.GoesWell | internal/outbox/service.go:59-83 | If every publish is acknowledged, routed and answered by its confirmation, and every mark is answered on a row still the session's own, RunOnce does not fail, hands over its whole batch, and reports all of it. |
| OutboxService.UnseenMarkIsNotCounted | internal/outbox/service.go:72-78 | A run from the empty database in which RunOnce reports 0 of 1. |
| OutboxService.Service.PublishAndMark | internal/outbox/service.go:67-80 | One event is handed over once, and marked only after Publish returned nil, which means that the broker has it; the mark changes a row exactly if it matches and is not lost. |
| OutboxService.LoopIsReady | internal/outbox/service.go:85-102 | Over the publisher's whole loop every RunOnce finds nothing left of earlier publishes, or claims no batch, and every nil is honest. |
| IntakeService.Service.CreateOrGet | internal/store/postgres/intake.go:13-31 | Creates the task and its event, or returns the task that has the key, or fails; a failure may hide a commit but nothing else. |
| IntakeService.Service.Create | internal/intake/service.go:51-91 | Each answer is justified by the tables it met: accepted only for a free key, and then the row has the caller, key, destination, the hash of destination and payload, and the registry's policy and limit; replayed only for a row whose hash is that of this request, a conflict only for a different one; unknown destinations and invalid payloads change nothing. |
| IntakeService.RepeatedKey | internal/intake/service.go:77-91 | While a task is not deleted, every request with its caller and key gets its id if the hashes are equal and a conflict if not, over any run of any participants. |
| IntakeService.RepeatedRequest | internal/intake/service.go:77-91 | Once a request has been accepted, and while its task is not deleted, Create answers another one with its caller and key with its id exactly if destination and payload value are the same, and with a conflict otherwise. |
| Maintenance.Jobs.SchedulePass | internal/store/postgres/retry.go:29-98 | A scheduler pass commits one protocol step or none, and its counters count the rows that changed so. |
| Maintenance.Jobs.Replay | internal/store/postgres/query.go:48-72 | A replay commits one protocol step or none; when it reports success the task is pending in a new generation that has its event. |
| Maintenance.Jobs.Retain | internal/store/postgres/retention.go:9-20 | A retention batch commits one protocol step or none. |
| RowLocks.LocksRefineAtomic | internal/store/postgres/retry.go:29-98 | Any interleaving of selects, inserts, private updates, commits, rollbacks and single statements, of schedulers, publishers, replays and creates, leaves the tables as the atomic transactions would, in the order of their commits. |
| RowLocks.CommitIsAtomic | internal/store/postgres/tx.go:24-37 | What any transaction commits is its atomic action, still allowed, on the tables as they are at its commit. |
| RowLocks.WorkIsDisjoint | internal/store/postgres/outbox.go:33 | Two open scheduler transactions never work on the same row, and two open outbox claims never on the same event. |
| RowLocks.UnlockedUpdateLosesDelivery | internal/store/postgres/retry.go:69-82 | A run in which a delivery is let past the scheduler's lock ends with the delivered row dead or pending again. |
| Atomicity.StepIsAction | internal/store/postgres/delivery.go:14-73 | Every protocol step commits one atomic action, allowed on the tables as they are, or leaves them alone. |
| Atomicity.ActionIsStep | internal/store/postgres/delivery.go:14-73 | Every atomic action allowed on the tables is committed by an enabled step of the session that issues it. |
| Orderly.RunsAreOrderly | internal/store/postgres/tx.go:24-37 | A sequence of transactions is what some run of the protocol commits if and only if the tables allow it in order and it is orderly: new names, claims after a message for their task, results after their own claims and decided from the rows these returned, marks in batch order. |
| Orderly.LocksMatchProtocol | internal/store/postgres/retry.go:29-98 | For every interleaving of lock-taking transactions: the tables allow its effects in commit order, and the protocol has a run with exactly these effects that ends in the same tables if and only if they are orderly. |
| Orderly.PassDuringDelivery | internal/store/postgres/retry.go:36-82 | A scheduler's select, a worker's claim of another task, the scheduler's update and commit, and the worker's result are such an interleaving, and a run of the protocol, for every task, lease and answer. |
| Atomicity.SameEffectsSameTables | internal/store/postgres/retry.go:29-98 | And every run of the protocol with these effects ends in the same tables. |
| Limiter.CapacityLimiter.Enter | internal/delivery/limiter.go:32-55 | A pass of the critical section sets the limit to the smaller of its own and the one asked for, wakes the waiters if that lowers it, grants exactly below it, counting one more, and leaves other destinations alone. |
| Limiter.CapacityLimiter.Leave | internal/delivery/limiter.go:47-50 | Leaving frees one slot, keeps the limit, wakes the destination's waiters, and leaves other destinations alone. |
| Limiter.Gate.Acquire | internal/delivery/limiter.go:24-62 | Among any number of other threads, Acquire asks for the given destination and limit and ends with a slot held within the limit, or holding nothing and never having held one, and not without having tried if its context lets it; it refuses an empty destination or a limit below one. |
| Limiter.Gate.Release | internal/delivery/limiter.go:44-51 | The holder's release gives the slot back, among any number of other threads. |
| Limiter.Grant.Release | internal/delivery/limiter.go:44-51 | The first release frees the slot; every further one changes nothing. |
| Limiter.StepKeeps | internal/delivery/limiter.go:24-62 | Every step of every thread keeps the limiter's invariant. |
| Limiter.NoLostWakeup | internal/delivery/limiter.go:32-60 | A thread blocked on an open channel has active >= limit >= 1 and a holder whose release wakes it. |
| Limiter.NoDoubleClose | internal/delivery/limiter.go:64-67 | No channel is closed twice. |
| Limiter.Accounting | internal/delivery/limiter.go:32-51 | active is the number of outstanding grants, the limit the smallest one seen, grants stay within it, and cancellation, double release and other destinations change nothing. |
| Limiter.OverLimitOnlyFalls | internal/delivery/limiter.go:37-43 | A destination gets over its limit only by a lowering, and while over it its count only falls. |
| Limiter.WaiterCanBeAdmitted | internal/delivery/limiter.go:56-60 | From every reachable state a waiting thread is admitted after releases by its destination's holders. |
| Confirms.Client.Publish | internal/messaging/rabbitmq/publisher.go:50-80 | Publish consumes the confirm and return channels as specified by its outcome function; which branch and which confirmation give which answer is stated outright, and with nothing left of earlier publishes in terms of the message's own fate. |
| Confirms.NilOnQuiet | internal/messaging/rabbitmq/publisher.go:64-77 | With nothing left of earlier publishes, nil means that this message was acknowledged and not returned, and leaves nothing behind. |
| Confirms.AnswerOnQuiet | internal/messaging/rabbitmq/publisher.go:61-79 | With nothing left of earlier publishes, nil is the answer if and only if the message was accepted, acknowledged and routed and its confirmation is what the select takes; a refused or returned message gets the error that says so. |
| Confirms.NilIsTrustworthy | internal/messaging/rabbitmq/publisher.go:64-77 | In any channel state, nil is always honest if and only if no stale positive confirmation comes first. |
| Confirms.GivingUpLeavesStaleAck | internal/messaging/rabbitmq/publisher.go:77-79 | A publish given up on its context leaves such a confirmation behind. |
| Confirms.EveryNilIsHonest | internal/outbox/service.go:67-71 | In one batch, begun with nothing left of earlier publishes, every nil before the first failure is honest, and without a failure nothing is left behind. |
| Confirms.LoopIsHonest | internal/outbox/service.go:85-102 | Over the publisher's whole loop, in which a publish may be given up and the loop go on, every nil is honest. |
| RetryArithmetic.ParsePolicy | internal/destination/validate.go:42-62 | Accepts exactly the valid retry settings, keeps their values, and names the first bad delay. |
| RetryArithmetic.BoundedJitter.Apply | internal/notification/jitter.go:31-43 | Uses one draw for a positive delay and none otherwise, and returns the bounded scaled delay. |
| RetryArithmetic.JitterBounds | internal/notification/jitter.go:36-42 | A jittered delay is positive and within a fifth of the delay, up to truncation. |
| RetryArithmetic.JitterRange | internal/notification/jitter.go:36-42 | The values a jittered delay takes are exactly the whole numbers from four fifths of it, rounded down but at least 1, up to six fifths, excluded. |
| RetryArithmetic.JitterGrows | internal/notification/jitter.go:36-42 | A larger draw never waits for less. |
| RetryArithmetic.JitterExceeds | internal/notification/jitter.go:36-42 | Some draw pushes a delay past a limit if and only if six fifths of it exceed the limit plus one. |
| RetryArithmetic.ScheduledRetry | internal/notification/retry.go:9-33 | A scheduled retry is below the budget, strictly later, within the lifetime, at the supplier's usable time, or within a fifth of the configured delay. |
| RetryArithmetic.RefusedRetry | internal/notification/retry.go:9-33 | A retry is refused if and only if the budget is used up, the supplier asks for more than a lifetime, or jitter passes the lifetime. |
| RetryArithmetic.StatusDecides | internal/notification/state.go:3-18 | An answer delivers the task exactly if it is 2xx; it makes it wait exactly if it is 408, 425, 429, 5xx or a failure called retryable, and a retry can be scheduled; everything else ends it. |
| RetryArithmetic.DelaySurvivesJitter | internal/notification/retry.go:25-31 | A validated delay is honoured for every draw if and only if 6 * delay <= 5 * (lifetime + 1). |
| RetryArithmetic.LongestDelayIsRefused | internal/notification/retry.go:29-31 | A delay equal to the lifetime passes validation and is refused by some draw. |
| RetryArithmetic.DeadlineRespected | internal/notification/retry.go:9-33 | Every draw that schedules a retry does so before the task's own deadline if and only if a usable Retry-After lies before it (or is refused for its length), or six fifths of the configured delay fit into what is left. |
| RetryArithmetic.RetryMayPassDeadline | internal/notification/retry.go:14-32 | A Retry-After and a plain configured delay that both schedule a retry past the task's own deadline. |
| RetryArithmetic.EarliestDecision | internal/notification/retry.go:9-33 | If a supplier's time still to come, or else the shortest jittered delay from `floor` on, lies before the deadline, some decision at or after `floor` schedules a retry before it. |
| RetryArithmetic.LateDecision | internal/notification/retry.go:9-33 | And only then does any decision at or after `floor`, with any draw, schedule one before it. |
| CanonicalJson.ObjectMeaning | internal/notification/hash.go:13-18 | Two object texts decode to the same value if and only if every key has the same last value, in whatever order. |
| CanonicalJson.DecodeMeaning | internal/notification/hash.go:13-18 | Two texts decode to the same value if and only if they are the same scalar, numbers by their literals, or arrays that agree element by element, or objects that agree key by key. |
| CanonicalJson.EncodeSplits | internal/notification/hash.go:26-29 | The canonical encoding is injective, even with text following it. |
| CanonicalJson.EncodeNoNul | internal/notification/hash.go:26-29 | The canonical encoding contains no NUL. |
| CanonicalJson.LastNulSplits | internal/notification/hash.go:30-33 | The hash input determines destination and encoding, whatever the destination contains. |
| CanonicalJson.SameHash | internal/notification/hash.go:12-35 | Two requests have the same hash if and only if they name the same destination and their payloads decode to the same value. |
| CanonicalJson.ObjectHash | internal/notification/hash.go:12-35 | For objects: same destination and, key by key, the same last value. |

## Left out

- OutboxService.Service.RunOnce: requires that nothing is left of earlier publishes or that no batch can be claimed, because a nil would otherwise not mean arrival (`Confirms.NilIsTrustworthy`); `OutboxService.LoopIsReady` shows that the loop sees to it.
- WorkerLoop.Consumer.Turn: one turn of the loop; the loop itself, the rejection of malformed bodies before it, and errors of Ack and Nack (a crash of the session in the protocol) are not modelled.
- CanonicalJson.SameHash: payloads start from the scanned JSON text; scanning and UTF-8 decoding are not modelled, and number literals are assumed to be such as a scanner lets through.
- Confirms.Client.Publish: the closing of the return channel is not modelled; it only adds failures.
- Limiter.Gate.Acquire: the context's end is a bound on the turns of the loop; that a waiter is ever woken is not claimed here but in `Limiter.NoLostWakeup`.
- RowLocks.LocksRefineAtomic: an INSERT that meets a key or a generation already there is no step of its own: it fails or does nothing, as the atomic action does.
- Assumed of PostgreSQL: statements are atomic, wait for row locks and look at the row again when they get them. Assumed of RabbitMQ outside `Drops`: persistent messages are not dropped without an acknowledgement, although the queue as deployed drops them after twenty redeliveries; answers to publishes come in order, a return before its confirmation.
- Assumed of identifiers: random identifiers and tokens are never drawn twice, digests (SHA-256 of a request or of task and generation) do not collide; a request hash is modelled by its preimage.
- Sending over HTTP, TLS, DNS, redirects, headers, secrets and the parsing of Retry-After: Send returns any outcome that fits its status.
- Columns that only travel to the supplier (method, URL, headers, body, timeout), and the decoding of the JSON columns in a claim, whose failure is a committed claim with an error.
- ReplayDead and ScheduleRetry of the store, which no service calls.
- Float rounding and the quality of the random generator in jitter: a real factor in [0.8, 1.2).
- The overflow of 64-bit durations and instants; instants and durations are unbounded integers.
- The rounding of stored instants: the columns are TIMESTAMPTZ and hold microseconds (`migrations/000001_initial.up.sql`), durations are nanoseconds, so the exact conditions on deadlines hold up to a microsecond.
- Fairness, timers, poll intervals, shutdown, and any claim that something happens eventually: what is proved is that a continuation exists.
- API handlers, authentication, configuration, role orchestration, health, logging, metrics and observers; the copying of header maps.
