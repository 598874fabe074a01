# Financial crime compliance platform: a verified model

The platform's Go backend onboards customers under a maker-checker rule, ingests transactions
idempotently, raises and closes alerts, investigates cases, screens names against lists, and runs two
leased job queues (recurring screening and a notification outbox). This project models those parts in
Dafny and proves what they keep over every run.

| file | part of the backend |
|---|---|
| `Durations.dfy`, `Backoff.dfy`, `Collections.dfy` | instants and durations in nanoseconds, the two retry backoffs, facts about finite sets |
| `Schedules.dfy`, `ScheduleProgress.dfy` | recurring screening: claims under a lease, stale local batches, operators reconfiguring mid-run |
| `Outbox.dfy`, `OutboxProgress.dfy` | the notification outbox: claim, send, complete, crash, takeover |
| `Domain.dfy`, `Replay.dfy`, `Store.dfy` | records, the fold of an event log into an entity, the guarded store operations |
| `Fanout.dfy` | screening one customer into runs, matches, notifications, outbox rows and events |
| `Compliance.dfy` | the services: trimming, validation and record building before each store operation; runs of requests |
| `Effects.dfy` | what each request writes, field by field, and how it is refused |
| `Invariants.dfy` | the store invariant, operation by operation |
| `Histories.dfy`, `EventLog.dfy`, `Guarantees.dfy` | what holds over whole runs |
| `Witnesses.dfy` | runs that reach the failing side of those statements |
| `Activity.dfy`, `Lists.dfy` | paging a timeline and the other lists while the store is in use |
| `Repository.dfy`, `Services.dfy` | the in-memory repository and the looping services in their imperative form |
| `Paging.dfy` | cursor pagination |
| `RateLimiter.dfy`, `Admission.dfy` | the token-bucket limiter with idle pruning |
| `CircuitBreaker.dfy` | the HTTP screening provider's retry loop and circuit breaker |
| `Names.dfy` | name normalisation and similarity |

Each stateful part has two layers (the functions of `Store` specify the methods of `Repository`). Classes hold the fields the Go code mutates, with its loops and
branches, and every method is proved equal to one step (or, for the `RunDue` loops, to a run) of a
specification over values. The lemmas then speak about every run of that specification.

No lemma uses automatic induction (`{:induction false}` throughout): each inductive proof is written out.

## Assumptions

- `newID` never repeats: identifier `ID(request, index)` is the index-th one drawn while serving a request,
  and no two requests share a number (`FreshIDs`).
- Workers share one monotone clock. A worker ID runs one batch at a time; a restarted process has a new ID.
- Each repository method is one atomic step that does everything or nothing. Reading the clock and claiming
  are one step; between any two steps of a worker, any other steps may happen.
- A claim takes any set of at most `limit` due rows, because `SKIP LOCKED` promises no order. The claim of
  `Schedules` and `Outbox` follows the SQL; the in-memory claim, which leases every due row and cuts its batch
  afterwards, is `Repository.ClaimDueSchedules`.
- Where a statement needs it, error texts are not empty (`ErrorsHaveText`): the database reads an empty error
  text as success. What happens otherwise is stated too.
- Where a statement needs it, no timestamp used as a cursor is the zero time.
- The cursor codec is an inverse pair: a token is empty, the encoding of a key, or text that does not decode.
- Senders, the screening provider and beneficial owners are inputs: any answer, any error.
- Rates and tokens are reals. Unicode tables are a parameter of `Names` (lowering is idempotent and keeps a
  character's class); elsewhere upper-casing covers ASCII, white space the code points below U+0100, and lengths
  count characters where Go counts bytes.

## Where the code and its documentation differ

- The repository's README (line 285) says a retried ingestion returns the original response. The code returns the
  original transaction with its alerts as they are now: the original response exactly while none of them was closed
  (`Guarantees.ReplayIsOriginalIff`, `Witnesses.ReplayDiffers`).
- `docs/openapi.yaml:830` and `migrations/000008_screening.up.sql:3` keep a score within 0 to 100. The demo provider
  reports a customer named "Viktor Viktor Viktor" with 120, which PostgreSQL refuses to save
  (`Names.RepeatsExceedHundred`); `Names.ScoreExceedsIff` and `Names.RatioWithinIff` say exactly when a score goes past 100.

## Promises that hold under a condition

- An unresolved case can be resolved exactly while its alert is open; an alert closed directly leaves its case
  unresolved for ever (`Guarantees.ResolvableIff`, `Witnesses.OrphanAppears`).
- A transaction read back and sent again replays exactly when its stored time is not the zero time
  (`Guarantees.ResubmissionReplaysIff`, `Witnesses.ZeroTimeIsReached`).
- Cases are listed by their last update, which moves; a walk misses a case exactly when it is touched across the cursor
  (`Lists.CaseWalk`, `Paging.TouchedIsListedIff`, `Paging.TouchedCanBeMissed`). The documentation promises stable
  cursors for other lists only.
- Schedule leases exclude exactly when a lease is no longer than the shortest interval (`Schedules.LeaseExclusionIff`).
- Delivered means sent exactly when no sender's error has an empty text (`Outbox.DeliveredMeansSentIff`).
- Pruning idle clients is invisible exactly when a full burst refills within ten minutes (`RateLimiter.PruningIff`).

## Model

| member | source | states |
|---|---|---|
| Backoff.ScreeningRetryBackoff | internal/application/screening.go:142-153 | the doubling loop computes 5 minutes times a power of two, capped at a day |
| Backoff.DeliveryBackoff | internal/application/delivery.go:70-79 | the doubling loop computes 1 minute times a power of two, capped at an hour |
| Backoff.CappedShape | internal/application/screening.go:142-153 | a delay lies between base and cap, never shrinks with the attempt, and exactly doubles until the cap |
| Backoff.CapsReached | internal/application/delivery.go:70-79 | the caps are reached at the tenth screening failure and the seventh delivery attempt, and not before |
| Backoff.FirstDelays | internal/application/screening.go:142-153 | the first delays are five minutes and one minute, the caps a day and an hour, in nanoseconds |
| Schedules.InvAlways | internal/infrastructure/postgres/repository.go:1079-1126 | rows and every worker's stale copies stay consistent: an owned row still has the interval, failure count and lease its owner copied |
| Schedules.CadenceAlways | internal/application/screening.go:106-140 | in every reachable state each row's next run is its last update plus the interval, or plus the backoff of its failure count, although workers compute it from a stale copy |
| Schedules.CompletionOnCadenceIff | internal/application/screening.go:119-129 | a completion keeps the row on that cadence exactly when its error text is not empty, or the two delays happen to coincide |
| Schedules.LeaseInvAlways | internal/infrastructure/postgres/repository.go:1104-1118 | a row in an unfinished, unexpired batch cannot be due, so no second worker can claim it |
| Schedules.OverlapBreaksExclusion | internal/infrastructure/postgres/repository.go:1085-1105 | with a lease longer than the interval an operator's update lets two workers hold the same row at once |
| Schedules.LeaseExclusionIff | internal/infrastructure/postgres/repository.go:1085-1105 | over all runs with leases up to a bound and intervals from another, two workers never hold one row exactly when the lease is at most the interval |
| Schedules.UnleasedStands | internal/infrastructure/postgres/repository.go:1120-1126 | an unleased row changes (but for leases) only by a claim made since and its completion |
| Schedules.OperatorChangeStands | internal/infrastructure/postgres/repository.go:1079-1126 | after an operator's update, interval, enabled, next run and failure count stand until a claim made after the update completes or another update comes |
| Schedules.PausedIsFrozen | internal/infrastructure/postgres/repository.go:1104-1126 | a paused schedule changes in nothing until the next update, whatever runs were in flight |
| ScheduleProgress.ClaimTakesIff | internal/infrastructure/postgres/repository.go:1104-1118 | a claim of one row by an idle worker takes it, whatever its failures, exactly when it is enabled, its next run has come and no lease on it is open; otherwise nothing changes |
| ScheduleProgress.ClaimTakesAllIff | internal/infrastructure/postgres/repository.go:1104-1118 | a claim of several rows takes effect exactly when each can be taken, none is named twice, there are no more than the limit (25 when none is given) and the worker is idle, and then takes them all |
| ScheduleProgress.NothingStuck | internal/application/screening.go:106-140 | after any run, and a quiet time of the interval, a day and the longest lease, any enabled row is taken by an idle worker's claim, however often its screening failed |
| ScheduleProgress.UpdateWrites | internal/infrastructure/postgres/repository.go:1079-1096 | an update is accepted for 1 to 8760 hours and writes every field of the row but the last run |
| ScheduleProgress.CompletionWrites | internal/application/screening.go:118-132 | in every run a completion by the row's owner writes each field from the outcome and the owner's clock read: success plans the row's own interval ahead, the k-th failure the k-th delay; any other completion only drops the batch |
| Schedules.ScreeningCluster.constructor | internal/application/screening.go:165-167 | starts as the initial system |
| Schedules.ScreeningCluster.ConfigureSchedule | internal/application/screening.go:47-60 | accepts exactly a named, known customer with an actor and a permitted interval, and then is the Configure step |
| Schedules.ScreeningCluster.ClaimDueScreeningSchedules | internal/infrastructure/postgres/repository.go:1104-1118 | leases exactly the picked rows and returns copies of them |
| Schedules.ScreeningCluster.CompleteScreeningSchedule | internal/infrastructure/postgres/repository.go:1120-1126 | writes the result exactly when the worker still owns the row |
| Schedules.ScreeningCluster.Begin | internal/application/screening.go:110-114 | reading the clock and claiming is the Claim step and opens the local batch |
| Schedules.ScreeningCluster.RunOne | internal/application/screening.go:118-132 | screening and completing the next item is the Complete step, refused exactly when the row changed hands |
| Schedules.ScreeningCluster.Turn | internal/application/screening.go:118-137 | one turn of the loop, with other workers' and operators' steps before it |
| Schedules.ScreeningCluster.RunDue | internal/application/screening.go:106-141 | the whole loop, interleaved with any foreign steps, is a run of the protocol; it counts completed and failed items and stops at the first refusal |
| Outbox.SendInvAlways | internal/infrastructure/postgres/repository.go:988-1010 | sends plus sends still possible from unfinished batches never exceed one plus the takeovers |
| Outbox.SendsBounded | internal/application/delivery.go:37-69 | in every run a message is sent successfully at most once plus once per takeover, and its attempts equal its accepted completions |
| Outbox.BoundIsReached | internal/application/delivery.go:37-69 | for every number of takeovers some run reaches that bound |
| Outbox.DeliveredWasSent | internal/application/delivery.go:46-64 | with non-empty error texts every delivered row was sent successfully |
| Outbox.EmptyTextDeliversUnsent | internal/infrastructure/postgres/repository.go:1004-1010 | a run whose only send failed with an empty text ends with the message marked delivered and never sent |
| Outbox.DeliveredMeansSentIff | internal/infrastructure/postgres/repository.go:1004-1010 | over any set of outcomes a sender may have, delivered means sent in every run exactly when no error comes with an empty text |
| Outbox.LeasesExclude | internal/infrastructure/postgres/repository.go:988-1003 | a worker within its lease window owns each message left in its batch, so no two hold the same one |
| Outbox.PendingStep | internal/infrastructure/postgres/repository.go:1004-1015 | one step changes the pending count by the rows saved minus the rows delivered |
| Outbox.PendingConserved | internal/infrastructure/postgres/repository.go:1011-1015 | pending plus delivered equals saved over every run: no row is lost |
| Outbox.DeliveredIsFinal | internal/infrastructure/postgres/repository.go:1004-1010 | a delivered row never changes again, whoever still has it in a batch |
| Outbox.NothingStuck | internal/application/delivery.go:37-79 | a pending row is due at most an hour ahead and leased at most a lease ahead, so after a quiet hour it can be claimed |
| OutboxProgress.ClaimTakesIff | internal/infrastructure/postgres/repository.go:988-1003 | a claim of one message by an idle worker takes it exactly when it is pending, its next attempt has come and no lease on it is open; otherwise nothing changes |
| OutboxProgress.PendingIsTaken | internal/application/delivery.go:37-69 | after any run and a quiet hour an idle worker's claim takes any pending message |
| OutboxProgress.ResultWrites | internal/application/delivery.go:53-61 | in every run a result recorded by the row's owner delivers it on success, and after the k-th failed attempt leaves it pending until the k-th delay after the owner's clock read; any other result only drops the batch |
| OutboxProgress.RetryWaits | internal/application/delivery.go:53-61 | after the k-th attempt failed, no worker's claim takes the message before the k-th delay after that attempt's clock read, whatever happens in between |
| Outbox.DeliveryCluster.constructor | internal/application/delivery.go:34-36 | starts as the initial system |
| Outbox.DeliveryCluster.ClaimOutbox | internal/infrastructure/postgres/repository.go:988-1003 | leases exactly the picked rows and returns copies of them |
| Outbox.DeliveryCluster.CompleteOutbox | internal/infrastructure/postgres/repository.go:1004-1010 | writes the result exactly when the worker still owns the row |
| Outbox.DeliveryCluster.CountPendingOutbox | internal/infrastructure/postgres/repository.go:1011-1015 | the count is the number of pending rows |
| Outbox.DeliveryCluster.Begin | internal/application/delivery.go:38-45 | reading the clock and claiming is the Claim step |
| Outbox.DeliveryCluster.RecordResult | internal/application/delivery.go:46-64 | recording a result is the Complete step, refused exactly when the row changed hands |
| Outbox.DeliveryCluster.Turn | internal/application/delivery.go:46-64 | one turn of the loop with foreign steps before the send and before the record |
| Outbox.DeliveryCluster.Deliver | internal/application/delivery.go:46-69 | the loop over the claimed items is a run of the protocol and counts its failures |
| Outbox.DeliveryCluster.RunDue | internal/application/delivery.go:37-69 | claim and loop together are a run of the protocol, interleaved with any foreign steps |
| Outbox.RecordsAreNeverRead | internal/application/delivery.go:37-69 | the history kept for the statements above never influences a step |
| Fanout.BatchIsExact | internal/application/screening.go:192-236 | a batch exists exactly when every subject was screened; then runs and events match the subjects one to one, matches the candidates in order, each naming its own subject and that subject's run, notifications the matches, messages the pairs of notification and destination, and no two rows of a slice share an identifier |
| Fanout.BatchIsAttributed | internal/application/screening.go:216-230 | every row bears the instant, every notification the customer and its match's list type |
| Fanout.IdentifiersGrow | internal/application/screening.go:216-228 | run, notification and message identifiers of a batch are new and grow along their slices |
| Fanout.MatchesAreNew | internal/application/screening.go:219-220 | every match starts potential and unreviewed, for the screened customer |
| Fanout.EventsInOrder | internal/application/screening.go:230 | the batch's events carry new, growing identifiers and one instant |
| Fanout.ScreenSubjects | internal/application/screening.go:192-236 | the loop over the subjects builds that batch, complete and linked, exactly when no screening fails |
| Fanout.ReportCandidates | internal/application/screening.go:218-229 | the inner loop adds a match, a notification and its messages for each candidate |
| Fanout.Enqueue | internal/application/screening.go:223-228 | one message per destination, the webhook first when one is configured |
| Fanout.FailurePersists | internal/application/screening.go:207-214 | a provider error for any subject leaves nothing to save |
| Compliance.Perform | internal/application/transactions.go:50-104 | a request of any service answered with an error or a replay changes nothing and appends no event |
| Effects.TrimCuts | internal/application/onboarding.go:41-42 | trimming cuts exactly the spaces at the two ends of a text |
| Effects.OnboardWrites | internal/application/onboarding.go:40-85 | an onboarding is accepted exactly for the required fields and stores the trimmed name, the upper-cased country and the actor as creator, pending, with its event |
| Effects.ReviewDecides | internal/application/onboarding.go:87-104 | a valid review of a pending customer by someone else is done: approval makes the customer active, rejection rejected, by the trimmed actor at that instant, with the matching event, and no other customer changes |
| Effects.ReviewRefusals | internal/infrastructure/memory/repository.go:558-574 | every other review is refused with the first reason that applies |
| Effects.StatusWasDecided | internal/infrastructure/memory/repository.go:570-577 | over every run a customer is active only by an accepted request to approve it and rejected only by one to reject it |
| Effects.IngestValidates | internal/application/transactions.go:51-63 | which commands are valid, field by field |
| Effects.IngestWrites | internal/application/transactions.go:65-98 | a payment under a new key of an active customer is stored with each field from its command, one open alert per rule it breaks, and answered with both |
| Effects.IngestLogs | internal/application/transactions.go:71-97 | with its own event and one per alert, in order |
| Effects.IngestRefusals | internal/infrastructure/memory/repository.go:493-500 | a payment under a new key is refused as invalid, of an unknown or of an inactive customer, and otherwise created |
| Effects.CloseWrites | internal/application/transactions.go:113-127 | a closure writes who, why and when on the open alert and in its log, and is refused otherwise |
| Effects.OpenCaseWrites | internal/application/cases.go:35-44 | a case is opened on an open alert without one, with each field from its request and the alert's customer, and refused otherwise |
| Effects.AssignWrites | internal/application/cases.go:59-67 | an assignment writes the assignee, not the actor, on the unresolved case and the event |
| Effects.CommentWrites | internal/application/cases.go:69-78 | a comment keeps author and body apart and touches the unresolved case |
| Effects.ResolveWrites | internal/application/cases.go:80-89 | a resolution writes the same person, words and instant on case and alert and one event in each log, or is refused with the first reason that applies |
| Effects.ScreenWrites | internal/application/screening.go:174-236 | a screening is done exactly for a known customer and a good answer for every subject |
| Effects.ScreenedSubjects | internal/application/screening.go:192-195 | the subjects are the customer and then each owner |
| Effects.ScreenSaves | internal/infrastructure/memory/repository.go:221-234 | an accepted screening saves the exact batch of its answers: every match, every notification, its events in order, and nothing else |
| Effects.DispositionWrites | internal/application/screening.go:240-250 | a disposition writes status, reason and actor on the potential match and the event in its customer's log, and is refused otherwise |
| Effects.ConfigureWrites | internal/application/screening.go:47-60 | a schedule request writes each field of the row but the last run, and its event |
| Effects.ClaimWrites | internal/infrastructure/memory/repository.go:180-193 | a claim in memory leases a row exactly when it is enabled, its next run has come and no lease on it is open |
| Effects.CompleteRunWrites | internal/infrastructure/memory/repository.go:200-219 | a completion by the owner writes each field of the row; any other is refused |
| Replay.Undisposed | internal/infrastructure/memory/repository.go:296-311 | a match no disposition names is potential |
| Invariants.StepKeeps | internal/infrastructure/memory/repository.go:16-30 | a step that touches one entity and appends one event about it keeps the invariant of the whole store once that entity is good |
| Invariants.CreateCustomerKeeps | internal/infrastructure/memory/repository.go:543-549 | onboarding keeps the store invariant |
| Invariants.ReviewCustomerKeeps | internal/infrastructure/memory/repository.go:558-584 | a review keeps the store invariant, so no creator reviews his own customer |
| Invariants.StoreTransactionKeeps | internal/infrastructure/memory/repository.go:494-503 | storing a transaction under a new key keeps the store invariant |
| Invariants.RaisedKeeps | internal/infrastructure/memory/repository.go:504-507 | the loop over the alerts keeps it after every alert |
| Invariants.CreateTransactionKeeps | internal/infrastructure/memory/repository.go:475-509 | ingestion keeps the store invariant |
| Invariants.CloseAlertKeeps | internal/infrastructure/memory/repository.go:523-541 | closing an alert keeps the store invariant, whether or not a case is open on it |
| Invariants.CreateCaseKeeps | internal/infrastructure/memory/repository.go:377-396 | opening a case keeps one case per alert and one customer throughout |
| Invariants.AssignCaseKeeps | internal/infrastructure/memory/repository.go:411-427 | assignment keeps the store invariant |
| Invariants.AddCaseCommentKeeps | internal/infrastructure/memory/repository.go:428-443 | a comment keeps the store invariant |
| Invariants.ResolveCaseSplits | internal/infrastructure/memory/repository.go:444-473 | resolving equals closing the alert and then marking the case |
| Invariants.ResolveCaseKeeps | internal/infrastructure/memory/repository.go:444-473 | resolving keeps the store invariant: the alert bears the case's person, words and instant |
| Invariants.SaveScreeningKeeps | internal/infrastructure/memory/repository.go:221-234 | saving a screening batch keeps the store invariant |
| Invariants.DispositionMatchKeeps | internal/infrastructure/memory/repository.go:296-311 | a disposition keeps the store invariant and lies in the match's customer's log |
| Invariants.UpsertScheduleKeeps | internal/infrastructure/memory/repository.go:158-170 | a schedule update keeps the store invariant |
| Invariants.ClaimSchedulesKeeps | internal/infrastructure/memory/repository.go:180-193 | a claim keeps the store invariant without an event |
| Invariants.CompleteScheduleKeeps | internal/infrastructure/memory/repository.go:200-219 | a completion keeps the store invariant without an event |
| Invariants.PerformKeeps | internal/application/cases.go:35-89 | every request of every service keeps the store invariant |
| Invariants.InvAlways | internal/infrastructure/memory/repository.go:154-156 | the invariant holds after every run from the empty store |
| Guarantees.AuditReplay | internal/infrastructure/memory/repository.go:158-170 | after every run, folding an aggregate's events gives the customer's status and reviewer, the alert's status and closer, the case's status, assignee, resolution and times, the match's disposition and the schedule's settings; a case was updated when its last event occurred |
| Guarantees.StoreAgrees | internal/infrastructure/memory/repository.go:444-509 | after every run each transaction's customer is active and reviewed by someone other than its creator, case, alert and transaction name one customer, each alert has at most one case, and a resolved case's alert is closed by the same person, words and instant |
| Histories.PerformStands | internal/infrastructure/memory/repository.go:377-584 | no request changes a log's past, a reviewed customer, a transaction, a key, a closed alert, a resolved case or a reviewed match, adds an alert to a stored transaction, or resolves a case whose alert is closed |
| Histories.PastStands | internal/infrastructure/memory/repository.go:377-584 | the same between any point of a run and its end |
| Histories.IdleIngestsLeaveNoTrace | internal/infrastructure/memory/repository.go:480-500 | leaving out every ingest answered as replay, conflict or error gives the same final store |
| Guarantees.CreationRecords | internal/application/transactions.go:50-104 | a created answer is the normalised transaction with exactly the alerts now stored for it |
| Guarantees.ReplayAnswers | internal/domain/transaction.go:35-43 | a key in the store is answered with the stored transaction and its alerts exactly when the command agrees with the one that created it in external reference, customer, direction, amount, currency, country and whole microseconds, otherwise as a conflict |
| Guarantees.IngestionIsIdempotent | internal/infrastructure/memory/repository.go:475-509 | once a key created a transaction, every later valid ingestion under it, whatever happened in between, replays that transaction with the same set of alerts exactly when those seven fields agree, and is a conflict otherwise |
| Guarantees.ReplayIsOriginalIff | internal/infrastructure/memory/repository.go:480-492 | a replay of a command with the same seven fields is the original response, alerts included, exactly while every alert of the first answer is still open |
| Witnesses.ReplayDiffers | internal/infrastructure/memory/repository.go:523-541 | a run in which the alert is closed in between and the same request is replayed with a different response |
| Guarantees.StoredWasCreated | internal/infrastructure/memory/repository.go:501-503 | every key in the store was created by an earlier ingestion under it |
| Guarantees.KeyCreatesOnce | internal/infrastructure/memory/repository.go:480-488 | no key creates two transactions |
| Guarantees.StoredFieldsAreNormal | internal/application/transactions.go:51-60 | the stored fields are already trimmed and upper-cased, and valid again unless their time became zero |
| Guarantees.ResubmissionReplaysIff | internal/application/transactions.go:50-104 | a stored transaction sent again field by field replays exactly when its stored time is not the zero time; otherwise it is refused |
| Witnesses.ZeroTimeIsReached | internal/application/transactions.go:58-72 | for every payment time of 1 to 999 nanoseconds after the zero time, a run that stores it with the zero time and refuses it when sent again as stored |
| Guarantees.ResolvableIff | internal/infrastructure/memory/repository.go:454-457 | an unresolved case can still be resolved by some continuation exactly while its alert is open |
| Witnesses.OrphanAppears | internal/infrastructure/memory/repository.go:523-541 | some run does end in an unresolved case whose alert is closed |
| EventLog.PerformAppends | internal/application/cases.go:35-89 | every request's effect on the logs is a run of events with its own growing identifiers at the instant it was served, empty when it fails |
| EventLog.EventsGoodAlways | internal/application/onboarding.go:106-114 | after every run no two events of the store share an identifier, and none has the zero time |
| Activity.ActivityIsOwnership | internal/infrastructure/memory/repository.go:81-113 | every logged aggregate is in the activity of exactly one customer: the one reached from case to alert to transaction to customer |
| ActivityPages.ActivityGrows | internal/infrastructure/memory/repository.go:81-113 | a customer's activity only gains events |
| ActivityPages.ActivityWalk | internal/infrastructure/memory/repository.go:81-113 | whatever requests are served between the pages, a completed walk over a customer's activity lists every event present at its start exactly once, newest first |
| Lists.ListWalk | internal/infrastructure/memory/repository.go:42-66 | the same for the lists of customers, of alerts and of a customer's transactions, over any run that stores no zero payment time |
| Lists.CasesMoveForward | internal/infrastructure/memory/repository.go:411-473 | with a monotone clock a case's last update never moves back |
| Lists.CaseWalk | internal/infrastructure/memory/repository.go:128-140 | over any run with a monotone clock a completed walk over the cases lists no case twice, and a case that was there when it began exactly when it was not touched across the cursor before being listed |
| MemoryRepository.Repository.constructor | internal/infrastructure/memory/repository.go:154-156 | a new repository is empty |
| MemoryRepository.Repository.CreateCustomer | internal/infrastructure/memory/repository.go:543-549 | the update in place is the store's CreateCustomer |
| MemoryRepository.Repository.ReviewCustomer | internal/infrastructure/memory/repository.go:558-584 | the update in place, with its four refusals in order, is the store's ReviewCustomer |
| MemoryRepository.Repository.StoredAlerts | internal/infrastructure/memory/repository.go:486-491 | the loop finds exactly the alerts of a transaction |
| MemoryRepository.Repository.RaiseAlerts | internal/infrastructure/memory/repository.go:504-507 | the loop stores every alert with its event |
| MemoryRepository.Repository.CreateTransaction | internal/infrastructure/memory/repository.go:475-509 | the update in place is the store's CreateTransaction |
| MemoryRepository.Repository.CloseAlert | internal/infrastructure/memory/repository.go:523-541 | the update in place is the store's CloseAlert |
| MemoryRepository.Repository.FindCase | internal/infrastructure/memory/repository.go:387-391 | the scan finds a case on the alert exactly when there is one |
| MemoryRepository.Repository.CreateCase | internal/infrastructure/memory/repository.go:377-396 | the update in place is the store's CreateCase |
| MemoryRepository.Repository.AssignCase | internal/infrastructure/memory/repository.go:411-427 | the update in place is the store's AssignCase |
| MemoryRepository.Repository.AddCaseComment | internal/infrastructure/memory/repository.go:428-443 | the update in place is the store's AddCaseComment |
| MemoryRepository.Repository.ResolveCase | internal/infrastructure/memory/repository.go:444-473 | the two updates in place are the store's ResolveCase |
| MemoryRepository.Repository.SaveScreening | internal/infrastructure/memory/repository.go:221-234 | the three loops save every match and notification and append every event |
| MemoryRepository.Repository.DispositionMatch | internal/infrastructure/memory/repository.go:296-311 | the update in place is the store's DispositionMatch |
| MemoryRepository.Repository.UpsertSchedule | internal/infrastructure/memory/repository.go:158-170 | the update in place is the store's UpsertSchedule |
| MemoryRepository.Repository.ClaimDueSchedules | internal/infrastructure/memory/repository.go:180-199 | every such row is leased, while the batch holds only the earliest of them up to the limit |
| MemoryRepository.Repository.LeaseReady | internal/infrastructure/memory/repository.go:184-190 | the loop leases exactly the enabled rows whose next run has come and whose lease is not open |
| MemoryRepository.Repository.CompleteSchedule | internal/infrastructure/memory/repository.go:200-219 | the update in place is the store's CompleteSchedule |
| MemoryRepository.Repository.RecordDueDiligence | internal/infrastructure/memory/repository.go:331-360 | the event is appended exactly when the customer exists |
| MemoryRepository.Repository.RelatedAggregates | internal/infrastructure/memory/repository.go:87-103 | the three loops gather exactly the aggregates of a customer's activity |
| MemoryRepository.SortByNextRun | internal/infrastructure/memory/repository.go:191 | the same rows, earliest next run first |
| Services.Evaluate | internal/domain/monitoring.go:56-79 | each rule's finding is present exactly when the rule applies |
| Services.AlertsFor | internal/application/transactions.go:80-98 | the loop builds one alert and one event per finding with identifiers drawn in order |
| Services.Server.Ingest | internal/application/transactions.go:50-104 | normalisation, validation, monitoring and storing together are the ingest step |
| Services.Server.ScreenCustomer | internal/application/screening.go:174-236 | screening a customer is the screening step, which saves nothing on any error |
| Services.Server.Submit | internal/application/onboarding.go:40-85 | onboarding is the onboard step |
| Paging.NewerIsTotal | internal/infrastructure/memory/repository.go:144-146 | the list order is a strict total order on keys |
| Paging.LessIsDictionary | internal/infrastructure/memory/repository.go:144-146 | identifiers are ordered as in a dictionary: a proper beginning first, otherwise by the first difference |
| Paging.SortedIsUnique | internal/infrastructure/memory/repository.go:144-146 | rows with distinct identifiers have one sorted order |
| Paging.RequestAcceptedIff | internal/application/queries.go:40-65 | a request is accepted exactly for a size of 1 to 100, or none for 25, with no token or a usable one, and reads one row more |
| Paging.RespondIsReference | internal/application/queries.go:66-76 | over-fetching by one and cutting gives the first rows below the token, and a next token exactly when more remain |
| Paging.WalkIsReference | internal/application/queries.go:40-76 | following tokens gives the reference pages, whatever changes between requests |
| Paging.WalkUnderChange | internal/application/queries.go:66-76 | under any changes between requests, pages are strictly descending, nothing is listed twice, and a completed walk lists every key that was visible throughout |
| Paging.GrowingWalk | internal/application/queries.go:66-76 | when rows are only added between requests, a completed walk lists every first row exactly once |
| Paging.FixedWalkIsExact | internal/application/queries.go:66-76 | over fixed rows the pages are exactly the sorted rows, max(1, ceil(n/size)) of them, all but the last full |
| Paging.TouchedIsNotRepeated | internal/infrastructure/memory/repository.go:128-140 | even when keys move forward in time, no row is on two pages |
| Paging.TouchedIsListedOnce | internal/infrastructure/memory/repository.go:128-140 | when keys only move forward, the whole walk lists no row twice |
| Paging.TouchedIsListedIff | internal/infrastructure/memory/repository.go:128-140 | when keys only move forward, a completed walk lists a row that was there throughout exactly when it was at no cursor still to come before the next request's change and passed over after it |
| Paging.TouchedCanBeMissed | internal/infrastructure/memory/repository.go:128-140 | that does happen: a row touched between two requests is on no page |
| Paging.SortNewestFirst | internal/infrastructure/memory/repository.go:144-146 | the same rows in list order |
| Paging.ListPage | internal/infrastructure/memory/repository.go:42-53 | collecting, sorting and cutting returns the matching rows below the cursor, up to the limit |
| RateLimiter.RunMirrors | internal/security/http.go:46-74 | an absent or present bucket of the pruned map is worth what the client's never-pruned bucket is |
| RateLimiter.PruningIsTransparent | internal/security/http.go:46-74 | when a full burst refills within ten minutes, decisions equal those of isolated, never-pruned buckets in every interleaving |
| RateLimiter.OwnAdmissionBound | internal/security/http.go:58-73 | a never-pruned bucket admits at most the burst plus the refill in any window |
| RateLimiter.DoubleBurst | internal/security/http.go:49-57 | otherwise pruning lets a client have a second burst before the first is repaid |
| RateLimiter.PruningIff | internal/security/http.go:46-74 | pruning is invisible, and the admission bound holds, exactly when a full burst refills within ten minutes |
| RateLimiter.PatientClientAdmitted | internal/security/http.go:58-73 | a client whose requests are spaced so that a token is earned between them is never denied, pruning or not |
| Admission.DeniedIff | internal/security/http.go:58-73 | a never-pruned bucket denies a call exactly when admitting it would make some window ending at it hold more than the burst and its refill |
| Admission.LimiterDeniesIff | internal/security/http.go:46-74 | and so does the limiter, when a full burst refills within ten minutes |
| Admission.DenialsAreFree | internal/security/http.go:67-70 | leaving out any of the denied calls of a history changes the decision on no other call |
| Admission.LimiterDenialsAreFree | internal/security/http.go:46-74 | the same for the limiter, when a full burst refills within ten minutes |
| RateLimiter.TokenBuckets.constructor | internal/security/http.go:23-25 | a new limiter has no clients |
| RateLimiter.TokenBuckets.Allow | internal/security/http.go:46-74 | the update in place decides and changes as the specification's step |
| RateLimiter.TokenBuckets.Prune | internal/security/http.go:49-57 | the deleting loop keeps exactly the clients seen within ten minutes |
| CircuitBreaker.CounterUnderInterleaving | internal/infrastructure/screening/http_provider.go:92-121 | under every interleaving of concurrent calls the counter is the number of failures since the last success modulo 3, and the circuit opens at most one period ahead |
| CircuitBreaker.TripBlocksNewCalls | internal/infrastructure/screening/http_provider.go:92-121 | after the third failure, until a success is recorded, no new call gets past the check for a whole period |
| CircuitBreaker.RefusedIff | internal/infrastructure/screening/http_provider.go:92-121 | in every interleaving a new call is refused exactly while a third, sixth, ... failure since the last success is less than the open period ago |
| CircuitBreaker.EachTripleCostsAPeriod | internal/infrastructure/screening/http_provider.go:92-121 | of failing calls in sequence, each three that reach the network cost a full open period |
| CircuitBreaker.FailingCallsBounded | internal/infrastructure/screening/http_provider.go:91-122 | from a fresh provider at most 3 * (window / openFor + 1) failing calls starting within a window reach the network |
| CircuitBreaker.BoundIsReached | internal/infrastructure/screening/http_provider.go:91-122 | three calls at the start of every period reach that bound |
| CircuitBreaker.HTTPProvider.constructor | internal/infrastructure/screening/http_provider.go:48-50 | a new provider's circuit is closed |
| CircuitBreaker.HTTPProvider.RecordSuccess | internal/infrastructure/screening/http_provider.go:103-109 | a success resets the counter |
| CircuitBreaker.HTTPProvider.RecordFailure | internal/infrastructure/screening/http_provider.go:112-121 | a failure counts, and the third opens the circuit and resets the counter |
| CircuitBreaker.HTTPProvider.Screen | internal/infrastructure/screening/http_provider.go:91-122 | an open circuit sends nothing; otherwise at most retries + 1 requests, ending at the first answer not worth retrying, whose outcome is the result and is recorded once |
| Names.FieldsOfJoin | internal/infrastructure/screening/demo_provider.go:31-38 | splitting joined words gives the words back |
| Names.NormalizeIsCanonical | internal/infrastructure/screening/demo_provider.go:31-38 | normalising is idempotent, its output is its words joined by single spaces, and two names normalise alike exactly when their words agree |
| Names.OthersSeparate | internal/infrastructure/screening/demo_provider.go:31-38 | any character that is no letter and no digit separates words |
| Names.RunIsOneWord | internal/infrastructure/screening/demo_provider.go:31-38 | an unbroken run of letters and digits is one word, lowered letter by letter |
| Names.MatchesAreCommon | internal/infrastructure/screening/demo_provider.go:47-57 | without repeats in the first name the counter is the number of common distinct words |
| Names.RatioInRange | internal/infrastructure/screening/demo_provider.go:39-62 | the ratio lies in 0..199, and in 0..100 when the first name repeats no word or is not the longer |
| Names.RatioIsFloor | internal/infrastructure/screening/demo_provider.go:47-61 | the ratio is twice the places of the first list whose word the second has, in hundredths of all words, rounded down |
| Names.RatioWithinIff | internal/infrastructure/screening/demo_provider.go:45-61 | a first name keeps the ratio within 100 against every second name exactly when 200 times its words is less than 101 times its words and distinct words together |
| Names.RatioIsSymmetric | internal/infrastructure/screening/demo_provider.go:39-62 | without repeats the ratio is symmetric |
| Names.RatioHundredIffPermutation | internal/infrastructure/screening/demo_provider.go:39-62 | without repeats the ratio is 100 exactly when the words are a permutation |
| Names.ScoreLaws | internal/infrastructure/screening/demo_provider.go:39-62 | the same range and symmetry for the whole score, shortcuts included |
| Names.ScoreCases | internal/infrastructure/screening/demo_provider.go:39-62 | 100 for the same words, 90 when one name is inside the other, the ratio of the words otherwise |
| Names.ScoreExceedsIff | internal/infrastructure/screening/demo_provider.go:39-62 | a pair scores past 100 exactly when the second name is no part of the first and 99 times the words of the first that the second has are at least 101 times the other words of the first and all words of the second |
| Names.RepeatsExceedHundred | internal/infrastructure/screening/demo_provider.go:19-30 | a customer named Viktor Viktor Viktor is reported against the listed Viktor Petrov with 120 |
| Names.SpellingsAreFound | internal/infrastructure/screening/demo_provider.go:21-30 | every entry with the same words is a hit at 100, and every hit is an entry scoring at least the threshold |
| Names.HitIff | internal/infrastructure/screening/demo_provider.go:21-30 | a hit is a listed entry scoring 70 or more, and every such entry is a hit |
| Names.Similarity | internal/infrastructure/screening/demo_provider.go:39-62 | the nested loops compute the score |
| Names.Screen | internal/infrastructure/screening/demo_provider.go:21-30 | the loop returns the hits among the listed entries in order |

## Left out

- HTTP handlers, routing, JSON, the web portal, Nginx, Kubernetes, scripts and dashboards: presentation and I/O.
- JWT and JWKS authentication: cryptography and network fetches in libraries. The actor is an input.
- SMTP and webhook senders, and the provider's HTTP request: any outcome.
- Tracing and metrics: no effect on the protocols.
- PostgreSQL's mechanics (isolation, rollback, scanning) and its `external_ref` unique index, which the in-memory store lacks.
- PostgreSQL lists audit events by time where the in-memory store lists them as appended; the logs here are in appending order.
- The tables of runs and outbox rows that PostgreSQL keeps of a screening: `Fanout` says what the batch holds and `Outbox` what becomes of its messages; the in-memory store drops both.
- Notification preferences and mark-read: single-branch updates.
- MemoryRepository.Repository.RecordDueDiligence: of the KYC document, CDD profile and beneficial owner updates only the audit event is modelled.
- The risk engine: a finite table.
- Services.AlertsFor: an alert's rule version, severity, reason code and description, which its rule determines and no branch reads.
- Services.Server.Ingest: lengths are counted in characters where the code counts bytes, and upper-casing covers ASCII; for other text the model's limits are wider.
- Services.Server.Submit: the same, and the customer's external reference, type, risk factors and assessment, which nothing modelled reads.
- Names.Screen: a candidate's reason, one fixed text.
- Store.CreateTransaction: a key that names no stored transaction is treated as unknown; `InvAlways` shows that no run has one.
- Compliance.Perform: its contract says only that refusals change nothing; what an accepted request does is stated request by request in `Effects`, and for all of them by `Invariants.PerformKeeps` and `Histories.PerformStands`.
- Services.Server.ScreenCustomer: owners, webhook and recipients come with the request instead of being read from the repository.
- Compliance.PerformScreen: owners and provider answers come with the request, and a number of answers that does not fit the subjects counts as a provider error.
- Paging.ListPage: the library's sort is an insertion, since only its result matters.
- Services.Server: requests with a single straight-line call to the repository are functions of `Compliance` only.
