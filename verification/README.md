# A verified model of the `rust_events` outbox

`rust_events` is a transactional outbox on PostgreSQL: a caller dispatches an event inside its own
transaction, every registered handler gets an audit row and a queue job, workers claim rows under a
lease token, run the handler, and mark the row, and old rows are purged. This project models that
logic in Dafny and proves what it keeps over every interleaving.

`dafny verify dfyconfig.toml` checks everything.

## How the model is built

| file | what it holds |
|---|---|
| `Utf8.dfy` | UTF-8 (sections 3 and 4 of RFC 3629), `truncate_utf8`, `sanitize_reason` |
| `Schema.dfy` | the tables and their CHECK constraints |
| `Routing.dfy` | how the end of a handler call becomes a mark and a queue result |
| `Fenced.dfy` | the claim statement and the marks as changes of the tables |
| `Runtime.dfy` | `OutboxRuntime` as a class: the four marks, the claim, `handle_envelope` |
| `History.dfy` | the history of one delivery row and the row it adds up to |
| `World.dfy` | the whole system as 19 kinds of interleaved atomic steps |
| `Invariants.dfy` | the invariant `Good` that every step keeps |
| `Fencing.dfy` | safety of the fenced protocol over every run |
| `Lockstep.dfy` | audit rows and queue jobs in a simulation relation, and when they drift |
| `Progress.dfy` | termination within `max_attempts` |
| `Idempotency.dfy` | what keyed dispatches name, with interleaved transactions and purges |
| `Fanout.dfy` | exactly one delivery and job per handler; counting |
| `Dispatch.dfy` | `Outbox::dispatch` as a class method on a transaction object |
| `PurgeSafety.dfy`, `PurgeLoops.dfy` | purges among everything else; the chunked loops alone |
| `Registry.dfy`, `Config.dfy` | the builders as classes, the registry, the timeouts |
| `Drift.dfy` | exactly how queue and audit rows drift apart, over every step of every run |
| `Witness.dfy` | concrete runs that reach the drift the documentation denies |
| `StartGuard.dfy` | `Outbox::start`, `StartedGuard`, and interleaved callers |

Each SQL statement is one atomic step whose outcome is success, failure, or failure although it was
applied; a statement that would break a constraint fails with a deterministic error. A run is any
finite sequence of enabled steps from the empty database: dispatches in open transactions that
hold key locks, commits and rollbacks, leases, claims, marks, reports, crashes, cancellations,
reaped leases, and purges whose selection and deletion are separate steps. `World.System` also
records the past: a history of claims and marks per delivery, and a log of key reservations and
removals. `IsRun(states, steps)` is such a run and `RunIsGood` puts the invariant `Good` into every
one of its states, so a lemma that requires `Good(s)` speaks of every reachable state.

The queue, `pg_work_queue`, is an assumed environment: a lease has a token never used before; only
the result of the current lease holder changes the job; Ok finishes it, Abort kills it, Retry
re-queues it below the budget and kills it at the budget; the reaper only re-queues, with
any attempt number.

The safety results hold for all runs. Three results need a hypothesis on the run, stated as a
predicate on its steps: `Calm` (no failing claim or mark statement, no cancellation from outside, and
claims only under the current lease, which is what `handler_timeout < lease_timeout` is for),
`Smooth` (calm, with no crash and no reaped lease) and `Disciplined` (no commit after an Err).
`Lockstep.LateClaimBreaksLockstep`, with the run `Witness.FinishedWhileRunning`, and
`Fanout.CommitAfterErrLeaks` show why they are needed.

## Where the code and its documentation differ

- README.md:491 says that a job the queue has killed while the audit row is `sent` "is prevented by
  fencing". It is not: `Witness.KilledAlthoughSent`, `Witness.FailedClaimKillsSent` and
  `Witness.StaleMarkSendsKilled` reach such states from the empty database in three ways, and
  `Drift.DriftArisesIff` and `Drift.RunDriftsIff` say exactly which steps bring it about. It cannot
  happen in a calm run, whatever is purged: `Drift.CalmRunsDoNotDrift`.
- README.md:512 says that a row stranded on the last attempt stays `running` permanently. That is not
  always so: `Witness.StrandedRowIsRescued` reaches such a row and then a late claim makes it sent.
  `Drift.AbandonedForGood` says exactly how long it stays, and `Drift.AbandonmentArisesIff` exactly
  how it comes about.
- README.md:417 and src/purge.rs:89-91 ask for deliveries and keys to be purged before events. The
  order makes no difference: `PurgeLoops.PurgesCommute`, `PurgeLoops.SameEventsEitherWay`.
- README.md:419 says that purges work "per call" on one chunk. The functions loop until a chunk
  is short, and are modelled that way.
- src/util.rs:16-17 says that sanitising preserves the byte budget one to one. A C1 control character
  takes two bytes and its replacement one (`Utf8.NextLineShrinks`): the length never grows, and it is
  kept exactly when there is none (`Utf8.SanitizeKeepsLenIff`).

One result goes beyond what the documentation speaks of. src/outbox.rs:366-369 has the guard release
the `started` flag when a `?` below it unwinds. Above it, between the swap and the guard, nothing does:
with a concurrency above 1 the tokio runtime is looked up there, and tokio's lookup panics outside a
runtime. `StartGuard.Start` and `StartGuard.LostForGood` say when that happens and what follows.

## Model

| member | source | states |
|---|---|---|
| `Utf8.DecodeEncode` | src/util.rs:20-42 | a text's bytes are well formed, decode to the text, and number its byte length |
| `Utf8.EncodeDecode` | src/util.rs:20-42 | every well-formed byte string is the encoding of what it decodes to |
| `Utf8.FitIsLongest` | src/util.rs:26-28 | no longer prefix of the text fits the bound than the one truncation keeps |
| `Utf8.FitIsTheCut` | src/util.rs:35-40 | keeping whole characters is cutting the bytes at the last boundary, at most 3 bytes below the bound |
| `Utf8.TruncateUtf8` | src/util.rs:31-42 | the loop yields well-formed bytes within the bound, the longest character prefix, dropping at most 3 bytes below the bound |
| `Utf8.Sanitize` | src/util.rs:20-24 | writes '?' for every control character and keeps all others, so also the number of characters; never grows the bytes |
| `Utf8.SanitizeKeepsLenIff` | src/util.rs:16-17 | sanitising keeps the byte length exactly when the text holds no C1 control character |
| `Utf8.NextLineShrinks` | src/util.rs:16-17 | a text whose byte length it does not keep: U+0085 |
| `Utf8.CleanText` | src/runtime.rs:88-89 | sanitise then truncate: at most 8192 bytes, no control character, idempotent, lossless when it fits |
| `Routing.RouteAgreesWithQueue` | src/runtime.rs:433-481 | on every panic, timeout, decode, skip, abort and retry route the row stays open exactly when the queue will deliver again, and is sent exactly when the result is Ok |
| `Routing.SameTextInBothPlaces` | src/runtime.rs:429-480 | audit row and queue receive the same text, a skip's behind a fixed prefix |
| `Routing.BoundTextFits` | src/runtime.rs:61-70 | every text a mark binds passes the column's CHECK, holds no NUL, and is already clean |
| `Fenced.ClaimFitsIff` | migrations/20260513000001_v01_outbox_init.sql:129-167 | a claim of a valid row can break only the temporal CHECK, exactly when its time lies before the first attempt or the creation |
| `Fenced.ClaimedRowIs` | src/runtime.rs:209-224 | the claim's SET list yields exactly the row that claim promises, and no other |
| `Fenced.MarkAlwaysFits` | migrations/20260513000001_v01_outbox_init.sql:129-167 | a mark with a matching token breaks no constraint if its time is not before the claim's |
| `Runtime.OutboxRuntime.MarkSentFenced` | src/runtime.rs:31-51 | the tables and the error after the statement, for every behaviour of the connection |
| `Runtime.OutboxRuntime.MarkAwaitingRetryFenced` | src/runtime.rs:54-78 | the same for awaiting_retry, with the cleaned text |
| `Runtime.OutboxRuntime.MarkDeadFenced` | src/runtime.rs:81-105 | the same for dead |
| `Runtime.OutboxRuntime.MarkSkippedFenced` | src/runtime.rs:108-132 | the same for skipped |
| `Runtime.OutboxRuntime.ClaimDelivery` | src/runtime.rs:188-257 | the tables, the reply and the error after the claim statement; an applied claim stores the largest of the old attempts, the attempt as an i32 and 1, keeps the first attempt's time, clears the last error, and moves no other column |
| `Runtime.OutboxRuntime.HandleEnvelope` | src/runtime.rs:174-482 | what a call leaves, whatever happened to the tables while its handler ran: it stops after its claim, or routes what it saw into one mark; which mark and answer is `Runtime.HandlerDecides` |
| `Runtime.CallRefinesSteps` | src/runtime.rs:174-482 | a whole call is the claim step and then the mark step of the interleaved system, the latter in any later state in which it is still in its handler; tables and result are those of its last step |
| `Runtime.ClaimRefinesStep` | src/runtime.rs:202-292 | the claim of a call is the claim step of the interleaved system |
| `Runtime.MarkRefinesStep` | src/runtime.rs:433-481 | the rest of a call is its mark step |
| `Runtime.UndisturbedCall` | src/runtime.rs:433-481 | with its lease intact a call leaves row and queue in agreement, and both as the handler said: status, finishing time, text, attempts, all constraints, and no other row touched |
| `Runtime.HandlerDecides` | src/runtime.rs:294-481 | with its lease intact a call leaves the row as the handler said: sent, skipped, dead or awaiting_retry each exactly for its ends of the call, with the cleaned text of the handler's own reason, decode message or panic payload; the queue is told the same with the handler's own retry delay, or the class of the mark's error; no other column or row moves |
| `Runtime.OutboxRuntime.Finish` | src/runtime.rs:433-481 | the terminal transition: the mark and the answer for each result of the handler |
| `Runtime.StoppedCall` | src/runtime.rs:247-292 | a call that stops at its claim: a missing event or row, a broken constraint and a deterministic error abort, other errors retry without a delay; what the claim left behind |
| `Runtime.TerminalIsLeftAlone` | src/runtime.rs:275-282 | a terminal delivery is left alone and its job completed |
| `Runtime.FencedOutCall` | src/runtime.rs:29-52 | a call that lost its lease changes nothing and answers the queue as its handler said, or with the error of its mark |
| `Ledger.RunningIffLastEntryClaims` | src/runtime.rs:204-228 | a row runs under a token exactly when the last entry of its history is that token's claim, whose time is `last_attempted_at` |
| `Ledger.SettledIffTerminal` | src/runtime.rs:227 | a row is terminal exactly when its history ends in a verdict |
| `Ledger.AttemptsIsPeak` | src/runtime.rs:221 | attempts are 0 before the first claim, then the maximum of 1 and all claimed attempt numbers, in whatever order |
| `World.StatementsAreEffects` | src/runtime.rs:202-240 | the statements change the tables as the steps say |
| `Invariants.EffectAllowed` | src/runtime.rs:202-240 | no step of any kind writes a terminal row, reuses a token, marks without the fence, or drops an open row |
| `Invariants.StepKeepsOwnership` | migrations/20260513000001_v01_outbox_init.sql:73-94 | no key or delivery ever dangles, an event has at most one key, ids stay with the transaction that drew them |
| `Invariants.StepKeepsKeyLocks` | src/outbox.rs:156-170 | a key that an open transaction reserved stays what it found until the transaction ends |
| `Invariants.StepKeepsJobs` | src/outbox.rs:269-292 | every job has its own committed delivery |
| `Invariants.StepKeepsGood` | src/runtime.rs:174-482 | every one of the 19 kinds of step keeps the whole invariant |
| `Invariants.RunIsGood` | src/runtime.rs:174-482 | every state of every run satisfies it |
| `Fencing.HistoryOnlyGrows` | src/runtime.rs:209-228 | between any two states of any run histories only grow, attempts never decrease, purged rows never return |
| `Fencing.VerdictIsFinal` | src/runtime.rs:263-292 | a recorded verdict is the only one ever; afterwards no claim succeeds, no mark applies, and no column changes, even if the row was purged meanwhile |
| `Fencing.TerminalRowHasVerdict` | src/runtime.rs:227 | a terminal status in the table is a recorded verdict |
| `Fencing.StatusSaysAll` | migrations/20260513000001_v01_outbox_init.sql:133-167 | in every reachable state a row has a lease token exactly while running, a finishing time exactly once terminal, no attempts exactly while queued, and its times in order |
| `Fencing.AttemptsColumn` | src/runtime.rs:221-244 | in every reachable state the attempts column is 0 before the first claim, then the maximum of 1 and the attempt numbers of all invocations that ever claimed the row, cut at the largest i32 |
| `Fencing.MarkTakesEffectIff` | src/runtime.rs:29-132 | a mark takes effect exactly when its invocation made the last successful claim of the row; every other invocation in its handler for that row is fenced out |
| `Fencing.FencedOutMarkIsNoOp` | src/runtime.rs:135-150 | any other mark changes nothing and is reported as if it had |
| `Fencing.MarksBreakNoConstraint` | migrations/20260513000001_v01_outbox_init.sql:133-167 | no reachable mark breaks a constraint if only each worker's own clock is ordered: the matching token proves `last_attempted_at` is its own |
| `Fencing.ClaimsBreakOnlyTime` | migrations/20260513000001_v01_outbox_init.sql:133-167 | a reachable claim breaks only the temporal CHECK, exactly when its time is too early |
| `Fencing.NoConstraintBrokenOnTime` | migrations/20260513000001_v01_outbox_init.sql:133-138 | with a globally monotone clock no claim of any run breaks anything |
| `Fencing.ClaimQueryIsTotal` | src/runtime.rs:230-262 | the claim query returns one row for an existing event; for a missing one nothing was touched |
| `Lockstep.StepKeepsSimulation` | src/runtime.rs:354-481 | every calm step keeps rows and jobs in the simulation relation |
| `Lockstep.FinishedJobHasVerdict` | src/runtime.rs:354-481 | in every calm run a finished or killed job has a verdict, and its row is terminal unless purged |
| `Lockstep.KilledRowIsUnsent` | README.md:491 | in every calm run, whatever is purged, the row of a killed job is dead or skipped if it is still there |
| `Lockstep.KilledJobWasNotSent` | src/runtime.rs:354-481 | in particular, in every calm run that purges no delivery row a killed job has its row, dead or skipped |
| `Drift.CalmRunsDoNotDrift` | README.md:491 | in every calm run no job is killed over a sent row, and no delivery is abandoned |
| `Lockstep.StrandedIff` | src/runtime.rs:433-481 | for the lease holder's own mark through the fence: exactly when it and its report end the job and leave the row open |
| `Drift.AbandonmentArisesIff` | README.md:510-512 | over every step of every kind, exactly when a delivery is abandoned, its job over and no one left to settle it: a last report over an open row no one has in hand, a worker that still had it and lets go by mark, crash or cancellation without a verdict, or a late claim that takes it from such a worker and loses its reply |
| `Drift.RunAbandonsIff` | README.md:510-512 | a run ever abandons the delivery of a job exactly when it takes one of those three steps |
| `Drift.AbandonedForGood` | README.md:512 | exactly how long an abandoned delivery keeps its history: until a claim of it takes effect; until then its row stays open, unchanged and unpurged, and its job over |
| `Drift.AbandonedUnderLease` | README.md:512 | so it stays for good if claims of it run only under the current lease |
| `Drift.LateClaimRescues` | src/runtime.rs:209-228 | a late claim takes an abandoned delivery up and can still settle it |
| `Witness.StrandedRowIsRescued` | README.md:512 | a run from the empty database that strands a running row on its last attempt, and then a late claim and mark that make it sent |
| `Drift.DriftArisesIff` | README.md:491 | over every step of every kind: the queue has killed a job whose row is sent exactly after a failing last report over a sent row, or a mark that still passes the fence on a killed job |
| `Drift.RunDriftsIff` | README.md:491 | a run ever drifts for a job exactly when it takes one of those two steps |
| `Lockstep.SentButKilledIff` | README.md:491 | exactly when the lease holder's own mark and report end that way |
| `Lockstep.LostReplyKillsSentJob` | README.md:491 | the case: a last-attempt mark that commits and loses its reply |
| `Lockstep.LateClaimRestamps` | src/runtime.rs:209-228 | a late claim takes over a running row, because tokens are not compared |
| `Lockstep.LateClaimBreaksLockstep` | src/builder.rs:233-237 | then a finished job can leave its row running, so the hypothesis on claims is needed |
| `Witness.KilledAlthoughSent` | README.md:491 | a run from the empty database that ends with the job killed and the row sent, after a lost reply |
| `Witness.FailedClaimKillsSent` | README.md:491 | another, without any failing mark: the lease runs out after the mark and the next claim fails |
| `Witness.StaleMarkSendsKilled` | README.md:491 | another, in which the overtaken worker marks the row after the job was killed |
| `Witness.FinishedWhileRunning` | src/runtime.rs:209-228 | a run in which a late claim leaves a finished job with a running row |
| `Progress.JobStepsBounded` | src/runtime.rs:439-457 | over any stretch of a smooth run, the steps spent on a job plus what is left of it never exceed what was left at the start, which is at most 4 × max_attempts |
| `Progress.VerdictWithinBudget` | src/runtime.rs:439-457 | never more than max_attempts claims; a job is over exactly when nothing is left to do, and then has its verdict; it is never stuck before; and awaiting_retry only strictly below the budget |
| `Idempotency.CommitKeepsKeyLog` | src/outbox.rs:171-195 | a commit's reservations fit everything committed before it |
| `Idempotency.SameKeySameEventIff` | src/outbox.rs:171-195 | in every run two committed keyed dispatches name the same event exactly when tenant and key agree and no purge removed the key between them, directly or by cascade |
| `Idempotency.KeyTableIsCurrent` | src/purge.rs:56-84 | the key table always names the event of the last committed dispatch under the key, unless purged since |
| `Fanout.FanOutNeverCollides` | src/outbox.rs:248-256 | the fan-out never violates the events primary key or UNIQUE (event_id, handler_id) |
| `Fanout.CommitGains` | src/outbox.rs:217-303 | a commit brings one queued row and one ready job per handler of each of its events, and none for others |
| `Fanout.ExactlyOneDeliveryAndJob` | src/outbox.rs:217-303 | in every disciplined run a committed event has exactly one delivery and one job per registered handler, and none else |
| `Fanout.CommitAfterErrLeaks` | src/outbox.rs:71-76 | the discipline is needed: a commit after an Err between fan-out and push leaves deliveries no job serves |
| `Fanout.EventsNumberKeysAndUnkeyed` | src/outbox.rs:146-195 | without purges committed events number the distinct keys plus the unkeyed dispatches |
| `Dispatch.Outbox.Validate` | src/outbox.rs:99-154 | refuses exactly the requests the database's byte CHECKs would (headers apart), or without handlers in strict mode; the error is about the request and is the first that applies |
| `Dispatch.Transaction.Upsert` | src/outbox.rs:171-195 | inserts the key or finds what it names, and locks it |
| `Dispatch.BatchIsOneJobEach` | src/outbox.rs:273-292 | a batch with fresh ids numbers exactly one job per handler |
| `Dispatch.Outbox.Dispatch` | src/outbox.rs:93-304 | the whole transaction and result for every request and every failing statement; a refused request changes no row and gets the first error that applies; which event a key names is `Dispatch.OutcomeIs` |
| `Dispatch.OutcomeIs` | src/outbox.rs:171-303 | every outcome of an accepted request and exactly when it occurs: a duplicate of event v exactly when (tenant, key) names v in the transaction or, failing that, in the table, whatever the event type; headers over 16384 bytes; no handlers; or the new event with one delivery per handler |
| `Dispatch.OutcomeIsRecorded` | src/outbox.rs:171-195 | a successful call records (tenant, key) for the event it returns, and inserts that key exactly if it named nothing |
| `Dispatch.SameRequestSameEventIff` | src/outbox.rs:156-195 | two keyed calls in one transaction return the same event exactly when tenant and key agree, whatever their types; then the second is a duplicate |
| `Dispatch.RequestsShareEventIff` | src/outbox.rs:171-195 | the same over every run for two committed requests, unless a purge removed the key between them |
| `Dispatch.DuplicateOnlyLocks` | src/outbox.rs:185-194 | a duplicate writes no event, delivery or job |
| `Dispatch.DispatchedGains` | src/outbox.rs:217-303 | a new event brings itself, one delivery per handler and one job for each, with handlers or without |
| `Dispatch.CommitAfterErr` | src/outbox.rs:71-76 | exactly when the transaction can still be committed after each Err: not with a dangling key, not after a failed statement; and deliveries leak exactly when the request gets as far as its push and the push fails without aborting |
| `Dispatch.StampsFollowLimits` | src/outbox.rs:273-289 | a job is stamped with its handler exactly when that handler is limited at start |
| `Dispatch.DispatchRefinesSteps` | src/outbox.rs:93-304 | every call, refused or accepted, keyed or not, fresh or duplicate, with handlers or without, and however its statements fail, is a series of steps of the interleaved system, with anything between them; it returns Err exactly when the last is an error step |
| `PurgeSafety.StaysTerminal` | src/purge.rs:105-116 | once all deliveries of an event are terminal they stay so for the rest of any run |
| `PurgeSafety.SelectedStaysSafe` | src/purge.rs:105-116 | a selected event is safe to delete at any later time |
| `PurgeSafety.RemovedRowsWereTerminal` | src/purge.rs:86-88 | no step of any run removes an open delivery, and only purges remove any |
| `PurgeSafety.EventRowsNeverChange` | migrations/20260513000001_v01_outbox_init.sql:66-68 | an event row never changes and once purged never comes back |
| `PurgeSafety.RowsShareTheirAge` | migrations/20260513000001_v01_outbox_init.sql:73-124 | in every state of every run a key and a delivery are as old as their event and a delivery finished no earlier, so a cutoff that spares an event spares its rows |
| `PurgeLoops.ChunkExists` | src/purge.rs:26-31 | an oldest-first chunk always exists |
| `PurgeLoops.Database.PurgeTerminalDeliveries` | src/purge.rs:18-47 | the loop ends, for any positive chunk size; a delivery is gone exactly if it is sent, dead or skipped and finished before the cutoff, everything else is as it was, and the result is the number of rows gone |
| `PurgeLoops.Database.PurgeDispatchKeys` | src/purge.rs:56-84 | the same for keys: gone exactly if created before the cutoff |
| `PurgeLoops.Database.PurgeEvents` | src/purge.rs:97-130 | the same for events: gone exactly if created before the cutoff with no delivery queued, running or awaiting_retry; a delivery or key is gone exactly if its event is, and is not counted |
| `PurgeLoops.EventsLeft` | src/purge.rs:105-116 | deleting some events does not change which others may go |
| `PurgeLoops.OpenDeliveriesStay` | src/purge.rs:107-112 | purging events loses no open delivery |
| `PurgeLoops.SameEventsEitherWay` | src/purge.rs:89-91 | purging deliveries or keys first does not change which events go |
| `PurgeLoops.PurgesCommute` | src/purge.rs:89-91 | the three purges commute, whatever their cutoffs |
| `PurgeLoops.DropsAreDeletes` | src/purge.rs:105-116 | the purge steps of the interleaved system delete what these statements delete |
| `PurgeLoops.PurgeStepsAreOpenIff` | src/purge.rs:26-116 | the purge steps of the interleaved system may be taken exactly for the rows these statements find |
| `Registry.OneMoreRegistration` | src/builder.rs:309-332 | one more registration is accepted exactly when it is valid and its id new; it is listed last under its type and changes no other list |
| `Registry.OutboxBuilder.Build` | src/builder.rs:351-420 | succeeds exactly when all registrations are valid and ids distinct, then holds exactly them; else the error is the first failing check of the first bad one |
| `Registry.Objection` | src/builder.rs:359-398 | the checks of one round accept exactly a valid, new registration |
| `Registry.ByTypePartitions` | src/builder.rs:399-413 | the type index lists each registered handler once, under one type |
| `Registry.BuiltCanStart` | src/registry.rs:101-110 | a built registry gives the interleaved system its initial state |
| `Registry.InternalTimeoutFiresFirst` | src/runtime.rs:322-352 | the internal timeout of every registered handler is its own timeout, or else the global one, less 200 ms; it fires before the global one and the lease, and the 100 ms floor never binds |
| `Registry.DefaultIsUsable` | src/builder.rs:128-143 | the default configuration would pass its own validation; its values, with the handler timeout at 80% of the lease |
| `Registry.KeyedIffLimited` | src/outbox.rs:421-426 | the concurrency key of a handler is set exactly when start passes a limit; the limit is the registered one and lies in 1..=i32::MAX |
| `Config.OutboxConfigBuilder.Build` | src/builder.rs:224-258 | accepts exactly the usable configurations, and each error occurs exactly when it is the first that applies |
| `StartGuard.Start` | src/outbox.rs:339-450 | one call: each result, from already started to started, occurs exactly under its condition, the pool being too small exactly below 2 × concurrency + 2; and the flag is released after every failure past the guard |
| `StartGuard.MoveKeepsOneHolder` | src/outbox.rs:340-370 | every step keeps at most one holder of the flag |
| `StartGuard.AtMostOneStart` | src/outbox.rs:340-370 | in every interleaving successes plus calls still starting never exceed one, and the flag is set exactly for one of them or a lost call |
| `StartGuard.FailedStartIsRetryable` | src/outbox.rs:448-476 | without a panic before the guard, the flag is set exactly when started or starting, and a failed or dropped start lets the next call through |
| `StartGuard.LostForGood` | src/outbox.rs:340-370 | after a panic before the guard every later call is refused |

## Left out

- `pg_work_queue` itself (poll loop, backoff, reaper timing, per-key counter): only the environment assumptions above.
- sqlx, tokio timers, `catch_unwind` and tracing: reduced to outcomes chosen freely by a step or a parameter.
- JSON encoding and decoding: payloads and headers are their encoded sizes, decoding succeeds or fails freely.
- That the header size check in Rust implies the one in the database: Rust measures compact JSON, the CHECK measures jsonb text, so the code does not decide it.
- Event ids (UUIDv7, section 5.7 of RFC 9562) and job ids: assumed fresh; the surrogate `id` column of deliveries is replaced by (event, handler).
- The wording of error messages, `redact_db_error` and the SQLSTATE table behind `is_sqlx_deterministic`: an error is deterministic or not, with a fixed text; the fixed texts of an unregistered handler and of a timeout are symbolic.
- Wall-clock cutoffs (`cutoff_from`): the cutoff is a parameter. A purge whose statement fails half-way is not modelled; its earlier chunks stay deleted.
- History queries, the shutdown pending count, the migrators, and the purges of the queue's own tables.
- Registries that change during a run: the interleaved system has one registry, though any claimed delivery may find its handler missing.
- Dropping a start call in the middle of the queue's own start-up: what that leaves running is the queue's business.
- Runtime.OutboxRuntime.HandleEnvelope: the tables other workers leave while the handler runs are a parameter, since a method cannot be interrupted; `Runtime.CallRefinesSteps` ties the call to the interleaved steps.
