# EventRail delivery: a Dafny model

EventRail takes events over HTTP, stores them in Postgres together with an outbox row, publishes
them to a Redis stream, delivers them from there with retries, and keeps what it could not deliver
as dead letters that an operator may redrive. The two stores share no transaction. This project
models that machinery and proves what it promises.

- **Delivery protocol** (`protocol.dfy`, `safety.dfy`, `noloss.dfy`, `conservation.dfy`,
  `outcomes.dfy`, `records.dfy`, `ordering.dfy`, `drain.dfy`, `overlap.dfy`, `limits.dfy`,
  `node.dfy`). A state holds the Postgres tables, the Redis structures and what each process has
  in memory. A step is one external effect of one
  actor. Each effect may be confirmed, lost, or applied although an error is reported, and an actor
  may crash between any two effects. Any number of publishers, workers and pumps take steps in any
  order; `Reachable` is the set of states this leads to. `node.dfy` holds the actors' own code as
  imperative methods. Between their effects the others may do anything that `OthersRely` allows,
  and each effect is shown to be an enabled step, so the methods refine the step relation.
- **Idempotent receiver** (`receipts.dfy`) and its composition with the protocol (`endtoend.dfy`).
- **Idempotent ingestion** (`ingestion.dfy`): concurrent transactions on the unique indexes. The
  canonical request encoding is in `json.dfy` and `request_hash.dfy`, with concrete JSON syntax of
  sections 2 to 7 of RFC 8259, and `idempotency.dfy` joins the two.
- **Replay** by keyset pagination (`replay.dfy`), with the cursor timestamps of section 5.6 of
  RFC 3339 (`rfc3339.dfy`).
- **Explanation snapshot** (`history_bound.dfy`, `explain.dfy`) against its receiver's checks.
- **Scheduling** (`backoff.dfy`, `runner.dfy`): both backoffs and the outbox runner.

`text.dfy` (decimal numbers, trimming), `sums.dfy` (finite sums) and `effects.dfy` (how an effect
may fail) are shared groundwork.

`dafny verify dfyconfig.toml` checks the whole project.

## What is assumed of the environment

- The stream is never trimmed, events are never deleted, and Redis keeps writes it acknowledged.
- The consumer group cursor is never set past the furthest entry ever handed out.
  `Conservation.JumpSafeIff` shows that this is exactly what keeps every passed entry pending or
  with an outcome of its own. The events that a longer jump loses are exactly those whose youngest
  entry it skips unread and of which nothing is found elsewhere (`Limits.JumpLosesIff`), and
  `Limits.JumpLosesEvent` gives a run in which there is one.
- The database clock does not go back. Where a result needs any two readings of it to differ,
  `strictClock` says so. `Limits.TieReadsBackwards` shows that the result fails without it.
- The retry limit is fixed during a run, positive, and below 2^63 - 1.
- Every event row has an outbox row. (In `ingestion.dfy` legacy rows without a hash are allowed.)
- A stream ID is the position of its entry, and a retry set member is its map of values.
  `RetryMember.MemberTextIff` shows that the member's JSON text determines that map.
- Parameters: SHA-256, the IDs of events and outbox rows, what JSON decoding makes of a webhook
  payload, replies of foreign destinations, and all schedules, faults and clock readings.

## Where the code differs from the expected law

- The worker's delay is not `min(10s, base * 2^(retry-1))` for every retry: shift and product wrap
  at 64 bits before the cap is applied. At a single retry the law also holds when the wrapped value
  happens to reach the cap (`Backoff.ExactIff`, `Backoff.LuckyWrap`). All delays up to a limit are
  right exactly when the last product stays below 2^63, which is 35 retries at the default base; the
  configuration only checks that the limit is positive (`Backoff.BackoffDelayExactIff`,
  `Backoff.DefaultBackoffBound`).
- Weights that count what the stores hold, without regard to who holds it, do not go down with every
  fault-free step: two pumps that fetched the same retry both republish it, and two workers that
  hold the same entry may both schedule its retry. `Overlap.PumpRoundIff` and `Overlap.CallRoundIff`
  say exactly when they go down, and `Overlap.PumpsOverlap` and `Overlap.WorkersOverlap` give runs in
  which they do not. The
  measure of `drain.dfy` counts what each worker may still claim and each pump may still fetch, and
  it goes down whatever overlaps; it grows with the size of the crew at every retry left.
- A snapshot always passes the receiver's structural checks, but nothing on the sending side
  enforces the receiver's field bounds (`Explain.SnapshotAcceptedIff`, `Explain.LongTypeRefused`).
- Response codes of 600 and above count as delivered (`Delivery.ResponseDeliveredIff`).
- Which original stream ID a DLQ record names is decided by `moveToDLQ`, which has already written
  the message's own ID into the shared value map: the first ancestor of a retried message is not
  recorded (`Conservation.DlqRecordNamesOwnEntry`).

## Model

| member | source | states |
|---|---|---|
| `NoLoss.EveryEventAccounted` | internal/deliveryworker/worker.go:205-276 | In every reachable state each persisted event has a pending outbox row, an unread entry, a pending entry, a queued retry, a DELIVERED row or an OPEN DLQ record |
| `NoLoss.RedriveSwallowsNothing` | internal/operations/store.go:288-363 | A REDRIVEN record has a redrive entry in the stream younger than every entry of the event recorded as dead-lettered |
| `NoLoss.CarriersFaithful` | internal/deliveryworker/worker.go:464-487 | Every stream entry and retry member agrees with a committed event in type, source, payload and creation time, carries exactly one mark of its origin and a counter in 0..maxRetries, after any number of retry round trips; so does every message in work |
| `NoLoss.ChildIsYounger` | internal/deliveryworker/worker.go:546-564 | A republished retry has a larger stream ID than the entry it retries |
| `NoLoss.MembersInjective` | internal/deliveryworker/worker.go:464-487 | Distinct stream entries never share a retry member |
| `NoLoss.OneMemberPerEntry` | internal/deliveryworker/worker.go:464-487 | However often an entry is reclaimed and rescheduled, at most one member for it is queued |
| `NoLoss.RetryNeverDropped` | internal/deliveryworker/worker.go:546-564 | An entry whose retry was scheduled has its member queued or a younger republished child, whatever the pump removes meanwhile |
| `Safety.StepKeeps` | internal/deliveryworker/worker.go:361-436 | Every step of every actor, with every fault, keeps the protocol invariant |
| `Safety.RunKeeps` | internal/operations/store.go:482-496 | Every run keeps the invariant and takes back nothing committed or appended |
| `Safety.StepGrows` | internal/operations/store.go:365-382 | No step changes or removes an event, a status row, an attempt, a DLQ record's key or a stream entry |
| `Safety.NewCarrier` | internal/broker/redisstream/publisher.go:39-70 | Root, replay and redrive entries carry the committed event with retry counter 0 and no original stream ID |
| `Safety.RetryFaithful` | internal/deliveryworker/worker.go:473-487 | Writing and parsing back the retry counter adds exactly one and keeps the event |
| `Safety.AckKeeps` | internal/deliveryworker/worker.go:422-436 | Acknowledging an entry that has a committed outcome keeps the invariant |
| `Safety.DeadLetterDlq` | internal/operations/store.go:431-480 | Upserting a dead letter keeps every record's redrive promise because no redrive holds that row's lock |
| `Conservation.AttemptsConserved` | internal/operations/store.go:384-480 | Attempts of an event equal its DELIVERED, RETRYING and DEAD_LETTERED rows together, are at most its PROCESSING rows, and are numbered 1..maxRetries+1 |
| `Outcomes.DeliveredMeansAnswered` | internal/deliveryworker/worker.go:289-352 | A DELIVERED row has a successful attempt at its entry: for a webhook with a response code below 400 or from 600 on, for any other type without one; a force.fail event never has a DELIVERED row |
| `Outcomes.RetriedMeansTemporary` | internal/delivery/failure.go:107-129 | A RETRYING row is below the retry limit and has a failed attempt at its entry without a code or with 408, 425, 429 or 500 to 599 |
| `Outcomes.BuriedEarlyMeansPermanent` | internal/delivery/failure.go:107-129 | A DEAD_LETTERED row below the retry limit belongs to a webhook and has a failed attempt: without a code exactly if the payload leads to no request, otherwise with another code of 400 to 499 |
| `Outcomes.OutcomeHasAttempt` | internal/operations/store.go:397-480 | Every outcome row has an attempt of its event and entry, numbered one above the row's retry, successful exactly for DELIVERED, started no later than the row's stamp and no earlier than the event |
| `Outcomes.AttemptHasOutcome` | internal/operations/store.go:498-522 | Every attempt has such an outcome row |
| `Outcomes.SuccessesAreDeliveries` | internal/operations/store.go:397-480 | Successful attempts of an event equal its DELIVERED rows, failed ones its RETRYING and DEAD_LETTERED rows |
| `Outcomes.DeadLetterTold` | internal/deliveryworker/worker.go:566-580 | Every DEAD_LETTERED row has a message in the dead-letter stream with its event, its own entry, the time and the error |
| `Outcomes.RowsCarryCounter` | internal/deliveryworker/worker.go:205-217 | PROCESSING and outcome rows carry the event and the retry counter of the stream entry they name |
| `Records.RecordStamped` | internal/operations/store.go:336-356 | A DLQ record is stamped exactly when it is redriven, with the time of a REDRIVEN row of its event |
| `Records.TablesTidy` | internal/ingestion/store.go:190-201 | Every event has one STORED and one PENDING_PUBLICATION row that read in this order, row IDs are unique, batches hold at most ten messages and fifty members, and messages from the outbox name their row; only events that were dead-lettered have messages marked as redrives |
| `Records.IngestedIsDue` | migrations/003_add_request_hash_and_outbox.sql:4-14 | A stored event can be claimed at the instant it was committed |
| `Conservation.AckedHasOutcome` | internal/deliveryworker/worker.go:387-436 | An entry handed out and no longer pending has a committed outcome row of its own, for its own event |
| `Conservation.RedrivesPaidFor` | internal/operations/store.go:302-356 | REDRIVEN rows never exceed DEAD_LETTERED rows, are fewer while the record is OPEN, and two of them always have a dead letter between |
| `Conservation.DlqRecordNamesOwnEntry` | internal/deliveryworker/worker.go:566-580 | A DLQ record names the dead-lettered entry itself and its attempt number, because the shared value map was overwritten first |
| `Conservation.PublishedExactlyOnce` | internal/outbox/publisher.go:113-136 | One PUBLISHED row exists exactly when the outbox row is published, and no two publishers hold one row |
| `Conservation.OutboxOverRuns` | internal/outbox/publisher.go:59-75 | Over every run published is absorbing and attempt_count grows by exactly the committed failures |
| `Conservation.JumpSafeIff` | cmd/api/main.go:290-323 | Setting the group cursor leaves every passed entry pending or settled exactly when it does not go past the furthest entry handed out |
| `Limits.JumpLosesIff` | cmd/api/main.go:290-323 | After a jump of the group cursor an event is accounted for exactly if the jump does not skip its youngest entry unread or the event is found elsewhere |
| `Limits.JumpLosesEvent` | cmd/api/main.go:317-320 | A reachable state from which a forward jump leaves an event unaccounted for |
| `Limits.TieReadsBackwards` | internal/operations/store.go:551-557 | With equal clock readings a reachable history reads PROCESSING before the PUBLISHED row of the same entry |
| `Ordering.PublishedAfterArrival` | internal/outbox/publisher.go:42-57 | PUBLISHED reads back after STORED and PENDING_PUBLICATION of its event in every reachable state |
| `Ordering.PublishedBeforeProcessing` | internal/operations/store.go:365-395 | PUBLISHED is never stamped later than PROCESSING of the entry its transaction appended, and reads back strictly before it under a strictly advancing clock, whichever commits first |
| `Ordering.ReadbackSorts` | internal/operations/store.go:551-578 | The history read for an event is the multiset of its rows in (created_at, id) order |
| `Ordering.ArrivalReadsFirst` | internal/operations/store.go:551-578 | In the history read for an event STORED and PENDING_PUBLICATION stand before PUBLISHED |
| `Ordering.PublishedReadsFirst` | internal/operations/store.go:551-578 | Under a strictly advancing clock PUBLISHED stands before every PROCESSING of the entry its transaction appended |
| `Drain.DrainStepLowers` | internal/deliveryworker/worker.go:205-276 | Every fault-free step of any publisher, worker or pump strictly lowers a sum of weights, overlapping claims and fetches included; an empty poll or the end of a tick leaves it no higher |
| `Drain.DrainBounded` | internal/delivery/failure.go:121-129 | No schedule without new input and faults contains more steps, empty polls aside, than the measure of its first state, for any finite set of workers and pumps |
| `Drain.NextMove` | internal/deliveryworker/worker.go:101-162 | While anything is left and no redrive holds a lock, some step is possible once the clock has moved on |
| `Drain.DrainCompletes` | internal/deliveryworker/worker.go:489-544 | From every such state a fault-free schedule of a given nonempty crew leads to a state with nothing left |
| `Drain.QuietMeansSettled` | internal/deliveryworker/worker.go:387-420 | When nothing is left every event is DELIVERED or has an OPEN DLQ record |
| `Drain.DrainSettles` | internal/deliveryworker/worker.go:546-564 | From every reachable state every fault-free schedule has boundedly many steps, and where it leaves nothing every event is settled |
| `Overlap.PumpRoundIff` | internal/deliveryworker/worker.go:546-564 | XADD and ZREM of a fetched member lower the weights of what Redis holds exactly if the member is still queued |
| `Overlap.CallRoundIff` | internal/deliveryworker/worker.go:387-420 | A worker's call that schedules a retry, records it and acknowledges its entry lowers those weights exactly if the entry is still pending |
| `Overlap.PumpsOverlap` | internal/deliveryworker/worker.go:489-544 | A reachable state in which a second pump republishes a retry that is already in the stream, without any fault |
| `Overlap.WorkersOverlap` | internal/deliveryworker/worker.go:205-276 | A reachable state in which a second worker schedules the retry of an entry that another one has acknowledged, without any fault |
| `EndToEnd.EffectAtMostOnce` | internal/deliveryworker/worker.go:307-352 | Across retries, reclaims, replays, redrives and lost responses at most one receipt per event is applied, exactly one for a DELIVERED event aimed at the receiver, and every request is counted once |
| `EndToEnd.SuccessMeansSeen` | internal/deliveryworker/worker.go:307-352 | A successful delivery to the receiver leaves the event's key recorded there |
| `EndToEnd.OneRequestPerDelivery` | internal/deliveryworker/worker.go:307-345 | A delivery that reaches the receiver is counted there once, and every other one leaves it as it was |
| `Receipts.HandleKeeps` | cmd/mock-destination/main.go:73-107 | Every request keeps totals and keys consistent, forgets no key, and a 200 answer means the key is recorded |
| `Receipts.ForcedFailures` | cmd/mock-destination/main.go:155-165 | fail_next makes exactly that many requests fail with 500 and leave no key |
| `Receipts.ModeFailures` | cmd/mock-destination/main.go:167-174 | Then a failing mode answers every request 500 or 400 and leaves no key |
| `Receipts.HealthyServes` | cmd/mock-destination/main.go:176-185 | A healthy server accepts every request, records every key, and calls a request a duplicate exactly if its key was accepted before |
| `Receipts.BodyDecides` | cmd/mock-destination/main.go:80-93 | A refused body is answered 400 and counted as failed; otherwise the key is the trimmed header |
| `Receipts.ReceiptServer.ApplyReceipt` | cmd/mock-destination/main.go:155-185 | The new counters, keys and answer, and that a 200 answer for a key leaves its receipt applied exactly once |
| `Receipts.ReceiptServer.RecordFailure` | cmd/mock-destination/main.go:187-192 | A rejected body is counted as one failed request and nothing else changes |
| `Receipts.ReceiptServer.SetMode` | cmd/mock-destination/main.go:109-132 | A mode change is refused for a negative count or an unsupported mode name, and otherwise changes mode and count alone |
| `Node.OthersRely` | internal/deliveryworker/worker.go:87-99 | Any number of steps of other actors leaves an actor's memory, its open transaction and the row it has locked alone and only grows the stores |
| `Node.Cluster.ProcessStreamMessage` | internal/deliveryworker/worker.go:205-276 | Under interference a message is acknowledged exactly when every effect on its way is confirmed, and then its PROCESSING row, the outcome row that its type, payload, counter and answer call for, and an attempt with the answer's code are committed; the worker keeps no job |
| `Node.Cluster.DeliverAndSettle` | internal/deliveryworker/worker.go:219-276 | From the delivery on, the message is acknowledged exactly when the remaining effects are confirmed, and then the outcome row and the attempt that the answer calls for are committed |
| `Node.Cluster.SettleMessage` | internal/deliveryworker/worker.go:235-276 | By the delivery's result, the message is acknowledged exactly when the remaining effects are confirmed, with the outcome row and the attempt of that result committed during the call |
| `Node.Cluster.HandleDeliveryFailure` | internal/deliveryworker/worker.go:361-420 | A failure is acknowledged exactly when its three effects are confirmed, with a RETRYING row for a temporary failure below the limit and a DEAD_LETTERED row for every other one, and a failed attempt with the failure's code |
| `Node.Cluster.RecordAndAck` | internal/deliveryworker/worker.go:422-436 | The acknowledgement is reported exactly when row and XACK are confirmed; the row is of the job's own kind, and the entry has left the pending list |
| `Node.Cluster.RecordOutcome` | internal/operations/store.go:397-480 | The call succeeds exactly when its commit is confirmed, and unless the commit is lost the outcome row and the attempt that the job's phase calls for are there, after any redrive of the event let go of its lock |
| `Node.Cluster.RecordProcessing` | internal/operations/store.go:384-395 | The call succeeds exactly when its commit is confirmed, and unless it is lost a PROCESSING row for the job's entry is there |
| `Node.Cluster.DeliverMessage` | internal/deliveryworker/worker.go:289-352 | What a delivery ends in, by event type, payload and answer: which codes are temporary or permanent failures, that no answer is temporary, that other types succeed without a request and force.fail never does |
| `Node.Cluster.ProcessBatch` | internal/deliveryworker/worker.go:124-129 | A fetched batch is worked off completely; every entry reported as acknowledged belonged to it and has an outcome row committed meanwhile, and so is every entry whose own effects are confirmed, whatever becomes of the others; all are, in order, if every effect is |
| `Node.Cluster.ProcessNext` | internal/deliveryworker/worker.go:153-160 | The next message leaves the batch; it is reported as acknowledged if every effect is confirmed, not if a record or the XACK fails, and only with an outcome row of its own |
| `Node.Cluster.PublishNextOutboxEvent` | internal/outbox/publisher.go:77-137 | The answer is a database error exactly when the claim fails and empty exactly when no unlocked row is due; otherwise the row due first is taken, and the faults of publish and commit decide the answer and the row: published with a PUBLISHED row at the transaction's start, rescheduled by the capped backoff in microseconds with one attempt more, or unchanged |
| `Node.ClaimableIff` | internal/outbox/publisher.go:42-57 | The rows among which the claim chooses are exactly those that the protocol lets a publisher claim now |
| `Node.Cluster.ClaimNext` | internal/outbox/publisher.go:160-181 | The claim fails exactly when the database does, skips locked rows, takes the row due longest and of those the oldest, and answers empty exactly when there is none |
| `Node.Cluster.MarkPublished` | internal/outbox/publisher.go:122-136 | Unless the commit is lost the claimed row is published and a PUBLISHED row with the transaction's start was committed during the call; success is reported exactly when it is confirmed |
| `Node.Cluster.RescheduleOutbox` | internal/outbox/publisher.go:194-209 | Unless the commit is lost the row has one attempt more and is due min(max, base * 2^attempts) / 1000 microseconds after the transaction's start; otherwise it is unchanged |
| `Node.Cluster.RetryPumpTick` | internal/deliveryworker/worker.go:500-541 | Over one tick exactly the members whose XADD is confirmed count as sent, and they are in the stream |
| `Node.Cluster.RepublishRetryMember` | internal/deliveryworker/worker.go:546-564 | The next due member is taken; it counts as sent exactly if its XADD is confirmed, and only then its ZREM follows |
| `Node.Cluster.RedriveDLQ` | internal/operations/store.go:288-363 | A call waits for a redrive that holds the row; the faults and the record as read decide the answer and the record, unchanged or REDRIVEN with the time of the lock; a completed redrive has a new entry without retries and a REDRIVEN row naming it |
| `Node.Cluster.CommitRedrive` | internal/operations/store.go:338-356 | Unless the commit is lost the record is REDRIVEN and stamped with the start of the transaction; a confirmed one also has its row and its entry |
| `Delivery.ResponseDeliveredIff` | internal/deliveryworker/worker.go:339-352 | Exactly the codes outside 400..599 count as delivered, and a failure keeps its code |
| `Backoff.OutboxBackoff` | internal/outbox/publisher.go:227-246 | The loop computes min(max, base * 2^(attempt-1)) for every attempt without leaving 64 bits |
| `Backoff.CappedMonotone` | internal/outbox/publisher.go:227-246 | The delay never shrinks with the attempt and stays within base..max |
| `Backoff.BackoffDelayExactIff` | internal/deliveryworker/worker.go:594-602 | All delays up to the retry limit follow the capped law exactly when base * 2^(limit-1) is below 2^63 |
| `Backoff.ExactIff` | internal/deliveryworker/worker.go:594-602 | A single delay follows the law exactly when its product is below 2^63 or wraps to a value that the cap cuts off |
| `Backoff.LuckyWrap` | internal/deliveryworker/worker.go:594-602 | A base and a retry for which the product overflows and the delay is right nevertheless |
| `Backoff.NegativeAtFirstOverflow` | internal/deliveryworker/worker.go:594-602 | The first product beyond 63 bits gives a negative delay |
| `Backoff.DefaultBackoffBound` | internal/config/config.go:87-101 | With the default base the law holds for all retries exactly up to a limit of 35 |
| `OutboxRunner.RestsIff` | internal/outbox/publisher.go:66-75 | A failed row is not due again at the same instant, whatever its history, exactly when the base backoff reaches one microsecond |
| `OutboxRunner.RestsAtLastIff` | internal/outbox/publisher.go:194-209 | A row failing again and again at one instant comes to rest after ten failures if the maximum backoff reaches one microsecond, and never otherwise |
| `OutboxRunner.CallPays` | internal/outbox/publisher.go:59-75 | Publishing a due row or recording its failure lowers what the due rows may still cost at this instant by at least one call |
| `OutboxRunner.DebtIsCount` | internal/outbox/runner.go:37-66 | From a base backoff of a microsecond on, due rows cost one call each |
| `OutboxRunner.DebtBounded` | internal/outbox/runner.go:37-66 | Below it, if the maximum reaches a microsecond, they cost at most eleven calls each |
| `OutboxRunner.StepStaysUndue` | internal/outbox/publisher.go:42-75 | Every step of every actor from every reachable state keeps rows that are not due undue at that instant, and makes no row cost more |
| `OutboxRunner.Runner.PublishNext` | internal/outbox/publisher.go:42-75 | The row due first among the unlocked ones is taken, and published or rescheduled; the report is an exact function of the faults and of whether an unlocked row was due; an unclassified error may hide either effect |
| `OutboxRunner.Runner.Run` | internal/outbox/runner.go:37-66 | The runner waits exactly after a call that found nothing or met an error other than a failed publish. At no point have more calls found a row since the last wait than the rows due when it ended or written since allow, whatever other publishers do: one call per row from a base of a microsecond on, at most eleven below it |
| `Ingestion.ExactlyOnce` | internal/ingestion/store.go:62-130 | However calls interleave and fail, all successful ones with one source and non-blank key return the same event with exactly one outbox row, at most one created it, and their hashes agree |
| `Ingestion.TablesUnique` | migrations/003_add_request_hash_and_outbox.sql:16-17 | Never two events for one source and key, nor two outbox rows for one event |
| `Ingestion.ConflictIff` | internal/ingestion/store.go:203-213 | The row found is the only one with the key; the call conflicts exactly when its hash is missing or different, and no table changes |
| `Ingestion.MismatchNeverSucceeds` | internal/ingestion/store.go:158-188 | Over whole runs a call whose key is stored with another or no hash never succeeds and writes no row |
| `Ingestion.Store.PersistEventWithOutbox` | internal/ingestion/store.go:62-130 | A call fails exactly when the payload is rejected or a database call on its way fails; otherwise it creates an event exactly when no committed row had the source and trimmed key at the insert, returns that row's event exactly when the hash matches and conflicts exactly when it does not |
| `Ingestion.Store.ExistingEvent` | internal/ingestion/store.go:158-188 | The one row with the key decides: its event if the hash matches, a conflict otherwise, a failure exactly when lookup or commit fails |
| `Text.TrimSplits` | internal/ingestion/store.go:62-70 | Trimming takes blanks off both ends of a text and nothing else |
| `Idempotency.OneMeaningPerKey` | internal/ingestion/request_hash.go:19-22 | Successful calls under one key had equal event type, source and decoded payload, unless the digest maps the two named canonical byte strings to one value |
| `Idempotency.ConflictIffDifferent` | internal/ingestion/store.go:203-213 | A repeated key conflicts exactly when the stored request differs in event type, source or decoded payload and the digest tells the two apart |
| `RequestHash.DecodeText` | internal/ingestion/request_hash.go:28-34 | Decoding undoes writing for every layout and spelling, surrogate pairs and lone surrogates included, so no payload text has two readings |
| `RequestHash.BlankRejected` | internal/ingestion/request_hash.go:24-26 | A payload that is blank, in the sense of Unicode, is rejected |
| `RequestHash.TrailingRejected` | internal/ingestion/request_hash.go:36-41 | Whatever follows the first value, other than whitespace, is rejected: another value with or without a gap, or no value; only a number must not run on into it |
| `RequestHash.MemberOrderIrrelevant` | internal/ingestion/request_hash.go:19-22 | Objects with the same members in any order decode alike |
| `RequestHash.LastMemberWins` | internal/ingestion/request_hash.go:28-34 | Of several members with one name the last one counts |
| `RequestHash.EscapesMean` | internal/ingestion/request_hash.go:28-34 | Escapes, hex digits of either case and surrogate pairs stand for the characters that RFC 8259 says |
| `RequestHash.EncodeDecodes` | internal/ingestion/request_hash.go:49-52 | The canonical form of a value is a JSON text that decodes to the value |
| `RequestHash.CanonicalLayout` | internal/ingestion/request_hash.go:13-17 | The canonical bytes hold event type, source and payload in this order, without whitespace |
| `RequestHash.CanonicalBytesIff` | internal/ingestion/request_hash.go:43-52 | Canonical bytes are equal exactly when event type, source and decoded payload are |
| `RequestHash.RequestHashIff` | internal/ingestion/request_hash.go:23-56 | Two hashes agree exactly when the digest maps the two canonical byte strings to one value, and these are one exactly when event type, source and decoded payload are |
| `Json.KeyLeMeans` | internal/ingestion/request_hash.go:49-52 | Object keys are written in order of their first difference, a prefix before the longer key |
| `Json.EscapedChars` | internal/ingestion/request_hash.go:49-52 | Control characters, quotes, backslashes, the HTML characters and the two line separators are escaped as encoding/json does, everything else is written as it is |
| `Json.EncodePrefix` | internal/ingestion/request_hash.go:49-52 | An encoded value followed by other text determines both the value and the rest |
| `Json.EncodeInjective` | internal/ingestion/request_hash.go:49-52 | Encodings are equal exactly when the values are, with array order and number spelling significant |
| `RetryMember.MemberTextIff` | internal/deliveryworker/worker.go:473-487 | Two messages have the same retry member text exactly when their value maps are equal |
| `Replay.ReplayPage` | cmd/api/replay_handler.go:42-154 | Told by the request's own texts: unreadable bounds or cursors are refused; else the rows sent are those between the bounds, behind the cursor, of the source and type asked for, in order, none left out before the last, at most the clamped limit; has_more tells exactly whether one is missing, and the page fails exactly when the query, a row, a publish or the reading does |
| `Replay.PublishRows` | cmd/api/replay_handler.go:103-147 | The row loop with its lookahead row publishes exactly the page, and fails exactly when a row is unreadable, a publish within the page is refused or reading breaks off |
| `Replay.PageStep` | cmd/api/replay_handler.go:103-154 | An answered request is one step of following the cursor, whatever the client asks next |
| `Replay.FollowComplete` | cmd/api/replay_handler.go:88-94 | From any cursor, nothing matching and visible behind it is skipped, whatever is inserted or fails meanwhile |
| `Replay.NextCursor` | cmd/api/replay_handler.go:138-141 | The cursor written for a row reads back as that row's timestamp and ID |
| `Replay.NextQuery` | cmd/api/replay_handler.go:88-97 | The query behind the cursor of a page yields exactly the rows after that page |
| `Replay.PagesCoverScan` | cmd/api/replay_handler.go:61-154 | Following the cursor to the end publishes every matching event visible at the start, in order and once in the successful pages, however the table grows and pages fail meanwhile |
| `Replay.PagesRefineScan` | cmd/api/replay_handler.go:61-102 | Over a table at rest the pages together are exactly one full scan, for any limit |
| `Replay.PagesFinishIff` | cmd/api/replay_handler.go:61-67 | Without failures the client is told there is no more exactly when it has asked for enough pages to hold the scan |
| `Timestamps.FormatRoundTrip` | cmd/api/replay_handler.go:138-141 | Parsing the printed cursor timestamp gives back every nanosecond of it, over all four-digit years |
| `Timestamps.CivilRoundTrip` | cmd/api/replay_handler.go:42-60 | A date written with a fraction and any offset reads as the instant it names, over all four-digit years |
| `Timestamps.ZoneMeans` | cmd/api/replay_handler.go:42-60 | Offsets east of UTC count forward and west backward |
| `Timestamps.Calendar` | cmd/api/replay_handler.go:138-141 | Months and leap years have the lengths of the Gregorian calendar, and 1970 begins after 719162 days |
| `Timestamps.YearIsItsMonths` | cmd/api/replay_handler.go:138-141 | The closed day count of the calendar agrees with the lengths of the months in every year |
| `HistoryBound.BoundExplainHistory` | internal/httpapi/event_explain.go:320-348 | The result is an order-preserving selection of min(n, 20) items that keeps the first item and all recovery markers and then the newest others, or exactly the first 20 of those positions if they are more |
| `HistoryBound.BoundedUnique` | internal/httpapi/event_explain.go:320-348 | These demands determine the bounded history |
| `HistoryBound.BoundedFacts` | internal/httpapi/event_explain.go:325-327 | A bounded history has min(n, 20) items, begins with the first one and invents nothing |
| `HistoryBound.MarkersStay` | internal/httpapi/event_explain.go:328-337 | Unless there are more than 20 of them, every dead letter, redrive and delivery stays |
| `Explain.ExplainRequestFromStore` | internal/httpapi/event_explain.go:86-137 | When a snapshot is built and, field by field, what it says about the rows read |
| `Explain.AttemptsExplained` | internal/httpapi/event_explain.go:155-170 | The attempts sent are the last 20 of all attempts of the event, numbered by their place among them in order of their start, with their stored codes and error texts that fit, and explained as a success exactly where the worker recorded one |
| `Explain.ReadAttemptsSorts` | internal/operations/store.go:580-621 | The attempts read for an event are all of its attempts, each once, in order of their start |
| `Explain.RetryCountFromHistory` | internal/httpapi/event_explain.go:229-254 | The largest next_retry of the RETRYING rows, or their number if none is positive |
| `Explain.AsciiCut` | internal/httpapi/event_explain.go:256-284 | Of an ASCII text the cut by bytes keeps exactly the first bytes |
| `Explain.SafeExplainError` | internal/httpapi/event_explain.go:256-284 | An error text is dropped exactly when it is blank or names internals; what is kept fits the receiver's bound although it is cut by bytes, and depends on the text only if that names nothing sensitive |
| `Explain.PersistedIsReady` | internal/httpapi/event_explain.go:103-110 | A stored event is never reported as not ready |
| `Explain.MarkersMeanRecord` | internal/httpapi/event_explain.go:118-122 | An event whose history shows a dead letter or a redrive has a DLQ record by the time the record is read |
| `Explain.SnapshotStructural` | ai-service/src/eventrail_ai/explainer.py:87-106 | Every snapshot read from reachable stores passes the receiver's structural checks although its four reads see four different states, and it says entered_dlq exactly when a DLQ record exists by the last read |
| `Explain.SnapshotAcceptedIff` | ai-service/src/eventrail_ai/explainer.py:62-85 | A snapshot is accepted exactly when event type, source, business type and the response codes of the last 20 attempts are within the receiver's bounds |
| `Explain.LongTypeRefused` | ai-service/src/eventrail_ai/explainer.py:76-76 | A stored event every snapshot of which the receiver refuses |
| `Explain.RetryCountBounded` | internal/httpapi/event_explain.go:229-254 | The reported retry count is the largest next_retry of the RETRYING rows, at most the retry limit, and zero exactly without such rows |
| `Explain.OutcomeFaithful` | internal/httpapi/event_explain.go:190-227 | An attempt is explained as a success exactly when the worker recorded one |
| `Explain.ExplainedByCode` | internal/httpapi/event_explain.go:190-203 | An attempt with a code is explained by it: 2xx as success, 408, 425, 429 and 5xx as temporary, other 4xx as permanent |
| `Explain.ExplainedByWords` | internal/httpapi/event_explain.go:204-227 | A failed attempt without a code is explained by the words of its error, in any case of letters, the first that applies |
| `Explain.SensitivityByWords` | internal/httpapi/event_explain.go:264-276 | Which words make an error text sensitive, and in what way, the first that applies |
| `Explain.LowerMeans` | internal/httpapi/event_explain.go:264-264 | Lower-casing an ASCII text changes exactly the letters A to Z |
| `Explain.NoticeTexts` | internal/httpapi/event_explain.go:265-276 | The texts that stand for a sensitive error |
| `Explain.RedriveCountReal` | internal/httpapi/event_explain.go:118-122 | The redrive count is what the history showed, and never more than had been redriven by the last read |
| `Explain.CurrentIsLatest` | internal/operations/store.go:158-161 | The current status is that of a row after which no other row of the event reads |
| `Explain.HistoryReal` | internal/httpapi/event_explain.go:139-153 | Every history item sent is a committed row of the event with its status and time, and the first is the earliest |
| `Explain.DestinationIff` | internal/httpapi/operational_handlers.go:383-389 | A paid invoice goes to the receipt service, everything else to a webhook destination |

## Left out

- Dashboard, scripts, packaging, HTTP routing, CORS, body decoding, health and version handlers, metrics and the DLQ listing: each would add one-branch members.
- AI providers, prompts, phrase filters, embeddings and retrieval.
- The migration runner and configuration loading.
- Redis and Postgres internals: both appear as the effects that the steps name. A lost lock, a failover that forgets acknowledged writes, or a trimmed stream is outside the model.
- Idle times and due times of Redis: XAUTOCLAIM may claim any pending entry and the pump may fetch any queued member, which allows more schedules than the code does.
- Seconds-only timestamps in message values are decimal counts of seconds rather than RFC 3339 texts, since no consumer reads them.
- Moves of the group cursor beyond the furthest handed entry are not steps; see `JumpSafeIff`.
- A restart of the receiver, which forgets its keys.
- OutboxRunner.Runner.PublishNext: is one step, while other publishers change the table only between calls; that single effects change it in no other way is StepStaysUndue.
- Replay.ReplayPage: IDs are numbers, so an event ID that is no UUID cannot be expressed.
- Timestamps.CivilRoundTrip: one-digit hours and a comma before the fraction, which Go also reads, are refused.
- RequestHash.DecodeText: strings are sequences of Unicode characters, so bytes that are no UTF-8 are not modelled; of several members with one name the last one counts.
- Ingestion.ExactlyOnce: the inserted columns other than source, key and hash are not modelled.
- Explain.ExplainRequestFromStore: timestamps of history items are numbers rather than texts and those of attempts are left out, the start of an attempt is stamped with the database clock, the business event type is what JSON decoding gave, and case folding is that of ASCII.
