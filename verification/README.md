# The money pipeline of the gateway, as a verified model

The gateway sells model calls against prepaid balances. A finished call emits a usage row and a settle task;
the task travels through an enqueuer with a write-ahead file, a broker with TTL retry buckets and a
dead-letter queue, and a worker that charges the customer in one transaction guarded by a unique ledger row.
A Redis gate freezes an estimate before the call, and a periodic job gives leaked reservations back. Crashes,
duplicate deliveries, expiring result records and interleavings may happen at every step, and the system
promises that the customer is charged exactly once and that the balance is the materialised ledger. This
project models that path, proves what it promises, and gives exact conditions where it promises too much.

`dafny verify dfyconfig.toml` checks everything.

## How it is built

Each database transaction and each Redis command or script is one atomic step. Code that changes state step by
step in the repository is a class or a method with loops here, proved equal to a function of the old state; the
lemmas are about those functions, so every one of them covers the step-by-step code too.

| files | what they hold |
|---|---|
| `Sequences`, `Scanner` | sequence facts; Go's line scanner with its buffer limit |
| `Billing`, `Metering` | prices, cost, token estimates, the usage/settle pair |
| `Ledger`, `Outcomes`, `LedgerStore` | the money tables: transactions as functions; when each goes through; the statements that carry them out |
| `Settlement`, `Reconcile` | what a pile of settlements does to a customer; the daily reconciliation |
| `Delivery`, `Engine` | one task delivery with the result cache (L2) in front of the unique row (L3), and faults; the worker's handlers |
| `UsageLog` | the usage rows of a request, which no unique key protects |
| `Wal`, `WalProtocol` | the write-ahead file as bytes and lines; the enqueuer under concurrency and crashes |
| `Broker` | the life of one published message and the consumer's ack, republish and dead-letter rules |
| `Pipeline`, `Safety`, `Calls` | dispatch, file, broker, workers, tables and L2 together; when every call is charged |
| `Gate`, `Reclaim` | the reservation scripts and loop; the batch compensation job |
| `Router`, `Gateway` | the memoised route plan; the chat request with failover and reservation |
| `Sse`, `StreamDecoder`, `StreamWriter` | event parser and printer; the upstream decoder; the response writer that settles |
| `Registry`, `Buckets`, `Topology`, `Routing` | task registry; bucket names; broker declarations; where messages go |

Money is an exact `real`; counters are unbounded except the 32-bit retry header and TTL; strings are byte
strings. JSON is a parameter: for the file it is assumed to round-trip and to contain no line break, for
streams it is any function. What the outside world does (the clock, the broker, the disk, other clients, the
upstream, the client connection) is a parameter of the member it acts on, so every theorem covers every
behaviour of it.

## Results that differ from what the repository says

- A delivery answered by L2 is acknowledged without dropping the balance cache, so a worker that dies between
  its L2 record and the drop leaves a stale reservation hash behind (`Delivery.CacheDroppedIff`,
  `Delivery.StaleCacheSurvives`). A payment confirmation redelivered after its commit behaves the same way
  (`Engine.Handlers.HandleConfirm`).
- `billing_ledger.request_id` holds 64 characters while an idempotency key may be longer, so a costly
  settle task with a longer request id never gets its row (`Delivery.SettledIff`, `Delivery.RowIff`).
- The request id is the client's own `X-Request-ID` (`backend/internal/httpserver/requestid.go:23-36`), and one id is
  charged once. That is the promise for retries (`docs/07-api-sdk.md:461`), but nothing ties the id to the call:
  two calls, even of two customers, under one id are both accepted and only the one that commits first is charged
  (`Calls.SharedIdChargedOnce`), so which payload counts depends on the order (`Settlement.OrderIndependentIff`).
  Every accepted call is charged when each has an id of its own (`Calls.DistinctIdsAllCharged`); as long as no free
  settlement shares its id with a costly call that is the exact condition (`Calls.OwnIdsIff`).
- A settlement that costs nothing is recorded in L2 and leaves no row, so for 24 hours it hides a costly one of the
  same id: that one is acknowledged and nobody is charged (`Calls.FreeCallHidesCostly`, `Delivery.FreeTwinHides`).
  A request ends with its row exactly when some worker that L2 had not answered reaches its transaction with a task of
  it that the tables can charge (`Safety.RowIff`, `Safety.EndToEnd`). Missing the L2 lookup is not enough: the worker
  may die before its transaction and a free settlement go through first (`Calls.MissedLookIsNotEnough`).
- A usage task leaves one row per request exactly when every look into L2 besides that of the delivery that inserted
  comes within 24 hours of a record, or belongs to a delivery that stops before its insert
  (`UsageLog.UsageOnceIff`). A task that comes back after a day, or two overlapping deliveries, leave two rows
  (`UsageLog.ExpiryDoubles`, `UsageLog.OverlapDoubles`).
- One entry of 1 MiB or more makes the write-ahead file unreadable, and then no replay ever drains it
  (`Wal.AppendAddsOne`, `Wal.UnreadableForever`). A line that does not decode is dropped by the next rewrite,
  although the comment at `backend/internal/task/fallback.go:179` keeps it for manual handling
  (`Wal.ReplayLeavesRefused` says what is kept).
- Retry waits add up to 2465 s; the whole window, handler runs included, stays under the 45 minute reclaim
  threshold exactly when a run takes at most 21 s, below the 30 s timeout (`Broker.DefaultWindow`).
- The reclaim job releases an entry as often as it comes to it, although the comment at
  `backend/internal/billing/reserve.go:137` relies on a minimum against repeated releases. A page of SCAN may name a
  key twice, and a delete that is lost is not reported, so the entry is there for the next job: either way the second
  release comes out of the customer's running reservations (`Reclaim.RepeatReleasesTwice`,
  `Reclaim.LostDeleteReleasesTwice`; exactly when not is `Reclaim.ReleasedOnceIff`, `Reclaim.FailedThenCleanIff`).
- A manual adjustment does not advance the optimistic-lock version (`Ledger.Booked`).
- A failed request that carries no request id keeps its reservation: the release is skipped
  (`Gateway.ErrorLeavesFrozen`). This is latent: the only caller of Chat always has an id
  (`backend/internal/httpserver/requestid.go:40-50`).
- A stream whose response writer cannot flush is refused before the settle hook is armed, so it is not metered;
  the hook itself is never nil, whatever its comment says (`StreamWriter.WriteChatStream`).
- A stream can be billed no tokens, or fewer, when the upstream reports a negative count at least as large as the
  positive one (`Metering.StreamIsBilled`, `Metering.NegativeUsageIsFree`), and positive tokens can still cost less
  than nothing, and the worker refuses such a settlement wherever L2 does not answer it (`Metering.StreamCostSign`,
  `Metering.NegativeStreamIsRefused`).
- Multi-line event data loses leading empty lines (`Sse.MultiLineRoundTrip`), and a payload ending in a carriage
  return loses it (`Sse.RoundTrip`).
- Bucket names cut durations to whole seconds from one second up, so 1.5 s takes the name of 1 s and the two
  cannot be declared together (`Buckets.SameNameIff`, `Routing.TopologyStandsIff`). Binding a type to a name
  outside the three queues is accepted and routes it nowhere (`Routing.MainRoutes`), and a refused bind can
  leave the registry's two indexes apart (`Registry.RefusedBindBreaksIff`).

## Model

| member | source | states |
|---|---|---|
| `Safety.EndToEnd` | backend/internal/task/fallback.go:64-161 | For any calls, ids and payloads the clients send: once file and broker are empty, the DLQ included, after any run with crashes, duplicates, expiring L2 records and other writers, the request of an accepted settle or refund that moves money has a row if and only if some worker that L2 had not answered reached its transaction with a task of that request the tables could charge; it is then the one row of the request, for what the first task to get there asked. Otherwise the task is a settlement that L2 hid behind a free one of its id. The tables are what the other transactions and one transaction per request produce |
| `Safety.RowIff` | backend/internal/billing/engine.go:126-280 | The same condition at the end of any run from any state that keeps the invariant and for any request, drained or not: a row if and only if there was one or such a transaction was reached, and without an earlier row the first task to reach it is the one charged |
| `Safety.NeverLostNeverDoubled` | backend/internal/billing/engine.go:126-280 | At every moment of every run an accepted task that moves money has its request's row, or is in the file, or stands in the broker, or was hidden by L2 behind a free settlement of its id; the books hold, so no request has two rows of a kind; every settle and refund row is what some task whose transaction went through asked |
| `Safety.NoTwinsAllCharged` | backend/internal/billing/engine.go:126-219 | When no free settlement shares its id with a costly one, every accepted task that moves money ends with its request's one row, for what the first task to reach its transaction asked |
| `Calls.OwnIdsIff` | backend/internal/httpserver/requestid.go:23-36 | When no free settlement shares its id with a costly call, in a drained system that refused no dispatch each accepted call has a row of its own if and only if no two of them share an id |
| `Calls.CallsChargedIff` | backend/internal/billing/engine.go:126-219 | Without that assumption: if and only if no two of them share an id and, for each, some worker that L2 had not answered reached its transaction with a task the tables could charge |
| `Calls.MissedLookIsNotEnough` | backend/internal/billing/engine.go:126-168 | A full run in which a chargeable task finds no live L2 record and yet leaves no row: its worker dies before the transaction, a free settlement of its id goes through, and L2 answers the redelivery |
| `Calls.DistinctIdsAllCharged` | docs/07-api-sdk.md:461 | With an id of its own for every call, each accepted call that moves money is charged once, for itself |
| `Calls.SharedIdChargedOnce` | backend/internal/httpserver/requestid.go:23-36 | Two costly calls under one id, by any customers, run to the end: both accepted and acknowledged, only the first charged |
| `Calls.FreeCallHidesCostly` | backend/internal/billing/engine.go:126-159 | A free call and then a costly one under its id, run to the end: both accepted and acknowledged, nobody charged |
| `Calls.QuietCall` | backend/internal/task/fallback.go:64-78 | An undisturbed call through dispatch, broker and worker has exactly the effects of one complete delivery and leaves the system quiet |
| `Pipeline.NextKeeps` | backend/internal/task/consumer.go:167-234 | One step of client, replay, broker, worker, L2 clock or another writer keeps the whole invariant: row, message, L2 record and log agree on what has been charged, whatever was sent |
| `Pipeline.RunKeeps` | backend/internal/task/consumer.go:167-234 | The same over any run |
| `WalProtocol.NothingAcceptedIsLost` | backend/internal/task/fallback.go:64-161 | Under any interleaving of dispatches and replays and a crash at any step, accepted tasks, counted per dispatch, are at most those that reached the broker plus those in the file; never two replays at once |
| `WalProtocol.NextKeeps` | backend/internal/task/fallback.go:105-161 | Every single step keeps that, and keeps what a running replay has sent and will write back consistent with the file |
| `WalProtocol.UninterruptedReplay` | backend/internal/task/fallback.go:130-161 | A replay nobody interrupts sends the confirmed entries and leaves the refused ones, exactly as `Wal.Enqueuer.Recover` computes |
| `WalProtocol.UninterruptedDispatch` | backend/internal/task/fallback.go:64-128 | A dispatch nobody interrupts is accepted if and only if the broker confirmed or the file took it, and changes broker, file and replay flag exactly as `Wal.Enqueuer.Dispatch` does |
| `Wal.ReadUndoesWrite` | backend/internal/task/fallback.go:163-228 | Reading a written file gives back the entries if and only if each line is below 1 MiB; otherwise the file cannot be read |
| `Wal.AppendAddsOne` | backend/internal/task/fallback.go:82-103 | Appending a line to a readable file adds exactly that entry at the end, or, if it is too long, makes the file unreadable |
| `Wal.UnreadableForever` | backend/internal/task/fallback.go:130-185 | An unreadable file stays unreadable, and keeps its content, through any appends and replays |
| `Wal.SelectPartitions` | backend/internal/task/fallback.go:142-155 | The entries sent and the entries kept together are all the entries, each once |
| `Wal.ReplayLeavesRefused` | backend/internal/task/fallback.go:130-161 | After a replay the file reads back as exactly the refused entries in their order, and is empty exactly when none was refused |
| `Wal.Enqueuer.AppendWal` | backend/internal/task/fallback.go:82-103 | Append under the lock: the file grows by one whole line, or stays as it was and the call fails |
| `Wal.Enqueuer.Dispatch` | backend/internal/task/fallback.go:64-78 | Succeeds exactly when the broker confirmed or the line was written; the file grows only in the second case |
| `Wal.Enqueuer.ReadWal` | backend/internal/task/fallback.go:163-185 | The entries of the file, blank and undecodable lines skipped, or failure on an over-long line |
| `Wal.Enqueuer.RewriteWal` | backend/internal/task/fallback.go:188-228 | All or nothing: the new content whole, or the old file |
| `Wal.Enqueuer.SendAll` | backend/internal/task/fallback.go:142-155 | Each entry is offered once in order; the refused ones are returned in order |
| `Wal.Enqueuer.Recover` | backend/internal/task/fallback.go:130-161 | One replay on file and broker: nothing happens to an unreadable file; otherwise every entry is sent once and the refused ones remain |
| `Broker.NoLoss` | backend/internal/task/consumer.go:167-234 | Until the handler has succeeded some copy of the message is queued, in flight, in a bucket or dead-lettered, in any run with lost channels and unconfirmed republishes |
| `Broker.RunsBounded` | backend/internal/task/consumer.go:191-234 | The handler runs at most (maxRetry + 1) times (disturbances + 1); undisturbed, at most maxRetry + 1 times |
| `Broker.DeadLetteredLate` | backend/internal/task/consumer.go:191-204 | A parseable task is dead-lettered only after maxRetry + 1 runs and the whole wait of maxRetry retries in the buckets; undisturbed, after exactly that many runs |
| `Broker.RetriesClimb` | backend/internal/task/consumer.go:205-216 | In any run the n-th retry waits in bucket min(n, k) - 1 of the k buckets, having waited before for the TTLs of the buckets its earlier retries sat in |
| `Broker.RetryCountReads` | backend/internal/task/consumer.go:236-252 | The retry header is worth the number it carries cut to 32 bits, so itself when it fits, and nothing otherwise |
| `Broker.NextKeeps` | backend/internal/task/consumer.go:167-234 | Each step keeps the copy, run and wait accounting all of the above rest on |
| `Broker.BudgetStep` | backend/internal/task/consumer.go:191-234 | No step raises runs made plus runs still possible, except that a failed republish or a redelivery may add one round |
| `Broker.CountersAre` | backend/internal/task/consumer.go:167-234 | The runs, disturbances and success a lineage records are those that happened since it was published |
| `Broker.WaitClosedForm` | backend/internal/task/consumer.go:254-262 | The wait of n retries is the sum of the first min(n, k) buckets plus the last bucket for each further retry |
| `Broker.DefaultWindow` | backend/internal/config/config.go:355-371 | At the defaults the waits sum to 2465 s, and with handler runs of `run` seconds the window is below 2700 s exactly when run is at most 21 |
| `Broker.DeliveryOutcome` | backend/internal/task/consumer.go:167-234 | One delivery: the copy is gone exactly when the run succeeded or its retry is confirmed in a bucket, dead exactly when poison or out of retries, otherwise queued again, other copies untouched |
| `Broker.DeliveryIsARun` | backend/internal/task/consumer.go:167-234 | What the worker does is a run of the protocol, so the run theorems cover it |
| `Broker.Worker.HandleDelivery` | backend/internal/task/consumer.go:167-234 | The consumer, step by step: parse, run, acknowledge, bury, or republish then acknowledge, requeueing when the republish fails |
| `Broker.Worker.RetryOrBury` | backend/internal/task/consumer.go:191-233 | After a failed run the original is acknowledged only once its retry is confirmed |
| `Delivery.ExactlyOnce` | backend/internal/billing/engine.go:126-280 | Any sequence of settle and refund deliveries, payloads under one id differing or not, with faults between any two effects and L2 records expiring or cleaned at any time, leaves the tables of the deliveries with duplicates removed, as long as no free settlement shares its id with a costly one |
| `Delivery.FreeTwinHides` | backend/internal/billing/engine.go:126-159 | That assumption is needed: after a free settlement a costly one of its id is acknowledged, and the tables are those of both applied once if and only if 24 hours lie between them |
| `Delivery.RowIff` | backend/internal/billing/engine.go:126-280 | For any deliveries at all a request ends with its row if and only if it had one or some chargeable delivery of it finds no live L2 record and is not stopped before its transaction |
| `Delivery.AnsweredUncharged` | backend/internal/billing/engine.go:126-159 | L2 answers for an uncharged request only after a free settlement of its id |
| `Delivery.FirstPayloadWins` | backend/internal/billing/engine.go:170-219 | Of two costly settlements of one id only the payload that commits first is charged |
| `Delivery.RunRefines` | backend/internal/billing/engine.go:126-280 | The refinement over whole runs: tables, absorption of everything attempted, and L2 records only for tasks that left a row or are free |
| `Delivery.StepRefines` | backend/internal/billing/engine.go:126-280 | One event keeps the refinement |
| `Delivery.SettledIff` | backend/internal/billing/engine.go:126-159 | An uninterrupted fresh settlement writes its row if and only if its payload is complete, its cost positive, the customer has a balance row and the id fits; and is acknowledged in exactly those cases and for a free call |
| `Delivery.AcknowledgedIff` | backend/internal/billing/engine.go:126-279 | An uninterrupted delivery of either kind is acknowledged if and only if the task is complete and either L2 answers, or it moves nothing (a settlement fitting L2), or its customer has a balance row and its id fits, its row being there already or not; unless L2 answered or nothing was to be refunded it leaves a live record and no cached hash, and a task that moves money its row |
| `Delivery.StoppedDelivery` | backend/internal/billing/engine.go:126-279 | Stopped anywhere it is acknowledged only if L2 answered or there was nothing to refund; the tables are those of the whole delivery once its transaction was reached, the record is there once written, and the cache stays |
| `Delivery.NeverStuck` | backend/internal/billing/engine.go:126-279 | Whatever was delivered, duplicated and stopped before, a task that could be acknowledged at the start is acknowledged by its first uninterrupted delivery |
| `Delivery.CacheDroppedIff` | backend/internal/billing/engine.go:126-168 | An acknowledged delivery drops the balance cache if and only if L2 did not answer it |
| `Delivery.AnsweredForADay` | backend/internal/repository/idempotency.go:21-50 | After a delivery that went through L2 answers redeliveries for exactly 24 hours, and a cleanup does not shorten that |
| `Delivery.StaleCacheSurvives` | backend/internal/billing/engine.go:126-168 | A worker lost between L2 and the drop leaves the cache in place although the redelivery is acknowledged |
| `Engine.Handlers.HandleSettle` | backend/internal/billing/engine.go:126-168 | The handler on tables, L2 and cache equals one `Deliver` of the recomputed charge, at every stopping point |
| `Engine.Handlers.HandleRefund` | backend/internal/billing/engine.go:235-280 | The same for refunds, zero refunds included |
| `Engine.Handlers.HandleUsageWrite` | backend/internal/billing/engine.go:76-122 | Inserts one usage row unless L2 answers, then records it; nothing else changes |
| `Engine.UsageWrittenIff` | backend/internal/billing/engine.go:76-122 | A usage delivery writes its row if and only if the payload is complete, its id fits, L2 does not answer and it reaches the insert; the record follows unless it stops in between, and it is acknowledged when L2 answered or nothing stopped it |
| `UsageLog.UsageRows` | backend/internal/billing/engine.go:76-122 | However deliveries overlap, stop, repeat and outlive the record, a request has one usage row for each delivery that looks with no record less than 24 hours old and gets as far as its insert |
| `UsageLog.UsageOnceIff` | backend/internal/billing/engine.go:76-122 | One row if and only if every look besides that of the delivery that inserted falls within 24 hours of a record or belongs to a delivery that stops before its insert |
| `UsageLog.UsageOnceUninterrupted` | backend/internal/billing/engine.go:76-122 | When no delivery stops in between: one row if and only if no look but the first precedes the first record and every later one falls within 24 hours of a record |
| `UsageLog.AnswersIff` | backend/internal/repository/idempotency.go:21-50 | L2 answers exactly within 24 hours of the last record, cleaned up in between or not |
| `UsageLog.ExpiryDoubles` | backend/internal/billing/engine.go:76-122 | A complete delivery and the same task again leave one row within 24 hours and two after |
| `UsageLog.OverlapDoubles` | backend/internal/billing/engine.go:76-122 | Two deliveries that both look before either records leave two rows |
| `UsageLog.HandlerIsARun` | backend/internal/billing/engine.go:76-122 | One call of the handler, stopped anywhere, is a run of those events |
| `Engine.Handlers.HandleConfirm` | backend/internal/payment/confirm.go:66-95 | Tables, L2 and cache after a confirmation: only the delivery that credits records and drops the cache |
| `Ledger.LedgerMaterialised` | backend/internal/billing/engine.go:170-280 | Over any run of settle, refund, recharge and adjust transactions: every balance is non-negative and the sum of its rows, consumed and recharged are the signed sums by kind, every row snapshots the running sum, settle and refund ids are unique |
| `Ledger.ExecKeepsBooks` | backend/internal/billing/engine.go:170-280 | Each single transaction keeps the books |
| `Ledger.BalanceAfterChain` | backend/internal/billing/engine.go:198-204 | A row's balance_after is that of the user's previous row plus its own amount |
| `Ledger.SettleSplitsCost` | backend/internal/billing/engine.go:174-206 | A committed settlement splits its cost into what was taken and what is owing, and owes only when the balance is exhausted |
| `Outcomes.ConfirmIff` | backend/internal/repository/payment_confirm.go:36-91 | A confirmation credits if and only if both numbers are given, the order exists, is pending and has no trade number, the trade number fits and is on no other order, and the credit leaves no debt, with or without a balance row; it repeats an earlier one if and only if the order was paid with this number; any other is refused |
| `Outcomes.ConfirmCreditsOrder` | backend/internal/repository/payment_confirm.go:63-90 | The credit: the order paid with this number, its customer richer by its amount and with a balance row from then on, nobody else touched |
| `Outcomes.ConfirmedForGood` | backend/internal/repository/payment_confirm.go:36-61 | After it, whatever else happens, the same confirmation succeeds without effect, and any other of the order or of the trade number is refused |
| `Outcomes.SettleIff` | backend/internal/billing/engine.go:174-219 | A settlement succeeds if and only if it costs nothing, or its customer has a balance row and its id fits, its row being there already or not; it writes one if and only if it costs something and none is there |
| `Outcomes.RefundIff` | backend/internal/billing/engine.go:241-279 | A refund succeeds if and only if its customer has a balance row and its id fits, its row being there already or not, and credits exactly its amount if and only if none is |
| `Outcomes.AdjustIff` | backend/internal/repository/admin.go:167-199 | A manual adjustment goes through if and only if it moves something, the customer has a balance row and no debt is left, and moves the balance alone |
| `Outcomes.CreatedIff` | backend/internal/repository/payment_confirm.go:63-67 | A balance row is created if and only if there is none, an order if and only if its number and key are new, and it then awaits any payment with a free trade number |
| `Ledger.CommitMovesOneUser` | backend/internal/billing/engine.go:170-280 | A committed transaction writes one row for its own customer and moves that balance by it: refunds and adjustments by the amount asked, confirmations by the order's amount; no other account or order changes |
| `Ledger.UnappliedChangesNothing` | backend/internal/billing/engine.go:207-219 | A failed or duplicate transaction leaves every table as it was; no transaction removes a row or an account |
| `Ledger.PaymentsCreditOnce` | backend/internal/repository/payment_confirm.go:33-91 | Over any run of duplicate, conflicting and interleaved confirmations: a paid order has exactly one recharge row for its amount, a pending one none; no trade number pays two orders; total_recharged is the sum of what the user's orders were credited |
| `Ledger.ConfirmKeepsOrders` | backend/internal/repository/payment_confirm.go:37-89 | The crediting transaction itself keeps that |
| `LedgerStore.Store.InsertRow` | backend/internal/model/billing_ledger.go:22 | An insert under the column width and both partial unique indexes |
| `LedgerStore.Store.ApplySettleTx` | backend/internal/billing/engine.go:170-219 | Conditional full charge, else clear and book the overdraft, rollback on a duplicate: equals the settle transaction |
| `LedgerStore.Store.ApplyRefundTx` | backend/internal/billing/engine.go:252-273 | Equals the refund transaction, duplicates rolled back |
| `LedgerStore.Store.ManualBalanceAdjust` | backend/internal/repository/admin.go:167-199 | Equals the adjust transaction: never below zero, version untouched |
| `LedgerStore.Store.ConfirmPayment` | backend/internal/repository/payment_confirm.go:33-91 | Compare-and-set, lazy balance row, credit and ledger row: equals the confirm transaction |
| `Settlement.SettlementTotals` | backend/internal/billing/engine.go:174-206 | For any list of settlements at all, with duplicates, unknown customers, over-long ids and payloads that disagree under one id: balance max(0, b - S), consumed plus min(b, S), overdraft plus max(0, S - b), S adding up the first payable payload of each request |
| `Settlement.OrderIndependentIff` | backend/internal/billing/engine.go:174-206 | The delivery order, and how often each settlement arrives, leaves every customer alike if and only if the payable payloads of each request agree |
| `Billing.CostSign` | backend/internal/billing/types.go:77-93 | Honest prices and counts never cost less than nothing, and a priced input token always costs something |
| `Gate.GateConserves` | backend/internal/billing/reserve.go:43-67 | For every interleaving of reserve, load, reclaim and delete: a present hash splits the loaded balance into non-negative available and frozen, and frozen is granted minus released since that load |
| `Gate.NeverOversold` | backend/internal/billing/reserve.go:43-67 | Between two loads never more is frozen than the balance loaded |
| `Gate.ReserveOutcome` | backend/internal/billing/reserve.go:78-105 | Every outcome of Reserve; it grants if and only if the amount fits the hash it decided on, within two script runs, and fails by racing only after somebody deleted the loaded hash |
| `Gate.QuietReserve` | backend/internal/billing/reserve.go:78-105 | With nobody else around it grants if and only if the amount fits the cached or the database balance |
| `Gate.ReserveGate.Reserve` | backend/internal/billing/reserve.go:78-105 | The loop with its reloads equals the two-try specification; the audit entry is written only on success |
| `Reclaim.ReclaimIsCareful` | backend/internal/billing/reserve.go:138-218 | For any keys, paging and failures: young, malformed and foreign entries stay; only users with a due entry whose request has no row are touched; no hash gains total |
| `Reclaim.FailedPageIsInert` | backend/internal/billing/reserve.go:157-202 | A page whose MGET or ledger lookup failed changes nothing |
| `Reclaim.JobAccounts` | backend/internal/billing/reserve.go:138-218 | Any job, with any paging and failures: per user max(0, frozen minus what it dealt with) frozen and the rest available, an amount counting once for every time the job dealt with its entry; it reports how often it did, and one error per failed SCAN, MGET, lookup and candidate |
| `Reclaim.EntryLeavesIff` | backend/internal/billing/reserve.go:161-211 | An entry leaves if and only if some page scanned before the first failed SCAN names it when it is due, could be read and judged, its request has a row or its customer no hash or its script answered an amount, and its delete was not lost |
| `Reclaim.FailedScriptIsInert` | backend/internal/billing/reserve.go:204-207 | A candidate whose script fails keeps its entry and its hash and counts as one error |
| `Reclaim.FailedThenCleanIff` | backend/internal/billing/reserve.go:138-218 | A job that fails in any way and an error-free one over the whole keyspace after it leave no due entry, and the frozen part of dealing with each once if and only if no entry dealt with twice asks for anything or the amounts exhaust it |
| `Reclaim.FailuresDoNoHarm` | backend/internal/billing/reserve.go:138-218 | With no key repeated on a page and no delete lost, they end exactly as an error-free job does alone |
| `Reclaim.LostDeleteReleasesTwice` | backend/internal/billing/reserve.go:208-210 | When the delete of a released entry is lost, which is not reported, the next job releases its amount again |
| `Reclaim.CleanJob` | backend/internal/billing/reserve.go:138-218 | An error-free job, keys repeated within a page included, deals with exactly the due entries on its pages, and they are gone |
| `Reclaim.ReleasedOnceIff` | backend/internal/billing/reserve.go:138-218 | Any job takes each amount it dealt with once if and only if no entry it dealt with twice asks for anything, or the amounts exhaust the frozen part anyway |
| `Reclaim.RepeatReleasesTwice` | backend/internal/billing/reserve.go:144-211 | A page that names a key twice releases its amount twice, at the expense of the reservations still running |
| `Reclaim.ReclaimConverges` | backend/internal/billing/reserve.go:138-218 | Two error-free jobs with one deadline over the whole keyspace end alike, however it is paged, as long as no page repeats a key |
| `Reclaim.FurtherJobIdle` | backend/internal/billing/reserve.go:138-218 | After an error-free job over the whole keyspace, repeated keys or not, a further job with the same or an earlier deadline changes nothing, even if it fails |
| `Reclaim.Job.Reclaim` | backend/internal/billing/reserve.go:138-218 | The cursor loop equals the page-by-page specification, its counters included |
| `Reclaim.Job.PickCandidates` | backend/internal/billing/reserve.go:161-181 | The well-formed entries of a page that have reached the threshold, in order |
| `Reclaim.Job.OnePage` | backend/internal/billing/reserve.go:155-211 | One page: lookup once, then release and delete candidate by candidate |
| `Router.Plan` | backend/internal/router/router.go:68-106 | The memoised loop equals the plain nested expansion with a fresh lookup each time, and asks once for each distinct alias when a channel is usable, otherwise never |
| `Router.PlanFailsIff` | backend/internal/router/router.go:85-104 | The plan fails if and only if a channel is usable and some model's mappings cannot be read |
| `Router.PlanNeverRepeats` | backend/internal/router/router.go:91-105 | On a duplicate-free chain no (model, channel) pair is planned twice, and every planned channel is visible and usable now |
| `Router.PlanInOrder` | backend/internal/router/router.go:68-105 | The plan, entry by entry: every model of the chain with every usable channel, in chain order and then in channel order, none left out and none twice, each under the name its channel maps it to |
| `Router.ResolvePrecedence` | backend/internal/router/router.go:110-122 | A channel's own first mapping wins over the first general one; without either the alias passes through |
| `Router.UsableStretch` | backend/internal/router/router.go:126-149 | A channel is usable over one stretch of time: from the instant its last hold ends up to and including its expiry, and never unless active, schedulable and closed |
| `Router.FallbackChain` | backend/internal/gateway/gateway.go:248-264 | Requested model first, then group, then model fallbacks, each name once at its first position |
| `Gateway.AllowedModel` | backend/internal/gateway/gateway.go:103-121 | A key whitelist replaces the group list; empty lists restrict nothing |
| `Gateway.Admit` | backend/internal/gateway/gateway.go:126-169 | The refusal is that of the first failing check, and money is touched by at most one call |
| `Gateway.RefusedAs` | backend/internal/gateway/gateway.go:125-148 | Who is turned away and as what, each check after the ones before it, and nobody else is |
| `Gateway.RefusedForMoney` | backend/internal/gateway/gateway.go:149-173 | A request past those checks is refused for an empty balance or a reservation that does not fit, or because money could not be looked up, in exactly these cases |
| `Gateway.OpensWith` | backend/internal/gateway/gateway.go:149-173 | The one money call before planning: a balance read for a stream or without a gate, otherwise a reservation of what the estimated tokens cost, if anything |
| `Gateway.Failover` | backend/internal/gateway/gateway.go:189-216 | Tries a prefix of the plan and ends with the first success; earlier failures were retryable unless streaming; stops at a cancellation or a final failure and reports the right error |
| `Gateway.PlannedInOrder` | backend/internal/gateway/gateway.go:178-188 | The candidates of a request, entry by entry: the requested model, the fallbacks of the group, those of the model, each name once, each with every usable channel in order |
| `Gateway.TriedIff` | backend/internal/gateway/gateway.go:191-219 | A candidate is tried if and only if the client is still there and no earlier one succeeded or, for a plain request, failed for good |
| `Gateway.StoppedDetermines` | backend/internal/gateway/gateway.go:189-218 | That contract leaves no freedom: attempts and reply follow from the plan and the outcomes |
| `Gateway.Chat` | backend/internal/gateway/gateway.go:125-219 | A request is forwarded only if its caller is entitled; every error exit after a reservation releases once, a non-streaming success releases nothing and emits one pair, a streaming request never reserves |
| `Gateway.ErrorLeavesFrozen` | backend/internal/gateway/gateway.go:170-218 | A failed request leaves nothing frozen if and only if it carries an id or reserved nothing |
| `Gateway.ServedIsMetered` | backend/internal/gateway/billing_metrics.go:97-150 | A served request is metered if and only if there is a producer and it carries an id: one usage row and one settlement, both with the counts the upstream reported for the attempt that succeeded, the settlement charging what they cost at the prices of the model, the rate of the group and the rate of the channel that served, a zero product counting as one |
| `Gateway.FinalError` | backend/internal/gateway/gateway.go:389-405 | The client sees an API error or its own cancellation, an upstream error keeping status and code |
| `Metering.EstimateTokens` | backend/internal/gateway/billing_metrics.go:39-57 | The byte-counting loops compute the specified estimate |
| `Metering.EstimateIs` | backend/internal/gateway/billing_metrics.go:39-57 | The prompt counted is the system prompt and every text part, nothing else; the answer is what the request allows or 2048, and nothing is expected from a cache |
| `Metering.EstimateCovers` | backend/internal/gateway/billing_metrics.go:39-57 | The estimate never undercounts at four bytes a token and is at most one token over, two for an empty prompt; adding messages lowers it if and only if they turn an empty prompt into one of one to three bytes |
| `Metering.ThousandTokensCost` | backend/internal/gateway/billing_metrics.go:23-36 | A thousand more tokens of a class cost that class's price at the combined rate, a zero rate counting as one; a call fee adds the per-request price; no tokens cost nothing |
| `Metering.ResolveStreamTokens` | backend/internal/gateway/billing_metrics.go:72-86 | Upstream counts when it reported any, otherwise estimates from prompt and delivered text |
| `Metering.StreamIsBilled` | backend/internal/gateway/billing_metrics.go:72-86 | Billed tokens are positive if and only if the upstream did not cancel a positive count by a negative one; they are its counts when it reported any, and otherwise what four bytes a token make of the prompt and of the text delivered, zero only for an empty answer |
| `Metering.NegativeUsageIsFree` | backend/internal/gateway/billing_metrics.go:73-79 | A report of 5 and -7 tokens bills nothing |
| `Metering.StreamCostSign` | backend/internal/billing/types.go:77-93 | A stream costs less than nothing if and only if its counts weighted by their prices are negative, so never for counts reported honestly |
| `Metering.NegativeStreamIsRefused` | backend/internal/billing/engine.go:141-144 | 5 input and -3 dearer output tokens are billed as two tokens at less than nothing, and the settlement is refused wherever L2 does not answer it |
| `Metering.EstimateIsPositiveIff` | backend/internal/gateway/gateway.go:158-168 | A reservation is due exactly when the model has an input or an output price |
| `Metering.EmitMetering` | backend/internal/gateway/billing_metrics.go:101-141 | Both sends carry the request, customer, tokens and price snapshot they were called with, and the usage row its stream flag, status and code; its cost is the amount the worker will charge |
| `Metering.SettleStream` | backend/internal/gateway/billing_metrics.go:90-95 | A stream's hook emits the same pair from what the stream left behind |
| `Reconcile.ReconcileExact` | backend/internal/repository/reconcile.go:23-55 | The difference of any window is its overdrafts, plus usage not settled in it, minus settlements without usage in it |
| `Reconcile.DayReport` | backend/internal/repository/reconcile.go:23-55 | Counts and sums over exactly the usage rows and the settle rows stamped inside the day, the latter without their sign, and the first sum less the second |
| `Reconcile.PipelineReconciles` | backend/internal/gateway/billing_metrics.go:101-141 | For calls with prices, rates and counts that are not negative and an id each, after any run of the pipeline over their settle tasks: a window in which both sides of each request landed once differs by the overdrafts alone, zero if and only if nothing was overdrawn |
| `Reconcile.ReconciliationIdentity` | backend/internal/repository/reconcile.go:23-55 | For the ledger of any transactions that charge what the usage rows say and nothing negative, when both sides of each request landed in the window once: the difference is the overdraft total, never negative, zero if and only if nothing was overdrawn |
| `Reconcile.WindowExactly` | backend/internal/repository/reconcile.go:30-34 | A window holds exactly the rows stamped from its first instant up to before its last, in table order |
| `Reconcile.SettleExactly` | backend/internal/repository/reconcile.go:40-44 | Of those the settle rows, in order |
| `Reconcile.WindowOfRun` | backend/internal/billing/engine.go:198-206 | Any window of any run settles each request once with honest signs, each row standing for a settle task |
| `Sse.ParseSSE` | backend/internal/pkg/adapter/provider.go:132-180 | The line loop computes the specified events |
| `Sse.RoundTrip` | backend/internal/httpserver/v1.go:158-165 | Parsing printed newline-free payloads gives them back in order if and only if every frame fits the buffer and none ends in a carriage return |
| `Sse.MultiLineRoundTrip` | backend/internal/pkg/adapter/provider.go:164-169 | Multi-line data comes back whole if and only if it has one line or its first line is not empty |
| `Sse.BlockThenRest` | backend/internal/pkg/adapter/provider.go:140-171 | A block of lines ended by a blank one contributes its last event name and its joined values, leading empty ones dropped, and leaves no trace |
| `Sse.BlockAtEnd` | backend/internal/pkg/adapter/provider.go:172-177 | The last block is delivered at end of input, and replaced by an error event when a line was too long |
| `Sse.SilentLines` | backend/internal/pkg/adapter/provider.go:152-171 | Comments and lines without a colon say nothing; a field says something if and only if its name, spaces aside, is event or data |
| `Sse.FieldCarries` | backend/internal/pkg/adapter/provider.go:152-171 | A field named event or data, spaces aside, carries the rest of its line, one space after the colon dropped |
| `Sse.TrimSpaceIs` | backend/internal/pkg/adapter/provider.go:152-163 | Trimming takes the spaces off both ends and no more |
| `StreamDecoder.ParseStream` | backend/internal/pkg/adapter/openai/provider.go:310-377 | The select loop computes the specified stream |
| `StreamDecoder.DecodeWellFormed` | backend/internal/pkg/adapter/openai/provider.go:316-375 | For any input and cancellation: non-empty texts, then exactly one of usage and done, or error |
| `StreamDecoder.DoneIffMarkerRead` | backend/internal/pkg/adapter/openai/provider.go:336-347 | Done is emitted if and only if [DONE] is reached with no cancellation, parse failure, bad chunk or upstream error before it |
| `StreamDecoder.GoesOnIff` | backend/internal/pkg/adapter/openai/provider.go:316-356 | A turn goes on if and only if it is not cancelled and brings a blank event or a chunk that decodes and carries no error |
| `StreamDecoder.FailsWith` | backend/internal/pkg/adapter/openai/provider.go:316-356 | How a stream fails otherwise: cancellation first, then a closed channel, a parser failure, an undecodable chunk, or the error a chunk carries, as a server error of the upstream and with nothing else of that chunk |
| `StreamDecoder.TextConserved` | backend/internal/pkg/adapter/openai/provider.go:357-363 | The answer and reasoning text of the stream are those of the chunks read, nothing lost, invented or reordered |
| `StreamDecoder.DeltasInOrder` | backend/internal/pkg/adapter/openai/provider.go:357-363 | Texts are passed on chunk by chunk and choice by choice, answer before reasoning, empty ones left out and nothing else |
| `StreamDecoder.LastUsageIs` | backend/internal/pkg/adapter/openai/provider.go:368-372 | The counts reported at the end are the last ones the chunks carried, or zero |
| `StreamDecoder.LastFinishIs` | backend/internal/pkg/adapter/openai/provider.go:341-366 | The finish reason of a completed stream is the last one named |
| `StreamDecoder.FinishRelayed` | backend/internal/httpserver/v1.go:213-216 | A completed stream ends with the finish reason the client is told |
| `StreamDecoder.ToldIs` | backend/internal/pkg/adapter/openai/provider.go:260-273 | The client is told the upstream's last reason word for word if and only if it is one of the four known ones, otherwise stop |
| `StreamWriter.WriteEvents` | backend/internal/httpserver/v1.go:166-227 | The event loop: payloads written, text counted, status and code, for any events and any failing write |
| `StreamWriter.WriteChatStream` | backend/internal/httpserver/v1.go:139-227 | The settle hook is called exactly once however the stream ends, and not at all without a flusher or a hook |
| `StreamWriter.EndsAt` | backend/internal/httpserver/v1.go:188-220 | A stream that stops at an event is metered with everything up to it: 200 at the end marker or a lost client, the error's status at an error |
| `StreamWriter.EndsClosed` | backend/internal/httpserver/v1.go:223-226 | A channel closed without an end marker is metered as 502, and the client gets one |
| `StreamWriter.DecodedIsMetered` | backend/internal/httpserver/v1.go:185-227 | On a reliable connection a decoded stream is metered 200 if and only if the upstream completed it, with its final counts and every byte of text |
| `StreamWriter.DecodedIsWritten` | backend/internal/httpserver/v1.go:158-227 | On a reliable connection the client gets a chunk for every text of a decoded stream, in order, and a closing chunk and end marker if and only if the upstream completed it |
| `StreamWriter.FailureStatusIs` | backend/internal/httpserver/v1.go:208-215 | Any failure is metered as 502, except that an upstream error keeps a status of 400 or more and its code |
| `StreamWriter.ClientReadsPayloads` | backend/internal/httpserver/v1.go:158-165 | A client with this parser reads exactly the payloads written |
| `StreamWriter.ServeStream` | backend/internal/gateway/billing_metrics.go:88-95 | From upstream bytes to tasks: two sends or none, and billed tokens positive unless the upstream cancelled its own counts |
| `Registry.Registry.Bind` | backend/internal/task/task.go:90-111 | A bind without conflict extends both indexes and keeps them inverse; a conflict leaves the types before it in the first index only |
| `Registry.BindingsRecorded` | backend/internal/task/task.go:90-147 | A run of binds goes through if and only if no type is named for two queues; then both indexes list exactly what was bound, duplicate-free and inverse |
| `Registry.RefusedBindBreaksIff` | backend/internal/task/task.go:93-98 | A refused bind leaves the indexes inverse if and only if it had added no new type |
| `Registry.Registry.Types` | backend/internal/task/task.go:120-124 | Each type bound to the queue, once |
| `Registry.Registry.Validate` | backend/internal/task/task.go:54-70 | Accepts if and only if type and queue are named, the timeout is positive and the type is not bound to another queue |
| `Buckets.SameNameIff` | backend/internal/task/topology.go:124-140 | Two durations share a name if and only if they agree cut to whole seconds, or whole milliseconds below one second |
| `Buckets.NameReads` | backend/internal/task/topology.go:124-140 | A name is a number and a unit that multiply to the duration cut to its precision: milliseconds below a second, then the longest of hours, minutes and seconds that divides it |
| `Buckets.ExactNamesDiffer` | backend/internal/task/topology.go:124-140 | Names are injective on whole seconds and, below one second, whole milliseconds |
| `Buckets.HalfSecondsCollide` | backend/internal/task/topology.go:131-139 | 1.5 s and 1 s share a name and differ in TTL |
| `Buckets.ParseUndoesFormat` | backend/internal/task/topology.go:129-138 | The decimal rendering of a number determines it |
| `Buckets.DelayMS` | backend/internal/task/topology.go:37-46 | Whole milliseconds of the duration, at least 1 and clamped to 32 bits |
| `Topology.Channel.EnsureTopology` | backend/internal/task/topology.go:51-97 | Declares the whole plan in order, up to the first refused declaration |
| `Topology.Channel.DeclareTTLBuckets` | backend/internal/task/topology.go:102-121 | One fanout exchange, one TTL queue and one binding per bucket, up to the first refusal |
| `Topology.DeclaredIff` | backend/internal/task/topology.go:48-50 | On a blank broker declarations go through if and only if no two disagree, and then the broker holds exactly them |
| `Routing.TopologyStandsIff` | backend/internal/task/topology.go:51-121 | The topology stands if and only if the main exchange is not named like a fanout one and no two buckets of a list share a name with different TTLs |
| `Routing.MainRoutes` | backend/internal/task/topology.go:73-87 | Published to the main exchange a type reaches the queue it is bound to and no other, and none if unbound |
| `Routing.RetryRoutes` | backend/internal/task/topology.go:102-121 | A retry bucket receives any key, holds it for its TTL and returns it to the main exchange |
| `Routing.DelayRoutes` | backend/internal/task/topology.go:102-121 | The same for delay buckets |
| `Routing.RejectedIsKept` | backend/internal/task/topology.go:62-81 | What a business queue rejects is kept in the dead-letter queue and nowhere else |
| `Routing.RetriedTaskReturns` | backend/internal/task/topology.go:89-101 | A validated task republished to any retry bucket comes back to the queue it was accepted for and to no other |
| `Routing.DefaultsAreSound` | backend/internal/config/config.go:370-371 | The default buckets and exchange satisfy the condition |

## Left out

- Isolation below the transaction: transactions are serialised. The overdraft branch of the settlement (`backend/internal/billing/engine.go:192-206`) reads the balance and later clears it without a row lock, so a writer committing in between would break the ledger invariant.
- Rounding: amounts are exact, so the numeric(20,10) columns and the Lua doubles of the reservation scripts are not modelled.
- Torn writes: an append to the file is all or nothing; a partial last line would swallow the next append. In the concurrent model a failed append may still have been written, and a failed publish may still have reached the broker.
- The file's encoding: every entry is assumed to decode to itself and to hold no line break; undecodable lines are skipped on reading and so dropped by a rewrite, as in the code.
- Pipeline: messages carry the charge of their settle payload; `Engine.Charge` says how it is recomputed from prices and counts. A worker's acknowledgement may settle any fetched copy of its message, which allows more runs than the code.
- Engine.Handlers: the balance cache stands for the reservation hash; the audit entry that a settlement also deletes is modelled by `Gate.ReserveGate.Reset`, not in the handlers. An engine without a cache and decoding of payloads are left out.
- Broker.Worker.HandleDelivery: one message at a time; prefetch, concurrency and the handler's timeout are not modelled. Task.MaxRetry, which the consumer ignores, is not a field here.
- Reclaim.ReclaimIsCareful: one job in isolation; the scripts it runs are interleaved with other commands in `Gate.GateConserves`.
- Reserve's guarantee across deletes: another request's Reset discards a user's frozen amount, so outstanding reservations may exceed the balance across loads; only what holds between two loads is stated.
- Gateway.Chat: one reply per candidate stands for encoding, transport, decoding and error classification of that attempt; the upstream protocol, credentials and the Anthropic decoder are not part of this model.
- Sse.ParseSSE: space trimming knows the ASCII spaces only; read errors other than an over-long line are left out.
- StreamDecoder.ParseStream: the channel is consumed to its end, so a reader that stops early and leaves the decoder blocked is not modelled; which of two ready channels is picked is the parameter `cancelAt`. Tool-call deltas in chunks, which the decoder ignores, are not fields here.
- StreamWriter.WriteChatStream: the writes' bytes are the frames; flushing, headers and a panic in the writer are left out.
- Reconcile: the window is given by two instants; the calendar that computes them is left out.
- ApplyBalanceDelta (`backend/internal/repository/balance.go:50-61`): no production code calls it and it writes no ledger row.
- Orders beyond pending and paid: closing, refunding and expiring orders have no code here; subscriptions, sessions, configuration, admin and portal pages, migrations and the frontend are plumbing.
