# A verified model of the ledger

This project models the core of a double-entry ledger service in Dafny and proves what it
guarantees. The service creates transactions over PostgreSQL, Redis and RabbitMQ:
`CreateTransaction` takes a Redis lock, looks for a cached response, inserts a transaction with
its postings and an outbox row in one database transaction, commits, caches the response and
lets the lock go. Outbox workers publish the committed events. A Redis script limits the rate of
requests, and two list endpoints page through tables that keep growing.

## How it is modelled

**The protocol is a labelled transition system** (`Protocol.dfy`). Its state holds the tables,
the database transactions in flight, the lock map and the response cache with their expiry
times, the outbox with its workers and the broker's log, and a clock. Any number of calls each
hold a program counter; a label says who moves and how the step turned out. Every statement may
be rejected, or take effect and lose its reply; COMMIT may be sent and its answer lost; the
server may abort a transaction unasked; a caller may crash anywhere; Redis may refuse, lose a
lock, lose an entry or answer wrongly with a miss. A run is a sequence of labels, and the main
results hold for every run from an empty system.

**The database** (`Database.dfy`) keeps rows in a heap from the moment they are inserted and makes
them visible at commit. The unique index on tenant and idempotency key, the CHECK and foreign-key
constraints, the deferred balance trigger and the exact sums of the balance query are modelled as
the migrations and queries state them. `postings` and `transactions` have no update or delete, as
the immutability triggers forbid both.

**What the source does in place is imperative here.** `LedgerServices.LedgerService.CreateTransaction`
runs the call statement by statement while a script decides what everybody else does in between
and how each statement fares; it is proved to be a run of the protocol. `OutboxWorkers.OutboxWorker`
does the same for the polling loop, `RateLimiters.RateLimiter` for the Lua script, and the two
validators, the pending-events query and the list handlers are methods with loops. The worker system
is a system of its own, and `OutboxRefinement` shows that the ledger beside it changes nothing about it.

Every lemma carries `{:induction false}`, so each induction is spelled out where it is used.

Identifiers stand for UUIDs and sequence values that are never reused: a transaction id must be
new, a posting's and an outbox row's id is its position in its append-only table. Metadata is an
opaque string. Times are integers.

## Where the code differs from what is said about it

The code is followed in each case.

- No publisher confirm is enabled: a nil from `PublishWithContext` is the worker's only success
  signal (internal/service/outbox.go:152), so the results speak of that nil, not of delivery.
- The back-off is computed and logged, and delays nothing (internal/service/outbox.go:193).
- `ErrIdempotencyKeyConflict` is declared and handled but never returned. A repeated key whose
  cached response is gone fails at the insert (internal/service/ledger.go:401-403), and
  `Duplicates.MissedDuplicateFails` shows that such a call can never succeed.
- A replay ignores the new request's body (internal/service/ledger.go:350-359).
- When the read of the postings after commit fails, a response without postings is returned and
  cached (internal/service/ledger.go:467-492).
- db/migrations/000002_add_outbox.up.sql:55-58 says that a published row stays as it is. The
  dead-letter update has no status guard (internal/db/queries.sql.go:762-766), and a second worker
  with an old snapshot can turn a published row into a failed one. It stays as it is exactly when
  one worker serves the table: `OutboxSingle.TerminalIsFinalIff`.
- The polling query orders by `created_at` alone. Rows that tie can take turns at the head of the
  table, and then a row can wait longer than maxRetries * (r / batchSize + 1) polls:
  `OutboxTies.SharpBoundIff` gives the exact condition, and `OutboxDrain.DrainBound` a bound that
  holds always and that `OutboxTies.DrainBoundAttained` shows to be exact.
- PEXPIRE takes whole milliseconds, so a window with a fraction of one lets the key go early;
  `RateLimit.AgreementIff` gives the exact condition under which the script counts right.
- Stamps come from the application's clock, and a late one can push a full window over the limit;
  `RateLimitWindows.FullWindowIff` says exactly when it cannot.
- Postings may name any existing account, of any tenant and currency; nothing checks either. The
  balance query filters on the posting's own tenant.
- The requeue statement looks at the column's default of five tries (db/migrations/000002_add_outbox.up.sql:33)
  while the worker has a limit of its own; `OutboxSingle.RequeueRevives` says what follows.

## Model

| member | source | states |
|---|---|---|
| ProtocolInv.StepKeepsInv | internal/service/ledger.go:292-495 | every step of any call, worker, server or fault keeps the system invariant, and changes nothing that is committed |
| ProtocolSafety.AtMostOneTransaction | db/migrations/000005_add_multi_tenancy.up.sql:28-32 | in every reachable state at most one transaction per tenant and key is committed |
| ProtocolSafety.SuccessfulCallsAgree | internal/service/ledger.go:325-403 | all calls that ever succeed for a tenant and key return the same id and fields, and the same postings whenever both have any |
| ProtocolSafety.SuccessIsCommitted | internal/service/ledger.go:456-495 | a success names a committed transaction of the caller's tenant and key, reports that row field by field and agrees with GetTransaction |
| ProtocolSafety.CommittedIsRequested | internal/service/ledger.go:393-419 | a committed transaction is its call's request: same key, description, metadata, the requested legs in order, at least two of them, balanced over the integers |
| ProtocolSafety.CacheCoherent | internal/service/ledger.go:467-520 | every idempotency entry names the one committed transaction of its pair and agrees with GetTransaction, on postings whenever the fetch had succeeded |
| ProtocolSafety.OutboxBijection | internal/service/ledger.go:422-450 | committed transactions and outbox rows are in bijection, each payload carrying its transaction's tenant, id, key, description, metadata and exact posting list |
| ProtocolSafety.MessagesAreCommitted | internal/service/outbox.go:138-170 | every message that reached the broker is the event of a committed transaction |
| ProtocolSafety.PublishedWasAcked | internal/service/outbox.go:139-143 | a row marked published had at least one publish that returned nil |
| ProtocolSafety.AbortedCallLeavesNothing | internal/service/ledger.go:374-456 | a call that failed or crashed before COMMIT was sent never has a committed row or an outbox row, in any later state |
| ProtocolSafety.CommittedIsForever | db/migrations/000001_init_ledger.up.sql:79-101 | from any reachable state and over any further run, a committed transaction's row, legs and answers to GetTransaction and the posting query stay the same for every tenant |
| ProtocolSafety.TrialBalanceAlways | internal/db/queries.sql.go:295-306 | in every reachable state the net balances of a tenant, over all accounts its postings mention, sum to zero |
| AccountHistory.BalanceIsHistory | internal/service/ledger.go:232-254 | an account's exact debits, credits and net are the sums, over the commits of the run, of what the committed requests put on that account |
| AccountHistory.StepContributes | internal/db/queries.sql.go:295-306 | a step changes one side of an account by exactly the committed request's legs on it, and by nothing if it is not a commit |
| Timestamps.CreatedAtBegin | db/migrations/000001_init_ledger.up.sql:47-53 | a committed transaction's created_at is the time at which, in that very run, its writer began its database transaction, so not before the call arrived and not in the future |
| Timestamps.OneTimePerTransaction | db/migrations/000001_init_ledger.up.sql:55-62 | its postings and its outbox row carry the same time |
| Reads.GetPostingsAnswers | internal/db/queries.sql.go:533-547 | the posting query in every reachable state: nothing of an uncommitted transaction; of a committed one exactly its postings of this tenant, ids ascending, each with the name of its own account and the transaction's created_at |
| Reads.GetTransactionAnswers | internal/service/ledger.go:498-520 | GetTransaction finds exactly the committed transactions of the tenant and answers with the row's fields and the writer's requested legs |
| Reads.GetAccountBalanceAnswers | internal/service/ledger.go:232-254 | the balance answer against the run's history: the totals of either side, their difference and the account's currency exactly when the account is the tenant's and the figures fit BIGINT, not found exactly when it is not the tenant's, out of range otherwise |
| Reads.AddedAccountAnswers | internal/db/queries.sql.go:40-58 | once added, an account is read as given by its own tenant and by no other, and all other accounts read as before |
| Reachability.CommittableIff | internal/service/ledger.go:292-495 | from an empty system some run commits and answers the request exactly when it has a key, two or more well-formed postings on positive account ids, and equal sides within BIGINT; no other request is ever committed |
| Reachability.CarriedThrough | internal/service/ledger.go:325-495 | from any reachable state with nothing in its way a call can be carried through to its commit and its answer |
| Reachability.AccountNamesUnique | db/migrations/000005_add_multi_tenancy.up.sql:20-25 | no tenant ever has two accounts of one name |
| OutboxRefinement.RunProjects | internal/service/ledger.go:425-457 | every run of the whole system is, for the outbox, a run of the worker system: each commit enqueues its event and nothing else touches the table |
| OutboxRefinement.CommitEnqueues | db/migrations/000002_add_outbox.up.sql:26-37 | a commit appends exactly one row, the transaction's event, pending and untried |
| OutboxRefinement.SystemRetryBound | internal/service/outbox.go:191-224 | the bound on retry_count holds with the ledger running beside the workers |
| OutboxRefinement.SystemAttemptsConserved | internal/service/outbox.go:138-228 | so do one worker's books |
| Duplicates.MissedDuplicateFails | internal/service/ledger.go:360-403 | in any reachable state, once its key is committed, a call that misses the cache (a miss, an eviction, a Redis error) never succeeds: it returns a plain begin or insert failure, and no committed transaction is of its making |
| FaultFree.UniqueIndexNeverHit | internal/service/ledger.go:336-403 | without infrastructure faults no call comes to its insert while a committed or unfinished row has its key: the unique index neither rejects nor delays an insert |
| FaultFree.LateCallReplays | internal/service/ledger.go:346-359 | without faults, a call that gets the lock once its key is committed can only replay the stored response of that transaction |
| FaultFree.RepliesIdentical | internal/service/ledger.go:350-359 | without faults, all successful calls of a pair return the very same response, posting list included, even when the fetch had failed |
| FaultFree.StepKeepsQuiet | internal/service/ledger.go:336-343 | the invariant behind it: whoever is between acquisition and release holds the live lock, and a committed transaction is cached or its writer still holds it |
| FaultFree.EntryStays | internal/service/ledger.go:486-492 | without faults a live cache entry is never replaced by another one |
| MutualExclusion.NeverBothActing | internal/service/ledger.go:325-343 | two calls for one tenant and key are never both between acquisition and release with their deadlines still ahead, if the timeout is at most the lock's time to live |
| MutualExclusion.ExclusiveIff | internal/api/middleware.go:408-416 | from any initial state, exclusion holds in all runs exactly when the request timeout is at most the lock's time to live |
| MutualExclusion.LongerTimeoutOverlaps | internal/service/ledger.go:325-328 | with any longer timeout, any two calls for any valid request can act at once |
| MutualExclusion.LockStays | internal/service/ledger.go:336-343 | a live lock is neither taken over nor released by any step of another call |
| Tenants.StepDoesNotInterfere | internal/db/queries.sql.go:295-306 | no step of another tenant, of a worker or of the clock changes what a tenant reads: accounts, account lists, balances, transactions, postings |
| Tenants.StepLeavesRedis | internal/service/ledger.go:325-348 | nor does it touch the tenant's locks and cached responses |
| Tenants.TenantsDoNotInterfere | db/migrations/000005_add_multi_tenancy.up.sql:20-45 | the same over whole runs of other tenants' steps |
| Tenants.HiddenReads | internal/db/queries.sql.go:533-547 | another tenant's transaction reads as no transaction and no postings |
| RedisKeys.KeysNeverCollide | internal/service/ledger.go:325 | the Redis keys of locks, cached responses and rate windows are equal only for the same kind, tenant and key, whatever characters the key contains |
| RedisKeys.LockKeyRead | internal/service/ledger.go:325 | a lock's key is its prefix, the tenant, a colon and the idempotency key, each at its fixed place |
| RedisKeys.IdempotencyKeyRead | internal/service/ledger.go:348 | likewise a cached response's key |
| RedisKeys.PairsNeverShare | internal/service/ledger.go:348 | distinct pairs never share a lock key or a cache key, and locks and cached responses never share one |
| RedisKeys.FreeWidthCollides | internal/service/ledger.go:348 | without the fixed width of a UUID two different pairs could share a key |
| LedgerServices.LedgerService.CreateTransaction | internal/service/ledger.go:292-495 | the call is a run of the protocol and returns; a success reads back through GetTransaction; any error but a failed commit leaves nothing; an invalid request gets its verdict; with nothing in its way it succeeds with its own id, key, description, metadata and postings and with created_at the time of the call; a repeat under a free lock replays the cache |
| LedgerServices.LedgerService.Admit | internal/service/ledger.go:296-320 | the request is validated before anything is touched |
| LedgerServices.LedgerService.Serve | internal/service/ledger.go:325-495 | a validated call, lock to return: ends with its result recorded, and gives up without a trace on any error before COMMIT |
| LedgerServices.LedgerService.ObtainLock | internal/service/ledger.go:325-335 | one attempt and five retries: the lock is obtained at the first attempt that finds it free after refusals only, and not at all exactly when there is none; success means the pair's lock is this call's for its time to live, failure ends the call |
| LedgerServices.LedgerService.Attempt | internal/service/ledger.go:325-335 | one attempt at the lock: a Redis error ends the call, a live lock leaves everything as it is, a free one becomes this call's |
| LedgerServices.LedgerService.ReadCached | internal/service/ledger.go:348-370 | a hit replays the live entry, a miss or a Redis error goes on to the database |
| LedgerServices.LedgerService.BeginTransaction | internal/service/ledger.go:374-379 | opens the database transaction, started at the present time and still empty, or gives up with no trace |
| LedgerServices.LedgerService.InsertTransaction | internal/service/ledger.go:393-403 | a key some committed transaction has makes it fail and leaves the database as it was; success inserts the row with this id; failure rolls back with no trace |
| LedgerServices.LedgerService.InsertPostings | internal/service/ledger.go:408-419 | inserts all legs in request order or stops at the first that fails |
| LedgerServices.LedgerService.InsertOutboxEvent | internal/service/ledger.go:425-450 | inserts the event, under its id, into the same database transaction, or rolls back with no trace |
| LedgerServices.LedgerService.CommitTransaction | internal/service/ledger.go:455-457 | reports success only when the server has committed; an error says nothing about the outcome |
| LedgerServices.LedgerService.FetchPostings | internal/service/ledger.go:467-482 | whatever others do meanwhile, the response carries the call's own transaction: id, key, description, metadata, created_at, and the requested legs in order exactly if the read succeeds |
| LedgerServices.LedgerService.StoreResponse | internal/service/ledger.go:486-495 | the call succeeds whether or not the response is cached; if it is, it is this one under this pair for the time to live, and if not the cache is as others left it |
| LedgerServices.LedgerService.RollBack | internal/service/ledger.go:380-383 | the deferred rollback keeps the error, ends the open database transaction if it takes effect, and leaves a call that had not sent COMMIT without a trace in any case |
| LedgerServices.LedgerService.TransactAndRespond | internal/service/ledger.go:388-495 | inserts, commits, reads back and caches, or rolls back; with nothing in the way it answers with the requested postings |
| LedgerServices.LedgerService.WhileLocked | internal/service/ledger.go:346-495 | from cache lookup to just before release: the rollback runs before the lock is let go |
| LedgerServices.LedgerService.ReleaseLock | internal/service/ledger.go:336-343 | an effective release leaves the call without a live lock and takes no other lock away, an ineffective one changes no lock; the result is recorded and nothing undone |
| LedgerServices.ClearCommit | db/migrations/000001_init_ledger.up.sql:112-139 | a call whose request balances within BIGINT passes the deferred trigger and commits |
| LedgerServices.FetchAnswers | internal/db/queries.sql.go:533-547 | what is read back after commit are the requested legs in order |
| DatabaseInv.InsertTxOk | internal/db/queries.sql.go:222-239 | inserting a transaction row keeps every schema invariant and disturbs nothing committed |
| DatabaseInv.InsertPostingOk | internal/db/queries.sql.go:162-180 | a posting goes to an uncommitted transaction, appends exactly one leg to it and changes no committed data |
| DatabaseInv.CommitOk | db/migrations/000001_init_ledger.up.sql:112-139 | a commit the trigger lets through keeps every committed transaction balanced and every tenant's books at zero |
| DatabaseInv.AddAccountOk | internal/db/queries.sql.go:40-58 | a new account changes no existing query result |
| DatabaseInv.SelectShowsLegs | internal/db/queries.sql.go:533-547 | the posting query returns exactly the inserted legs in insertion order; the join loses none |
| DatabaseInv.NetCommit | internal/db/queries.sql.go:295-306 | making a transaction visible adds exactly its own legs to its tenant's net and nothing to another's |
| DatabaseInv.TrialBalance | internal/db/queries.sql.go:295-306 | the net balances of a tenant sum to zero whenever the schema invariants hold |
| Balance.GoBalancedIsCongruence | internal/service/ledger.go:304-320 | the Go check accepts exactly when debits and credits agree modulo 2^64 |
| Balance.TriggerIsGoCheckPlusRange | db/migrations/000001_init_ledger.up.sql:112-132 | on well-formed postings the trigger accepts exactly when the Go check does and both sums fit BIGINT |
| Balance.GoCheckExactWhenSmall | internal/api/validation.go:109-117 | with at most 100 postings of at most (2^63 - 1)/100 each the Go check alone is exact |
| Balance.GoCheckCanBeFooled | internal/service/ledger.go:304-320 | postings that pass the wrapped check, do not balance, and are stopped by the trigger |
| Balance.SumPermutation | internal/service/ledger.go:304-317 | the sums do not depend on the order of the postings |
| Validation.ValidateForService | internal/service/ledger.go:296-320 | the early-exit loop with wrapping sums computes the first fault in source order |
| Validation.FaultIsTheFirst | internal/service/ledger.go:305-317 | a rejection points at a posting with that fault, all earlier ones being well-formed |
| Validation.VerdictMeaning | internal/service/ledger.go:296-320 | which answer each request gets: key missing, fewer than two postings, amount or direction of the first posting at fault, sums differing modulo 2^64, acceptance, each exactly under its own condition |
| Validation.ServiceAcceptsMeaning | internal/service/ledger.go:296-320 | the service accepts exactly: key given, two postings or more, all well-formed, sums congruent modulo 2^64 |
| Validation.ValidateForApi | internal/api/validation.go:147-203 | the collecting loop with wrapping sums reports the list that the next three rows pin down |
| Validation.PostingsReported | internal/api/validation.go:171-196 | for every index: the amount, the account and the direction of that posting are reported exactly when at fault, and nothing is reported beyond the last posting |
| Validation.RequestReported | internal/api/validation.go:147-203 | key missing or too long, description too long, too few or too many postings, differing sides: each reported exactly under its own condition |
| Validation.ProblemsInOrder | internal/api/validation.go:147-203 | nothing is reported twice, and the problems stand in source order: request, postings by index with amount before account before direction, imbalance |
| Validation.PostingProblemsComplete | internal/api/validation.go:171-196 | the posting problems are those of the single postings, none lost and none invented |
| Validation.ApiCleanImpliesServiceAccepts | internal/api/handler.go:388-396 | a request the API finds no fault with is one the service accepts |
| Validation.ValidatorsDifferOnlyOnAccounts | internal/api/validation.go:147-203 | within the API's limits the service accepts exactly the requests whose every API problem is a non-positive account id |
| Validation.ApiCleanMeaning | internal/api/validation.go:147-203 | the API accepts exactly: limits kept, service accepts, account ids positive |
| Validation.AcceptanceIgnoresOrder | internal/service/ledger.go:304-320 | acceptance by either validator is unchanged under any permutation of the postings |
| Outbox.RetryCountBound | internal/service/outbox.go:191-224 | with N workers on stale snapshots and no requeue, retry_count never exceeds maxRetries + N - 2 |
| Outbox.RetryCountBoundAttained | internal/service/outbox.go:138-143 | for every N and every maxRetries of two or more a run reaches that count |
| Outbox.OneTryCountsNothing | internal/service/outbox.go:200-214 | with maxRetries of one or less retry_count stays zero, whatever N |
| Outbox.RunKeepsSafe | internal/service/outbox.go:121-187 | over all runs, messages and publish results belong to existing rows and published rows had a nil |
| OutboxSingle.AttemptsConserved | internal/service/outbox.go:138-228 | one worker: successes are ineffective mark-published writes plus one if published; failures are retry_count plus ineffective failure writes plus one if failed; pending rows stay below maxRetries |
| OutboxSingle.SingleWorkerRun | internal/db/queries.sql.go:665-669 | one worker: the books balance after every run and terminal rows never change |
| OutboxSingle.PublishedCanBecomeFailed | internal/db/queries.sql.go:762-766 | for any two or more workers, any batch size that fetches and any maxRetries: a reachable state with a published row, and one more step after which it is failed |
| OutboxSingle.TerminalIsFinalIff | internal/service/outbox.go:173-228 | in every run of n workers without requeue published and failed rows never change, exactly when n is at most one or the batch size is zero |
| OutboxSingle.RequeueRevives | internal/db/queries.sql.go:789-793 | with one worker the requeue revives every dead letter, as new, if maxRetries is at most the column's default of five, and none at all if it is more |
| OutboxDrain.DrainBound | internal/service/outbox.go:121-145 | one worker, new rows sorting last: a row with r pending rows not after it is terminal within maxRetries + r * maxRetries / batchSize polls, however ties are broken |
| OutboxDrain.DrainBoundWithoutTies | internal/db/queries.sql.go:421-426 | without ties within maxRetries * (r / batchSize + 1) polls |
| OutboxDrain.PollsInClosedForm | internal/service/outbox.go:121-145 | both bounds as the formulas above, integer division included |
| OutboxTies.DrainBoundAttained | internal/db/queries.sql.go:421-426 | the bound for tied rows is exact: for every configuration and every r of at least a batch, a row is still pending one poll before it |
| OutboxTies.SharpBoundIff | internal/service/outbox.go:121-145 | although rows may tie, maxRetries * (r / batchSize + 1) polls are enough exactly when r < batchSize or maxRetries * (r mod batchSize) < batchSize |
| OutboxTies.ExtraPolls | internal/service/outbox.go:121-145 | what ties can cost on top of the sharper bound |
| OutboxWorkers.GetPendingOutboxEvents | internal/db/queries.sql.go:421-455 | returns the oldest pending rows up to the limit, each once |
| OutboxWorkers.OutboxWorker.MarkOutboxEventPublished | internal/db/queries.sql.go:778-787 | only this row changes, to published, and only if it was pending |
| OutboxWorkers.OutboxWorker.MarkOutboxEventFailed | internal/db/queries.sql.go:762-776 | only this row changes, to failed, whatever it was |
| OutboxWorkers.OutboxWorker.IncrementOutboxRetry | internal/db/queries.sql.go:665-679 | only this row changes, by one retry, and only if it was pending |
| OutboxWorkers.OutboxWorker.PublishEvent | internal/service/outbox.go:148-170 | a nil is recorded, a message handed over is the fetched event, no row changes |
| OutboxWorkers.OutboxWorker.HandlePublishSuccess | internal/service/outbox.go:173-187 | the event's row becomes published if it is still pending; no other row changes |
| OutboxWorkers.OutboxWorker.HandlePublishFailure | internal/service/outbox.go:191-224 | on the last try by the event's fetched count the row becomes failed whatever it was, before that it gets one retry more if pending; no other row changes |
| OutboxWorkers.OutboxWorker.HandleEvent | internal/service/outbox.go:138-144 | publishing and settling one event are a publish and a write of the worker system |
| OutboxWorkers.OutboxWorker.ProcessBatch | internal/service/outbox.go:121-145 | a poll is a run of the worker system that ends idle; the table is what handling the fetched events in order leaves, ineffective writes included |
| OutboxWorkers.OutboxWorker.PollLoop | internal/service/outbox.go:102-118 | one batch per tick up to the first stop, each a legal answer to the query; the table ends as those batches leave it; a row no tick fails for is terminal after the ticks of the drain bound; alone, the worker keeps the books |
| OutboxWorkers.TicksDrain | internal/service/outbox.go:108-118 | the drain bound for the loop's own ticks, rows arriving between them |
| RateLimit.ScriptRefinesCount | internal/api/middleware.go:272-293 | for stamps that do not go back, fresh members and a key that does not go early, any window and any Redis clock, the pruned set decides like a count over the full admission history |
| RateLimit.WholeWindowSuffices | internal/api/middleware.go:289-301 | on one clock the key goes early only for a positive window with a fraction of a millisecond |
| RateLimit.AgreementIff | internal/api/middleware.go:289-301 | on one clock they agree on all traces of fresh members exactly when the window is whole milliseconds, or not positive, or nothing is ever admitted |
| RateLimit.SetWithinLimit | internal/api/middleware.go:279-289 | the set never exceeds the limit, for any clocks at all |
| RateLimitWindows.DeniedRequestsInvisible | internal/api/middleware.go:279-293 | when neither stamps nor Redis's clock go back, for any window and any members: deleting all denied requests leaves every other decision unchanged |
| RateLimitWindows.AdmittedAfterWaiting | internal/api/middleware.go:279-293 | in any trace: with nothing admitted stamped after t, a request a window later is admitted |
| RateLimitWindows.RateBoundUnderSkew | internal/api/middleware.go:266-301 | with stamps lagging by at most d and no early expiry, no half-open window of length W - d sees more than the limit |
| RateLimitWindows.FullWindowIff | internal/api/middleware.go:266-301 | with stamps late by at most d and a key that does not go early, every full window keeps to the limit exactly when d is zero, or at most one request is allowed, or the window is below a millisecond |
| RateLimitWindows.SkewBreaksFullWindow | internal/api/middleware.go:279-293 | in all other cases one instant of lag admits one request too many |
| RateLimiters.RateLimiter.RunScript | internal/api/middleware.go:272-294 | prunes, counts and adds in place as the script does, and reports the count |
| RateLimiters.RateLimiter.Check | internal/api/middleware.go:296-341 | fails open without a change; otherwise serves exactly what the script admits, and remaining needs no clamp for a limit that is not negative |
| Paging.QueryAccounts | internal/db/queries.sql.go:681-718 | returns the first ids above the cursor in order, up to the limit |
| Paging.ListAccounts | internal/api/handler.go:255-283 | a size above 100 is refused and none means 20; the page follows the cursor, and the next cursor is the last id |
| Paging.AccountPageUnique | internal/db/queries.sql.go:681-686 | the query pins its page down |
| Paging.AccountWalk | internal/api/handler.go:255-283 | following next_cursor lists ids in order, each once, misses no account present at the start, and lists none that is not there, despite concurrent inserts |
| Paging.WalkEnds | internal/api/handler.go:270-283 | once inserts stop, the walk takes exactly the stated number of requests |
| Paging.EndpointWalk | internal/api/handler.go:255-283 | the answers to requests that each name the previous next_cursor, up to the empty one: ids ascend, every account of the first request's table is among them, and only existing ones |
| TransactionPaging.QueryTransactions | internal/db/queries.sql.go:722-758 | reading the created_at index returns the newest rows before the cursor, up to the limit |
| TransactionPaging.ListTransactions | internal/api/handler.go:472-505 | a bad cursor or a size above 100 is refused, no size means 20; the page is the newest rows before the cursor's time or, without a cursor, before a second past the clock; the next cursor is the last row's created_at |
| TransactionPaging.NeverRepeats | internal/db/queries.sql.go:722-727 | the transaction walk never lists a row twice |
| TransactionPaging.MissedIffTied | internal/db/queries.sql.go:722-727 | an initial row is missed exactly when it ties on created_at with the last row of a page that leaves it out |
| TransactionPaging.DistinctTimesMissNothing | internal/api/handler.go:483-505 | with distinct timestamps nothing is missed |
| TransactionPaging.EndpointWalk | internal/api/handler.go:472-505 | the answers to requests that each name the previous next_cursor: no row twice, newest first, and a row of the first request's table is missed exactly when an answer ends without it on the same created_at |

## Left out

- Web pages, API documents, deployment, logging, tracing, CORS, health check and error formatting: no deep property.
- Documents and R2 storage, login, sessions, API keys and roles: thin wrappers over other programs.
- Account postings by offset: ordered by created_at alone, which all legs of one transaction share, so there is no stable order to prove.
- Account types and the currency whitelist: nothing in the modelled operations depends on them.
- JSON encoding: events, responses and metadata are values; a cached entry that does not parse is a miss, which the protocol allows at any time.
- Isolation levels: a database transaction's rows appear at once and atomically at commit; serialization failures are rejections, which may happen at any statement and at commit.
- Commits after the deadline: `MutualExclusion` bounds what calls do; a COMMIT already sent may still be carried out by the server later, as in the untimed results.
- Redis, PostgreSQL, redislock and RabbitMQ inside: a lock with an owner and a time to live, tables, and a publish that returns nil or an error. Redis rounding its own clock to milliseconds is not modelled.
- Floating point in the rate limiter: time is in integer nanoseconds; the member's random suffix is a nonce, taken to be fresh where a result says so.
- Requeueing of dead letters: the program never issues the statement; it is in the worker system, `OutboxSingle.RequeueRevives` says what it does, and the retry and conservation results are about runs without it.
- Backoff and broker delivery: the code implements neither a delay nor a confirm.
- The 32-bit width of retry_count and max_retries: the counts stay far below it by `Outbox.RetryCountBound`.
- Tenants.StepDoesNotInterfere: does not speak of pages of the transaction list, because their rows are covered one by one through GetTransaction.
