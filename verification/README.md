# Quan: claim protocol and asynchronous delivery

A Dafny model of the coupon service under `examples/Quan` and of three small algorithms in `pkg/`,
with proofs of what every run of it keeps. `dafny verify dfyconfig.toml` checks the whole project.

## What is modelled

**Claims.** A claim can go straight to MySQL, or first through a Redis adjudicator that admits,
finalizes or rolls back reservations by Lua script while MySQL keeps the ledger.

- `Codec` - decimal ids, Redis key names, entry values, the outbox payload: the text forms everything
  else rests on, with their round trips and injectivity.
- `Ledger` - campaigns, claims, tasks and outbox rows; both claim transactions and the task
  transaction as functions from ledger to ledger.
- `Adjudicator` - the Redis state as maps, every script as one function, and runs of script calls.
- `RedisScripts` - the same scripts as command sequences over string keys and string hashes, proved
  to represent `Adjudicator`.
- `ClaimProtocol` - any number of clients inside `Service.Claim`, one store operation per step, with
  lost replies, failures, retries of a command, stalled clients and entries that expire at any time.
- `ClaimRefinement` - the Redis path against the MySQL-only path.
- `ClaimReplies` - what clients are told: over every run of the protocol, and for a client that runs alone.
- `ClaimExpiry` - the same comparison over runs in which entries expire.
- `ClaimService` - repository and service as classes: transactions that change rows in place and
  put them back on error, the polling loop, the two-attempt loop.

**Delivery.** Outbox events, tasks, the ready list, the retry sorted set and the dead-letter list,
moved by relays, workers, movers, compensators and manual replay.

- `Tasks` - one task row and every conditional UPDATE on it, with a log of what happened to it.
- `Delivery` - the transition system: each SQL statement or transaction, Redis command or script is
  one step that may succeed, fail, or be applied with its reply lost; threads may crash between steps.
- `DeliveryInvariants`, `DeliveryTheorems` - what every interleaving keeps, and what follows.
- `Recovery`, `RecoveryPhases`, `Recoverability` - fault-free schedules to SUCCESS, and exactly when
  there is one.
- `DeliveryScenarios` - concrete runs that lose or strand a task.
- `DeliveryService` - repositories, queue and component loops as a class. Other threads take steps
  in every gap and any operation may fault; every execution is a run of `Delivery`. What a component
  achieves undisturbed is stated outright.

**Small cores.** `SqlSplitter` (statement splitter), `TokenBucket` (rate limiter over real numbers),
`Bulkhead` (semaphore with a bounded waiting room).

## Results worth knowing

- An unfinished task can still reach SUCCESS by a fault-free schedule *if and only if* it is not stuck
  (`Recoverability.RecoverableUnlessStuck`): stuck means that no recovery scan sees its row, no queue
  or thread carries its id, and no event of it is still to be sent. Schedules start no new task, event
  or replay, but replay calls under way go on, and one that has reopened a task whose id is in the
  dead-letter list, or on its way there, carries it. A task gets stuck when a worker loses its id
  between popping it and `TryMarkRunning`: the compensator never scans PENDING rows, so no component
  repairs that (`DeliveryTheorems.LostForever`), and it takes only this fault
  (`DeliveryScenarios.LossIsReachable`). Otherwise it takes a replay that reopened the row and will
  not queue it, see below. The failure matrix (`docs/async-failure-matrix.md`) lists neither. The termination measures of the schedule are
  the `decreases` clauses: the numbers of recoverable rows, of DISPATCHING and of unpublished events,
  of retry entries, of ready entries and of FAILED rows.
- `ClaimCoupon` tests for sold-out before it looks for a replay, so a replay of a committed claim on
  an exhausted campaign gets "sold out" (`Ledger.ReplayReturnsTheClaim`); the Redis path returns the
  claim.
- The Redis path can stop refining the MySQL path once an idempotency entry expires: a replay may then
  be admitted again, find its row, and keep a second unit of Redis stock and user count
  (`ClaimRefinement.ExpiredReplayCharges`). Over any sequential run of requests and expiries Redis is
  behind by exactly these double charges, and a request is treated differently exactly when they use
  up what is left of the campaign's stock, whoever asks, or of the user's own allowance
  (`ClaimExpiry.BehindByTheDoubleCharges`, `ClaimExpiry.ExpiryBreaksRefinement`).
- A replay of a FAILED task whose id is not in the dead-letter list makes it DEAD although its budget
  was not exhausted (`DeliveryTheorems.ReplayNeedsTheDlq`); the state machine document describes DEAD
  as exhausted retries only. A replay whose status update is applied but not acknowledged leaves
  a FAILED row without a retry time, which no scan sees; it still succeeds exactly when its id was
  carried by some queue or thread, such as another replay call, or an event of it was still to be sent
  (`Recoverability.LostReplayStrands`, `DeliveryScenarios.StrandingIsReachable`).
- Dropping a comment can glue its neighbours into a new comment, so splitting is not stable under
  joining in general; it is exactly when the text without its comments is free of comments
  (`SqlSplitter.SplitJoinSplit`).
- The bulkhead can refuse a request while nobody waits (`Bulkhead.RefusedThoughNobodyWaits`).

## Assumptions

Campaign rows change only through claims; stock starts non-negative; Redis campaign keys are not
evicted; all claims on a campaign hydrated into Redis use the Redis path; a persist call that reports
an error left the ledger unchanged; reservation ids are unique; auto-increment ids are fresh and
64-bit; the clock does not go backwards. Each appears as a `requires` clause or in the definition of
the start state where it is needed and nowhere else. In `Recovery`, `Staffed` says that there is at
least one thread of each kind and that batch sizes are positive, as the constructors' defaults ensure.

## Model

| member | source | states |
|---|---|---|
| Codec.ParsePrintInt | examples/Quan/internal/coupon/decision.go:229-247 | printing an id and parsing it gives the id back, for every 64-bit id |
| Codec.PrintsDecimal | examples/Quan/internal/coupon/decision.go:249-263 | ids are printed in decimal: one digit for less than ten, one more digit on the right for ten times and some, a minus sign in front of a negative one |
| Codec.IdemDecisionKeyInjective | examples/Quan/internal/coupon/decision.go:261-263 | different coupon, user or client key never share an idempotency key, whatever characters the client key contains |
| Codec.CampaignKeyInjective | examples/Quan/internal/coupon/decision.go:249-259 | a campaign key determines its coupon and which of the three keys it is |
| Codec.IdemKeyIsNoCampaignKey | examples/Quan/internal/coupon/decision.go:249-263 | no idempotency key collides with a campaign key |
| Codec.KeysSpelledOut | examples/Quan/internal/coupon/decision.go:249-263 | the four keys of one coupon, user and client key, literally |
| Codec.ParsePrintEntry | examples/Quan/internal/coupon/decision.go:81-88 | a stored PENDING or SUCCESS entry reads back as the same reservation or claim id |
| Codec.ParseMarshalTaskCreated | examples/Quan/internal/outbox/model.go:36-44 | the task-created payload decodes to its task id, also in the spacing a JSON column returns |
| Codec.ClaimBizIdInjective | examples/Quan/internal/coupon/repository_claim.go:233 | distinct claims have distinct task business ids |
| Codec.ValuesSpelledOut | examples/Quan/internal/outbox/model.go:36-44 | entry values, outbox payload and business id of one id, literally |
| Ledger.SameLedger | examples/Quan/internal/coupon/repository_claim.go:16-150 | deduct-then-insert and insert-then-deduct commit the same ledger from every state: the issued claim when the request is admissible, nothing otherwise; the branch that would commit a deduction without a claim is dead |
| Ledger.RepliesDifferOnlyWhenSoldOut | examples/Quan/internal/coupon/repository_claim.go:27-55 | the two transactions reply differently exactly when an active campaign is out of stock and the request is a replay or over its limit |
| Ledger.OpKeepsInv | examples/Quan/internal/coupon/repository_claim.go:16-265 | each transaction of either path, task creation and failure keeps stock plus claims constant, stock non-negative, the per-user limit, key uniqueness and one task with an event per claim; LimitByTheRow and StockByTheRow say it on the columns |
| Ledger.LedgerSafe | examples/Quan/internal/coupon/repository_claim.go:16-265 | the same over every serialized run |
| Ledger.RepliesByTheRow | examples/Quan/internal/coupon/repository_claim.go:16-150 | every answer of both transactions to a request that is no replay, in the campaign row's own columns: inactive by status and dates; sold out at stock zero (persisting reports the limit first); granted while the user's rows are fewer than per_user_limit, or none; already claimed when per_user_limit is at most one, limit reached when it is more |
| Ledger.LimitByTheRow | examples/Quan/internal/coupon/repository_claim.go:46-55 | over every serialized run the user's rows of a campaign number at most per_user_limit, at most one if that is not positive, and the column never changes |
| Ledger.StockByTheRow | examples/Quan/internal/coupon/repository_claim.go:152-170 | over every serialized run the stock column plus the number of claim rows of the campaign is what it was, and the column is never negative |
| Ledger.CountUserIsRows | examples/Quan/internal/coupon/repository_query.go:75-86 | the count read is the number of rows of that coupon and user |
| Ledger.TaskIsCreatedOnce | examples/Quan/internal/task/service.go:62-96 | the task service creates a task with its event once per type and business id; asking again changes nothing |
| Ledger.ExactlyOneNotice | examples/Quan/internal/coupon/repository_claim.go:220-265 | every committed claim has exactly one notice task, and that task has an outbox event |
| Ledger.ReplayReturnsTheClaim | examples/Quan/internal/coupon/repository_claim.go:16-150 | a replay changes nothing; while the campaign runs persisting returns the committed row, and so does the direct path except that it answers sold-out when stock is zero; once the campaign is over both answer inactive, and not-found if its row is gone |
| Adjudicator.AdmitEffect | examples/Quan/internal/coupon/decision.go:107-124 | an admission takes one unit of stock, adds one to the user's count and enters the reservation, and nothing else |
| Adjudicator.RollbackEffect | examples/Quan/internal/coupon/decision.go:173-185 | an effective rollback gives both back and removes an exhausted count field, or the whole hash |
| Adjudicator.AdmitThenRollback | examples/Quan/internal/coupon/decision.go:107-185 | an admission followed by its rollback restores Redis exactly, absent count fields included |
| Adjudicator.CompensationsAreDead | examples/Quan/internal/coupon/decision.go:107-121 | the two compensation branches of the decision script are unreachable |
| Adjudicator.LateEndIsHarmless | examples/Quan/internal/coupon/decision.go:155-185 | once no entry carries a reservation id and nobody draws it again, after every further run every late rollback, and every late finalize with any claim id, is the identity |
| Adjudicator.EndedIsGone | examples/Quan/internal/coupon/decision.go:155-185 | an id drawn at most once is carried by no entry as soon as its entry expires, is finalized or is rolled back |
| Adjudicator.RedisSafe | examples/Quan/internal/coupon/decision.go:63-191 | over every run of decide, finalize, rollback, hydrate and expiry: stock plus the sum of counts equals the hydrated stock, stock is not negative, each count lies between the user's pending entries and the limit |
| Adjudicator.AtMostOneEnd | examples/Quan/internal/coupon/decision.go:151-191 | with unique reservation ids at most one finalize or rollback takes effect per admission |
| RedisScripts.Server.Decide | examples/Quan/internal/coupon/decision.go:63-135 | the script over strings and hashes represents the decision on numbers, and its reply parses to that decision |
| RedisScripts.Server.Judge | examples/Quan/internal/coupon/decision.go:90-124 | the script for a request without an entry: activity, limit and stock in that order |
| RedisScripts.Server.Reserve | examples/Quan/internal/coupon/decision.go:107-124 | the script's tail with both compensations, branch by branch |
| RedisScripts.Server.EnsureCampaign | examples/Quan/internal/coupon/decision.go:137-149 | hydration writes only absent keys, the meta hash as a whole or not at all |
| RedisScripts.Server.Finalize | examples/Quan/internal/coupon/decision.go:151-167 | the script turns exactly the caller's own reservation into a success entry |
| RedisScripts.Server.Rollback | examples/Quan/internal/coupon/decision.go:169-191 | the script undoes exactly the caller's own reservation |
| ClaimProtocol.StepKeepsInv | examples/Quan/internal/coupon/service.go:56-132 | every step of every client, with lost replies and expiry, keeps the cross-store invariant |
| ClaimProtocol.AdmissionIsSound | examples/Quan/internal/coupon/service.go:31-114 | in every interleaving Redis stock plus live admissions never exceeds the ledger's stock, and a user's ledger claims plus live admissions never exceed the Redis count (for users without prior claims) |
| ClaimProtocol.AdmittedIsNeverRejected | examples/Quan/internal/coupon/repository_claim.go:95-170 | an admitted request never fails in MySQL with sold-out or not-found, nor (without prior claims) with already-claimed or limit-reached |
| ClaimProtocol.RepliesAreIdempotent | examples/Quan/internal/coupon/service.go:73-110 | any two successful replies for one coupon, user and non-empty key carry the same claim, and the ledger holds exactly that one row |
| ClaimReplies.CommittedIsGranted | examples/Quan/internal/coupon/service.go:96-110 | over every run, whatever happens to Finalize or anybody else, a client that stood at a committed claim and has replied replied with that claim |
| ClaimReplies.RejectedIsTold | examples/Quan/internal/coupon/service.go:96-101 | over every run, whatever happens to Rollback, a client whose transaction returned an error and who has replied replied with that objection, or with an internal error if the store failed |
| ClaimReplies.PersistCommits | examples/Quan/internal/coupon/service.go:96-101 | a persist that reports no error commits the transaction's ledger and settles that the client will be granted its claim; any other leaves the ledger and settles the refusal |
| ClaimReplies.AtMostTwoAttempts | examples/Quan/internal/coupon/service.go:36-45 | over every run no client is in a third attempt, and none is told of a store error as a rejection |
| ClaimReplies.BusyAfterTwo | examples/Quan/internal/coupon/service.go:36-45 | an attempt without a result is followed by a second one, and after that by the answer that the request is still being processed |
| ClaimReplies.SoloIsFastClaim | examples/Quan/internal/coupon/service.go:31-132 | a client that runs alone and without faults from its first decision, however often it polls, ends in exactly the two stores and the reply of the sequential specification |
| ClaimReplies.SoloEnds | examples/Quan/internal/coupon/service.go:31-132 | and from every state it has such a run |
| ClaimRefinement.FastClaimAgrees | examples/Quan/internal/coupon/service.go:31-114 | one fault-free request on a campaign on which the stores are in step commits the ledger of the MySQL-only path and keeps them in step, whatever either store holds for other campaigns; the replies agree up to the stated check-order differences |
| ClaimRefinement.FastPathRefinesSlowPath | examples/Quan/internal/coupon/service.go:48-114 | every sequence of such requests on campaigns without claims that Redis has not heard of commits the same ledger on both paths, in a database with claims on other campaigns and a Redis with keys of other campaigns |
| ClaimRefinement.RepliesByTheRow | examples/Quan/internal/coupon/service.go:31-114 | the answers through Redis in the campaign row's own columns, in this order: the committed claim of a replay, not found, inactive by status and dates, already claimed or limit reached by per_user_limit, sold out, granted |
| ClaimRefinement.ColdStart | examples/Quan/internal/coupon/decision.go:137-149 | an empty Redis is such a start for every campaign without claims |
| ClaimRefinement.RejectedAdmissionIsUndone | examples/Quan/internal/coupon/service.go:96-101 | an admission that MySQL rejects leaves both stores exactly as they were |
| ClaimRefinement.PriorClaimsAreCaught | examples/Quan/internal/coupon/repository_claim.go:118-131 | a new request admitted by Redis on a campaign in stock is refused for the limit exactly when the user's ledger claims, those before hydration included, have reached it; then both stores are unchanged and the reply is that of the MySQL-only path |
| ClaimRefinement.DiffersExactlyWhen | examples/Quan/internal/coupon/service.go:48-114 | on a campaign Redis knows, the two paths commit different ledgers exactly when MySQL would accept a request that Redis does not admit |
| ClaimRefinement.ExpiredReplayCharges | examples/Quan/internal/coupon/service.go:96-110 | replaying a claim whose entry expired leaves the ledger; if Redis admits it again it returns the claim but charges Redis a second time, if not only the entry is gone |
| ClaimExpiry.BehindByTheDoubleCharges | examples/Quan/internal/coupon/service.go:56-114 | over every sequential run of requests and expiries Redis is behind the ledger by exactly the replays it charged twice: its stock by those of the campaign, a user's count by that user's; no reservation is left over and every success entry names its row |
| ClaimExpiry.AdmittedIsAccepted | examples/Quan/internal/coupon/repository_claim.go:95-150 | in every such state whatever Redis admits the ledger accepts or already has |
| ClaimExpiry.ExpiryBreaksRefinement | examples/Quan/internal/coupon/service.go:48-114 | after any such run from campaigns without claims, the next request makes the Redis path commit another ledger than the MySQL-only path if and only if it is admissible and the double charges use up what is left of the campaign's stock or of the user's allowance |
| ClaimExpiry.ExpiryBreaksRefinementAtWork | examples/Quan/internal/coupon/service.go:31-114 | it happens from a cold Redis: one claim, one expiry, one replay, and another user is refused a coupon MySQL still has |
| ClaimService.Repository.DeductStock | examples/Quan/internal/coupon/repository_claim.go:152-170 | the guarded stock update and whether it affected a row |
| ClaimService.Repository.InsertClaim | examples/Quan/internal/coupon/repository_claim.go:172-204 | the insert, refused exactly on a duplicate non-empty key |
| ClaimService.Repository.ResolveDuplicate | examples/Quan/internal/coupon/repository_claim.go:206-218 | what a duplicate-key error resolves to |
| ClaimService.Repository.CreateTaskAndOutbox | examples/Quan/internal/coupon/repository_claim.go:220-265 | the task row, or the existing one, and an event for it |
| ClaimService.Repository.Replay | examples/Quan/internal/coupon/repository_query.go:75-102 | the claim of a replay; else nothing while the user's claims are fewer than per_user_limit, or none, already claimed when per_user_limit is at most one, limit reached when it is more |
| ClaimService.Repository.ClaimCoupon | examples/Quan/internal/coupon/repository_claim.go:16-93 | in-place writes, begin, commit and rollback together are all or nothing: the issued claim when admissible and committed, else exactly the old tables |
| ClaimService.Repository.PersistClaimAfterAdjudication | examples/Quan/internal/coupon/repository_claim.go:95-150 | the same for the other order of writes |
| ClaimService.Repository.End | pkg/mysql/tx.go:28-42 | the deferred block: an error of the callback or of the commit puts every table back, and a commit error replaces the result |
| ClaimService.WaitResult | examples/Quan/internal/coupon/decision.go:193-220 | the first read that is not a reservation decides: a success entry gives its id, a read error or a malformed id an error, anything else or the deadline nothing |
| ClaimService.WaitEnds | examples/Quan/internal/coupon/decision.go:193-220 | after any number of reservations read: a missing key, a foreign value or the deadline gives nothing, a read error or a success entry without a number an error |
| ClaimService.WaitFindsTheClaim | examples/Quan/internal/coupon/decision.go:193-220 | a reservation finalized while somebody waits is found, with its claim's id |
| ClaimService.Service.ClaimWithoutRedis | examples/Quan/internal/coupon/service.go:48-54 | the MySQL-only path with its error mapping |
| ClaimService.Service.WaitPending | examples/Quan/internal/coupon/service.go:116-132 | with nobody else running, waiting on a reservation ends without a result |
| ClaimService.Service.ClaimWithRedis | examples/Quan/internal/coupon/service.go:56-114 | one attempt over both stores equals the specified attempt |
| ClaimService.Service.Claim | examples/Quan/internal/coupon/service.go:31-46 | the two-attempt loop, each attempt with its own reservation id, equals the specified claim and, on campaigns on which the stores are in step, commits the MySQL-only ledger |
| Tasks.New | examples/Quan/internal/task/repository_create.go:10-42 | a created task is PENDING, unretried and stamped now, with the configured retry budget if it is positive and five otherwise |
| Tasks.ApplyKeeps | examples/Quan/internal/task/repository_state.go:11-176 | every status transition keeps run accounting and retry budget; SUCCESS is absorbing and PENDING is never re-entered |
| Tasks.StatusDiagram | examples/Quan/internal/task/repository_state.go:11-176 | which status changes there are, and what each does to retry count and retry time |
| Tasks.StampedByChange | examples/Quan/internal/task/repository_state.go:11-176 | a row's time stamp is that of its last status change or reopening; nothing else touches the row |
| Tasks.BackoffBounds | examples/Quan/internal/task/repository_util.go:25-36 | for every base and count the delay starts at the base in force (one second if none is set), never shrinks, and doubles up to 256 times it |
| Delivery.EventStep | examples/Quan/internal/outbox/repository.go:95-174 | every step of every component moves an event row only along its status diagram: claimed from PENDING, published from DISPATCHING, suspended only if its payload names no positive task id, back to PENDING only after the dispatch timeout or with one more failure counted and delayed; each change is stamped, and a push carries the id the payload names |
| Delivery.StaleFound | examples/Quan/internal/task/repository_query.go:55-91 | the recovery scans return only rows in that status with updated_at at or before the cut-off, oldest first, at most the batch size, and all of them if fewer were found |
| Delivery.DueFailedFound | examples/Quan/internal/task/repository_query.go:36-53 | the same in fields for FAILED rows whose retry time has come |
| Delivery.DueRetryFound | examples/Quan/internal/task/queue.go:113-119 | the same for retry entries with a score up to now, in score order |
| Delivery.DispatchableFound | examples/Quan/internal/outbox/repository.go:43-81 | the same for PENDING events whose retry time has come, in id order |
| Delivery.StaleDispatchingFound | examples/Quan/internal/outbox/repository.go:148-174 | the same for DISPATCHING events not updated for the dispatch timeout |
| Delivery.RelayBackoffBounds | examples/Quan/internal/outbox/relay.go:179-187 | the delay of a failed publish starts at the base, never shrinks, and doubles up to 256 times it |
| DeliveryInvariants.StepKeepsInv | examples/Quan/internal/task/consumer.go:171-235 | every step of every component, with every fault, keeps the pipeline invariant |
| DeliveryInvariants.RunKeepsInv | examples/Quan/internal/outbox/relay.go:121-177 | the same over every run |
| DeliveryTheorems.NoSilentLoss | examples/Quan/internal/task/consumer.go:193-235 | in every run each task is finished, RUNNING, SUSPENDED, FAILED with a retry time, or PENDING with an undelivered event, a queued copy or a holding worker - unless that task was reopened or a popped id of it never reached TryMarkRunning |
| DeliveryTheorems.RunAccounting | examples/Quan/internal/task/repository_state.go:11-176 | successful TryMarkRunning steps equal retry count plus effective recoveries plus one if RUNNING, SUSPENDED or SUCCESS; SUCCESS implies a handler call that returned nil |
| DeliveryTheorems.RetryBudget | examples/Quan/internal/task/repository_state.go:61-159 | with k replays of a DEAD row the retry count stays below max_retry + k, at most that when DEAD; without replay DEAD holds exactly when it reached max_retry |
| DeliveryTheorems.HandlerBound | examples/Quan/internal/task/repository_state.go:161-176 | the number of workers in one task's handler, and of those between it and their mark, never exceeds one for a RUNNING row plus the recoveries that hit it while RUNNING |
| DeliveryTheorems.MutualExclusion | examples/Quan/internal/task/consumer.go:193-235 | without such a recovery two workers are never inside one handler, however often the id is delivered |
| DeliveryTheorems.OneHandler | examples/Quan/internal/task/consumer.go:193-235 | without such a recovery a worker in a handler is the only one, and the row is RUNNING |
| DeliveryTheorems.OutboxHistory | examples/Quan/internal/outbox/repository.go:95-174 | PUBLISHED implies at least one push of the task id, and no event of the creation paths is ever SUSPENDED |
| DeliveryTheorems.Absorbing | examples/Quan/internal/outbox/repository.go:111-146 | over every run SUCCESS, PUBLISHED and SUSPENDED (event) are absorbing |
| DeliveryTheorems.LostForever | examples/Quan/internal/task/repository_query.go:36-91 | a PENDING task with all events published, no copy and no holder stays so whatever the components and replays do |
| DeliveryTheorems.DroppingTheLastCopyLoses | examples/Quan/internal/task/consumer.go:171-197 | losing the last popped copy before TryMarkRunning leads there |
| DeliveryScenarios.LossIsReachable | examples/Quan/internal/task/consumer.go:171-197 | such a state is reachable from an empty pipeline by that one fault |
| DeliveryTheorems.ReplayNeedsTheDlq | examples/Quan/internal/task/service.go:113-142 | an undisturbed replay makes the task runnable exactly when its id is in the dead-letter list, and DEAD otherwise |
| Recoverability.LostReplayStrands | examples/Quan/internal/task/service.go:122-131 | after a replay whose update is applied but not acknowledged the row is FAILED and invisible to every scan, and it can still succeed if and only if before the call some queue or thread, another replay call under way included, carried its id or one of its events was still to be sent |
| DeliveryScenarios.StrandingIsReachable | examples/Quan/internal/task/service.go:122-131 | a handler error, a failed retry schedule and such a replay reach a FAILED row that no fault-free schedule brings to SUCCESS |
| Recovery.Pass | examples/Quan/internal/task/compensator.go:129-182 | a compensation pass schedules at least one due row and recovers at least one stale RUNNING and one stale SUSPENDED row, if there is any, whatever the batch size |
| RecoveryPhases.Phase1 | examples/Quan/internal/task/compensator.go:129-182 | repeated passes leave no RUNNING or SUSPENDED row |
| RecoveryPhases.Phase3 | examples/Quan/internal/outbox/relay.go:121-177 | one relay, from wherever it stands, gets every event published and every task whose event it publishes into ready |
| Recoverability.Phase4 | examples/Quan/internal/task/queue.go:109-142 | the mover empties the retry set into ready, batch by batch |
| Recoverability.Phase5 | examples/Quan/internal/task/consumer.go:171-235 | a worker consumes the whole ready list; every id in it ends not runnable |
| Recoverability.Round | examples/Quan/internal/task/compensator.go:129-182 | a round of compensation, moving and consuming turns at least one FAILED row into SUCCESS |
| Recoverability.CarriedRecovers | examples/Quan/internal/task/queue.go:56-142 | a runnable task whose id is in ready or the retry set, with a worker, mover or compensator about to pass it on, with a relay about to push it, or with a replay call about to move it out of the dead-letter list, has a fault-free schedule to SUCCESS |
| Recoverability.StuckStep | examples/Quan/internal/task/service.go:113-142 | no fault-free step, those of replay calls under way included, frees a stuck task; a replay that does not find its id kills it |
| Recoverability.RecoverableUnlessStuck | examples/Quan/internal/task/compensator.go:129-182 | from every reachable state a task that is not SUCCESS or DEAD has a finite fault-free schedule to SUCCESS, in which replay calls under way may go on, if and only if it is not stuck |
| Recoverability.Recoverability | examples/Quan/internal/task/compensator.go:129-182 | in particular always under the documented faults, when it was never reopened and no popped id of it was lost before TryMarkRunning |
| DeliveryService.Pipeline.CreateTask | examples/Quan/internal/task/service.go:62-96 | a type and business id already in the unique index returns its task and writes nothing; otherwise row, index entry and event appear together: PENDING, with the configured budget or five, and an event due at once whose payload names the task |
| DeliveryService.Pipeline.TryMarkRunning | examples/Quan/internal/task/repository_state.go:11-35 | the conditional update and whether it affected the row |
| DeliveryService.Pipeline.MarkSuccess | examples/Quan/internal/task/repository_state.go:37-47 | the conditional update, under each outcome |
| DeliveryService.Pipeline.MarkSuspended | examples/Quan/internal/task/repository_state.go:49-59 | the conditional update, under each outcome |
| DeliveryService.Pipeline.MarkFailed | examples/Quan/internal/task/repository_state.go:101-159 | DEAD when the budget is used up, FAILED with its retry time otherwise, nothing when not RUNNING |
| DeliveryService.Pipeline.MarkRecoveredForRetry | examples/Quan/internal/task/repository_state.go:161-176 | RUNNING or SUSPENDED becomes FAILED and due now, without rechecking staleness |
| DeliveryService.Pipeline.MarkReplayReady | examples/Quan/internal/task/repository_state.go:61-87 | DEAD or FAILED becomes FAILED without a retry time; otherwise not found or not replayable |
| DeliveryService.Pipeline.RestoreDead | examples/Quan/internal/task/repository_state.go:89-99 | FAILED becomes DEAD |
| DeliveryService.Pipeline.PopReady | examples/Quan/internal/task/queue.go:91-107 | the head of ready moves into the worker's hands; an empty list changes nothing |
| DeliveryService.Pipeline.PushDlq | examples/Quan/internal/task/queue.go:52-54 | the id is appended to the dead-letter list, under each outcome |
| DeliveryService.Pipeline.ScheduleRetry | examples/Quan/internal/task/queue.go:83-89 | the id is in the retry set for its retry time, under each outcome |
| DeliveryService.Pipeline.FinishFailure | examples/Quan/internal/task/consumer.go:202-223 | after a failed handler the worker ends free; undisturbed with the specified effect |
| DeliveryService.Pipeline.FinishSuccess | examples/Quan/internal/task/consumer.go:225-231 | after a successful handler the worker ends free, with the suspension fallback when the mark fails |
| DeliveryService.Pipeline.ConsumeTask | examples/Quan/internal/task/consumer.go:193-235 | every execution, under any faults and interleaving, is a run of the transition system and frees the worker; undisturbed it has the specified effect |
| DeliveryService.ConsumeMeans | examples/Quan/internal/task/consumer.go:193-235 | that effect: SUCCESS if the handler succeeds, else DEAD and in the dead-letter list, or FAILED and in the retry set for exactly its retry time; nothing else changes |
| DeliveryService.FailedMarkMeans | examples/Quan/internal/task/consumer.go:225-231 | a success mark that fails leaves the row SUSPENDED, SUCCESS if it was applied all the same, RUNNING if the fallback fails too; no other row or queue changes |
| DeliveryService.Pipeline.ListRetry | examples/Quan/internal/task/queue.go:113-119 | the entries with a score up to now in score order, up to the batch size, all of them if fewer |
| DeliveryService.Pipeline.RemoveNext | examples/Quan/internal/task/queue.go:125-131 | the removal and whether it removed anything, under each outcome |
| DeliveryService.Pipeline.PushNext | examples/Quan/internal/task/queue.go:132 | the push to ready, under each outcome |
| DeliveryService.Pipeline.PutBack | examples/Quan/internal/task/queue.go:133-137 | the entry goes back into the retry set, due now |
| DeliveryService.Pipeline.MoveDueRetryToReady | examples/Quan/internal/task/queue.go:109-142 | every execution is a run; undisturbed exactly the scanned due entries move to the end of ready, in order, and are counted |
| DeliveryService.FailedMoveMeans | examples/Quan/internal/task/queue.go:132-137 | a push that fails puts the id back into the retry set, due at once, unless that write fails too; ready has the id exactly if the push was applied |
| DeliveryService.FailedRemovalEndsBatch | examples/Quan/internal/task/queue.go:125-128 | an error of the removal ends the batch; the entry is gone exactly if it was applied all the same |
| DeliveryService.Pipeline.RecoverStaleDispatching | examples/Quan/internal/outbox/repository.go:148-174 | the DISPATCHING events not updated for the dispatch timeout, oldest first, up to the batch size and all of them if fewer, become PENDING and stamped; no other event changes |
| DeliveryService.Pipeline.TryMarkDispatching | examples/Quan/internal/outbox/repository.go:95-109 | the conditional claim of an event |
| DeliveryService.Pipeline.ListDispatchable | examples/Quan/internal/outbox/repository.go:43-81 | the PENDING events whose retry time has come, in id order, up to the batch size and all of them if fewer, with the retry counts seen |
| DeliveryService.Pipeline.PublishReady | examples/Quan/internal/outbox/relay.go:164 | the push on the event's behalf, under each outcome |
| DeliveryService.Pipeline.MarkPublished | examples/Quan/internal/outbox/repository.go:111-121 | the conditional update, under each outcome |
| DeliveryService.Pipeline.MarkRetry | examples/Quan/internal/outbox/repository.go:123-134 | DISPATCHING becomes PENDING with the retry counted and delayed by the backoff of the count seen |
| DeliveryService.RetryMeans | examples/Quan/internal/outbox/repository.go:123-134 | in the event's fields: unchanged unless DISPATCHING and applied; else PENDING, one more failure counted, due between one and 256 bases from now, exactly one after the first failure |
| DeliveryService.Pipeline.SuspendEvent | examples/Quan/internal/outbox/repository.go:136-146 | an event with an unusable payload becomes SUSPENDED |
| DeliveryService.Pipeline.RelayIteration | examples/Quan/internal/outbox/relay.go:121-140 | one loop iteration, recovery then dispatch, is a run and leaves the relay idle |
| DeliveryService.Pipeline.DispatchOnce | examples/Quan/internal/outbox/relay.go:142-177 | every execution is a run; undisturbed every listed event is PUBLISHED and its task id appended to ready in order, and no other event changes |
| DeliveryService.DispatchedMeans | examples/Quan/internal/outbox/relay.go:142-177 | that dispatch in the events' fields: every listed event PUBLISHED and stamped, their task ids at the end of ready in list order, nothing else changed |
| DeliveryService.FailedClaimEndsBatch | examples/Quan/internal/outbox/relay.go:147-151 | an error while claiming ends the batch; the event is DISPATCHING exactly if the claim was applied all the same |
| DeliveryService.Pipeline.ListDueFailed | examples/Quan/internal/task/repository_query.go:36-53 | the FAILED rows whose retry time has come, in retry-time order, up to the batch size and all of them if fewer |
| DeliveryService.Pipeline.ListStaleSuspended | examples/Quan/internal/task/repository_query.go:55-72 | the SUSPENDED rows with updated_at at or before now minus the stale timeout, oldest first, up to the batch size and all of them if fewer |
| DeliveryService.Pipeline.ListStaleRunning | examples/Quan/internal/task/repository_query.go:74-91 | the RUNNING rows with updated_at at or before the same cut-off, oldest first, up to the batch size and all of them if fewer |
| DeliveryService.Pipeline.RecoverAll | examples/Quan/internal/task/compensator.go:147-166 | the recovery loops; undisturbed every listed row is recovered and becomes a candidate |
| DeliveryService.Pipeline.ScheduleAll | examples/Quan/internal/task/compensator.go:168-177 | the scheduling loop; undisturbed every candidate is in the retry set for the time read before it |
| DeliveryService.Pipeline.CompensateOnce | examples/Quan/internal/task/compensator.go:129-182 | every execution is a run; undisturbed exactly the RUNNING and SUSPENDED rows not updated for the stale timeout are recovered, all of them unless a batch was full, these and the due FAILED rows are scheduled for now, and no other row or entry changes |
| DeliveryService.PassMeans | examples/Quan/internal/task/compensator.go:129-182 | the same of the specification, from any state and for any results of the three scans, in the rows' fields |
| DeliveryService.CompensatedMeans | examples/Quan/internal/task/compensator.go:129-182 | that compensation, row by row: stale rows FAILED and due, everything found scheduled for now, nothing else changed |
| DeliveryService.Pipeline.ReplayDLQTask | examples/Quan/internal/task/service.go:113-142 | every execution is a run; undisturbed its effect and its reply are the specified ones |
| DeliveryService.Pipeline.ReplayFromDLQ | examples/Quan/internal/task/queue.go:56-69 | one copy leaves the dead-letter list for ready, or nothing happens |
| DeliveryService.FailedReplayMeans | examples/Quan/internal/task/service.go:132-140 | a replay whose move does not happen or is not acknowledged makes the reopened row DEAD, unless that write fails too, and does not take back a move that was applied all the same |
| DeliveryService.Scan | examples/Quan/internal/task/repository_query.go:36-107 | the first rows in key order up to the limit, each once |
| SqlSplitter.SplitStatements | pkg/mysql/migration.go:147-225 | the flag-driven loop equals the recursive single-mode lexer; at most one flag is ever set |
| SqlSplitter.StatementsSplitApart | pkg/mysql/migration.go:147-225 | statements of a grammar of plain characters and literals in single quotes, double quotes or backticks, with backslash escapes, joined by semicolons come back one by one: a semicolon outside all literals cuts, one inside does not |
| SqlSplitter.QuotedIsKept | pkg/mysql/migration.go:196-214 | for each of the three quotes, a literal with any content but its own unescaped quote, semicolons, comment starters, other quotes and escaped quotes included, leaves the text around it one statement |
| SqlSplitter.LiteralIsKept | pkg/mysql/migration.go:196-214 | such a literal alone is returned character for character |
| SqlSplitter.LineCommentIsDropped | pkg/mysql/migration.go:166-194 | two dashes drop everything up to the end of the line |
| SqlSplitter.HashCommentIsDropped | pkg/mysql/migration.go:166-194 | so does a hash |
| SqlSplitter.BlockCommentIsDropped | pkg/mysql/migration.go:166-194 | slash-star drops everything up to the first star-slash |
| SqlSplitter.SpacesAreTrimmed | pkg/mysql/migration.go:147-225 | exactly the 25 Unicode white-space characters are trimmed |
| SqlSplitter.SplitOfJoin | pkg/mysql/migration.go:147-225 | joining trimmed, non-empty, comment-free statements without top-level semicolons, quotes closed in all but the last, and splitting returns the list |
| SqlSplitter.SplitShape | pkg/mysql/migration.go:147-225 | every text splits into trimmed, non-empty statements without top-level semicolons and with closed quotes except in the last |
| SqlSplitter.SplitJoinSplit | pkg/mysql/migration.go:166-194 | split-join-split equals split if and only if the text without its comments is free of comments |
| SqlSplitter.CommentFreeIsStable | pkg/mysql/migration.go:147-225 | hence always on comment-free text, which the lexer keeps unchanged |
| SqlSplitter.StripThenSplit | pkg/mysql/migration.go:166-194 | under the same condition dropping comments first makes no difference |
| SqlSplitter.GluedComment | pkg/mysql/migration.go:166-194 | a comment between two dashes yields a statement that is itself a comment |
| TokenBucket.New | pkg/ratelimiter/limiter.go:22-36 | the bucket starts full with the configured rate and burst, each replaced by one if not positive |
| TokenBucket.LevelIsLeastRoom | pkg/ratelimiter/limiter.go:38-55 | at every call the tokens equal the least room any window ending there leaves |
| TokenBucket.GrantedExactlyWhenRoom | pkg/ratelimiter/limiter.go:38-55 | a call is granted if and only if for every window it ends the grants so far plus one are at most burst plus rate times the window's length |
| TokenBucket.WindowBound | pkg/ratelimiter/limiter.go:38-55 | the grants of any contiguous window number at most burst plus rate times the time between its first and last call |
| TokenBucket.GrantedKeepsTheRate | pkg/ratelimiter/limiter.go:38-55 | with the product written out: a granted call leaves every window it ends within the bound |
| TokenBucket.RefusedForTheRate | pkg/ratelimiter/limiter.go:38-55 | and a refused one would have broken the bound of some window |
| TokenBucket.SecondCall | pkg/ratelimiter/limiter.go:43-52 | with burst one the second of two calls is granted exactly when rate times the time between them is at least one |
| TokenBucket.CountIs | pkg/ratelimiter/limiter.go:38-55 | the grants counted are the number of granted calls in the window |
| TokenBucket.NoPolicyGrantsMore | pkg/ratelimiter/limiter.go:38-55 | no policy whose every window is within burst plus rate times length has granted more calls at any point |
| TokenBucket.Limiter.Allow | pkg/ratelimiter/limiter.go:38-55 | the in-place update grants the call exactly when it fits every window it ends, the bound written out in rate and burst as configured, and keeps tokens between 0 and burst |
| Bulkhead.StepKeepsInv | pkg/isolation/isolation.go:48-76 | every channel and counter operation of every request keeps the counters truthful and the bounds |
| Bulkhead.BulkheadSafe | pkg/isolation/isolation.go:48-76 | in every interleaving slot holders never exceed maxConcurrent, admitted waiters never exceed maxQueue, the counter overshoots only by requests about to undo, both counts are zero when no call is in flight, and release never blocks |
| Bulkhead.JoinRefusedExactlyWhen | pkg/isolation/isolation.go:59-62 | joining is refused exactly when admitted plus overflowing requests fill the waiting room |
| Bulkhead.RefusedThoughNobodyWaits | pkg/isolation/isolation.go:59-62 | so a request can be refused while nobody waits |
| Bulkhead.CallsEnd | pkg/isolation/isolation.go:48-76 | without new arrivals every schedule is finite and every unfinished call can go on |
| Bulkhead.Limiter.Acquire | pkg/isolation/isolation.go:48-76 | with arbitrary steps of other requests in its gaps it is a run of the protocol and ends holding a slot or outside; a free slot is taken at once |
| Bulkhead.Limiter.Await | pkg/isolation/isolation.go:63-75 | the second select and the deferred decrement, with other requests in the gaps |
| Bulkhead.Limiter.Release | internal/middleware/isolation.go:22-28 | the single release gives the slot back |

## Left out

- HTTP handlers, request parsing, JSON responses, metrics, logging, tracing, error codes, middleware chaining, configuration, component start and stop, the goroutine pool: they pass requests and results along and touch no claim, stock, task, event or queue state of their own.
- Mixed deployments in which MySQL-only and Redis claims hit one campaign, eviction of Redis campaign keys, and ambiguous commits are outside the cross-store results; the ledger results cover the first.
- Collation and truncation: keys and business ids are compared character by character; the case-insensitive collation and the column width of the idempotency key are not modelled.
- Time is an integer number of milliseconds (real seconds in the token bucket); sub-millisecond parts, which MySQL and Redis round differently, are not modelled. Redis integers do not overflow.
- Row ids handed out by auto-increment columns, reservation ids, clock readings and the environment's choices are parameters.
- The JSON decoder accepts only an object whose one member is an integral task_id, which is what the service writes.
- In `Delivery` a Redis command is applied at most once: the Redis client's own retry after a network error, under which RPUSH can append twice and ZREM can remove and then report zero, is modelled only in ClaimProtocol.
- Validation of task requests (blank type or business id, empty payload).
- Column lengths, last_error texts and created_at play no role in any transition and are omitted.
- The unused queue operation RollbackReplay, GetMyClaim, task lookup and counting pending events.
- The migrator's file discovery, checksums, metadata table and statement execution; decoding of invalid UTF-8 (text is a sequence of Unicode characters).
- ClaimRefinement.FastClaimAgrees: one clock reading serves all steps of a request; with separate readings the two paths can straddle a campaign's start or end differently.
- ClaimProtocol.AdmittedIsNeverRejected: the already-claimed and limit-reached part is for users without claims at the start, because Redis counts start at zero; PriorClaimsAreCaught says exactly what happens to the others.
- ClaimService.Service.ClaimWithRedis: sequential and fault-free; interleaving and faults are the subject of ClaimProtocol.
- ClaimService.Service.Claim: likewise, and one clock reading serves both attempts.
- ClaimService.Repository.End: a panic of the callback, which rolls back and goes on panicking, is not modelled.
- SqlSplitter.SplitStatements: the quote-flag updates are a helper method of the loop.
- TokenBucket.Limiter.Allow: arithmetic is exact; floating-point rounding is not modelled, and the clock must not go backwards, as Go's monotonic clock guarantees.
