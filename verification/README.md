# A verified model of the eddyq job queue

eddyq is a job queue that many processes share through one Postgres database. This project models its
protocol: the tables (jobs, groups, queues, batches, group rules), every transaction that writes them, the
claim protocol at two levels, the fetcher/worker handshake inside one process, and the smaller protocols
beside it (leader lease, cached statistics, retention, schedules, error truncation). Properties are proved
for every input, every run and every interleaving.

## How it is put together

| file | what it holds |
|---|---|
| `Tables.dfy`, `Decimal.dfy` | rows, running-count lanes, queue names, callback keys and their texts |
| `Lifecycle.dfy` | each transaction as a function on the committed tables, and runs of them |
| `Columns.dfy` | what each statement must do to each column, spelled out over the tables alone |
| `Inserts.dfy`, `Endings.dfy` | the lemmas that tie `Lifecycle` to `Columns` |
| `Store.dfy` | the same transactions as statement sequences on mutable tables, each proved to do what `Lifecycle` says and what `Columns` says, rollbacks included |
| `Counters.dfy` | `running_count` is always the number of running jobs |
| `UniqueKeys.dfy` | no two live jobs ever share a kind and a unique key |
| `Books.dfy`, `FanIn.dfy` | batch counters and the exactly-once callback, against an archive of everything ever committed |
| `Executions.dfy` | the life of one job: shape of its row, terminal states, late verdicts, bounded executions |
| `Sweep.dfy` | the grouped recovery statement against recovery one row at a time |
| `Wedge.dfy` | a run into a batch that can never complete |
| `Rows.dfy` | queue and group rows are never deleted, and only operators change caps and rates |
| `Budgets.dfy`, `TokenBucket.dfy`, `Walk.dfy` | queue budgets, the rate limit, the loose index scans |
| `ClaimBatch.dfy` | `claim_batch` with its loops and maps, run by one fetcher around the locks of its peers |
| `Interleaving.dfy` | any number of fetchers interleaving phase by phase, with row locks and atomic commits |
| `Caps.dfy`, `LateCap.dfy`, `RateLimits.dfy` | caps and rate limits over all those interleavings, and the run in which a late cap is exceeded |
| `Bridge.dfy` | an uninterrupted claim of `ClaimBatch` is a run of `Interleaving` |
| `Composition.dfy` | interleavings are runs of whole transactions, so the theorems about those apply |
| `Permits.dfy`, `Lease.dfy`, `StatsCache.dfy`, `Retention.dfy`, `Schedules.dfy`, `Truncation.dfy` | one protocol each |

`dafny verify dfyconfig.toml` checks everything.

## What was found

- **Bounded executions fail for late verdicts.** `max_attempts` is compared with the attempt number a handler
  was given at its claim, and the fence on verdicts is per process. A process that claims a job, loses it to a
  sweep and claims it again can have the first handler's failure land on the second claim and retry past the
  limit. `Executions.LateRetryOverruns` is such a run; `Executions.AttemptsStayWithinIff` says exactly which
  runs stay within the limit and `Executions.ClaimsStayWithinIff` which claims go over budget. That a job is claimed `attempt` plus recovered stalls times holds in every run.
- **A batch whose callback names an invalid queue never completes.** `on_complete` is stored unchecked, so the
  transaction that would settle the last job fails and rolls back, every time
  (`FanIn.InvalidCallbackNeverCompletes`; `FanIn.SettleFailsIff` is the exact condition). One such batch also
  rolls back a sweep for every other stale job; `Sweep.SweepGoesThroughIff` gives the exact condition.
  `Wedge.BadCallbackWedges` is a run into both.
- **A cap survives every edit but two.** `Caps.CapsNeverExceeded` needs no fixed caps: a row stays within
  its cap unless an operator sets the cap below what is running, or caps an unlimited queue, whose row no claim
  locks, while a fetcher that serves it is in the middle of a claim. The second is the over-admission the comment
  at crates/eddyq-core/src/fetch.rs:178-182 accepts; `LateCap.LateCapOverAdmits` is such a run. Groups have
  no such window, because a claim holds the lock of every group row it takes from.
- **A job held twice by one process loses its heartbeat.** When the first handler ends it removes the id from
  `in_flight` although the second copy still waits (`Permits.CoverageLapses`); coverage lasts in exactly the runs
  where no handler ends with its id held twice (`Permits.CoverageHoldsIff`).
- The comment at crates/eddyq-core/src/queue.rs:810 says reclaiming increments `attempt`; the statement
  decrements it, and the model follows the statement.

## Modelling choices

- Every transaction is specified twice. `Lifecycle` gives it as a function, which the theorems over runs use;
  `Columns` says column by column what the rows must become, without those functions. The methods of `Store`,
  `ClaimBatch`, `Retention` and `Schedules` are proved against both. Where a new row could overwrite an old one the
  column account assumes that ids come from a sequence (`Columns.Sequenced`), which holds in every state of every
  run (`Counters.CountersAlwaysExact`).
- Times are integer milliseconds and arguments: each transaction is given its `NOW()`, which stays the same until
  it commits, and claims also the process clock used for token refill, which may step back.
- Token balances are reals. Counters are integers with the column's upper bound written out (`ClaimFits`);
  the lower bound never matters because no counter goes negative.
- A transaction that returns an error before its commit changes nothing.
- A unique key is either the callback key of a batch or any other text; `Tables.KeyEncoding` shows that
  comparing these is comparing the texts.
- A group key's best-matching rule is given by a map; matching patterns is not modelled.
- `HashMap` iteration and row order where the SQL gives none are nondeterministic choices in the loops.
- Fan-in assumes that callers leave `batch_id` and the texts of callback keys to the batch machinery
  (`FanIn.Honest`).
- The claim of `Interleaving` over-approximates the database: locking reads may skip any row, rows are locked
  one at a time, completions and sweeps may land between a lock and its commit, a fetcher may roll back anywhere,
  rows may appear and operators may edit anything at any moment. Other transactions wait only on job rows that a
  fetcher holds, and operators' edits also on the queue or group row they write, as their upserts do.
- `ClaimBatch.Choose` uses the set of due keys where the code runs one of two recursive queries;
  `Walk.WalksAgree` shows that both return that set on every list of queues.

## Model

| member | source | states |
|---|---|---|
| Counters.CountersAlwaysExact | crates/eddyq-core/src/fetch.rs:545-611 | over every run of enqueues, batches, claims, verdicts, cancels, sweeps, admin edits and cleanup, each group and queue counter equals the number of running jobs under it, a group without a row has none running, and repair is a no-op |
| Counters.StepKeeps | crates/eddyq-core/src/fetch.rs:964-978 | every transaction keeps all counters exact and only claims start jobs |
| Counters.FloorsNeverBite | crates/eddyq-core/src/fetch.rs:1075-1090 | no `GREATEST(running_count - n, 0)` ever clips an exact counter |
| Counters.RepairSettles | crates/eddyq-core/src/fetch.rs:1142-1202 | from any drifted state repair leaves no counter above the truth, changes something iff one was, and is done in one pass |
| Counters.RepairIsIdle | crates/eddyq-core/src/fetch.rs:1146-1202 | on exact counters repair changes nothing |
| Counters.AdminKeeps | crates/eddyq-core/src/named_queue.rs:66-103 | queue rows seeded from the live count and group upserts keep every counter exact |
| FanIn.ExactlyOnce | crates/eddyq-core/src/batch.rs:112-262 | at every point of every run each batch ever enqueued has counters equal to how many of its jobs ended each way, is complete exactly when they sum to its size, and has exactly one callback, with those final counts in its payload, if complete and asked for, else none |
| FanIn.StepKeeps | crates/eddyq-core/src/fetch.rs:979-982 | every transaction, whichever path settles the last job, keeps all batch books right |
| FanIn.JournalIsRight | crates/eddyq-core/src/batch.rs:1-9 | the books invariant holds after every step of every run, deleted jobs and batches included |
| FanIn.FireDecides | crates/eddyq-core/src/batch.rs:223-262 | claiming the callback closes a batch that adds up, with its one callback, and otherwise changes nothing |
| FanIn.RecoverKeeps | crates/eddyq-core/src/fetch.rs:1036-1119 | a sweep that fails several jobs of several batches leaves every batch right |
| FanIn.BatchedKeeps | crates/eddyq-core/src/batch.rs:70-162 | a new batch counts exactly the jobs inserted; an empty or all-skipped one completes and fires at once |
| FanIn.InvalidCallbackNeverCompletes | crates/eddyq-core/src/batch.rs:76-79 | a batch whose callback names an invalid queue is incomplete at every point of every run, with a job that never ends |
| FanIn.SettleFailsIff | crates/eddyq-core/src/enqueue.rs:337-339 | settling rolls back iff it is for the last job of an unclaimed batch whose callback names an invalid queue |
| Wedge.LastVerdictFails | crates/eddyq-core/src/fetch.rs:979-982 | neither completing nor failing the last job of such a batch ever commits |
| Wedge.BadCallbackWedges | crates/eddyq-core/src/batch.rs:76-79 | a run of commits by honest callers after which the batch's job can be neither completed nor failed at any time, and every sweep holding it also fails to recover the other stale job |
| Books.MoveKeeps | crates/eddyq-core/src/batch.rs:174-215 | moving any set of jobs and bumping rows by exactly those that ended keeps every tally |
| Books.CloseAndAnnounce | crates/eddyq-core/src/batch.rs:228-260 | closing a batch that adds up and inserting its callback decides it and disturbs no other batch |
| Books.CallbackAnnounces | crates/eddyq-core/src/batch.rs:268-294 | the callback carries batch id and counts under `_eddyq_batch` and keeps the user's payload |
| Tables.CallbackTextInjective | crates/eddyq-core/src/batch.rs:292-292 | no two batches share a callback key text |
| Tables.KeyEncoding | crates/eddyq-core/src/batch.rs:292-292 | comparing modelled unique keys is comparing their texts |
| Executions.EndsOnce | crates/eddyq-core/src/fetch.rs:665-677 | a job makes at most one terminal transition over any run |
| Executions.TerminalAbsorbs | crates/eddyq-core/src/fetch.rs:945-956 | a finished job never changes state, and a deleted one never comes back |
| Executions.LateVerdictsAreInert | crates/eddyq-core/src/fetch.rs:1326-1394 | once a fetcher has lost a job its verdicts on it change no table at all until it claims it again |
| Executions.RetriesWaitTheirTime | crates/eddyq-core/src/fetch.rs:1326-1334 | over any run a job retried to `t` is pending for `t`, and no claim with a database time before `t` takes it until another retry lands |
| Executions.SweepTakesTheQuiet | crates/eddyq-core/src/fetch.rs:1050-1057 | a sweep leaves a running job untouched whose heartbeat is no older than the limit, and takes every other running job away from its worker with one more stall |
| UniqueKeys.LiveKeysAreUnique | crates/eddyq-core/migrations/20260421000001_init.up.sql:50-52 | in every reachable state no two pending or running jobs share a kind and a unique key |
| UniqueKeys.StepKeeps | crates/eddyq-core/src/enqueue.rs:342-346 | every transaction, callbacks and bulk inserts included, keeps live keys distinct |
| Executions.RowsAreWellShaped | crates/eddyq-core/src/fetch.rs:1050-1057 | in every reachable state exactly running rows have a worker and a heartbeat and exactly finished rows a finish time |
| Executions.ClaimsAreAttemptsPlusRecoveries | crates/eddyq-core/src/fetch.rs:1040-1049 | in every run a job's claims number its attempt plus its recovered stalls, and recoveries stay within their budget |
| Executions.AttemptsStayWithinIff | crates/eddyq-core/src/runtime.rs:783-797 | jobs never exceed their attempts iff every retry that lands finds the row's own attempt below the limit |
| Executions.ExecutionsAreBounded | crates/eddyq-core/src/runtime.rs:477-483 | then claims never exceed max(1, max_attempts) + max(0, max_stalled_count), and a measure that drops with every change of state ends at a terminal one |
| Executions.PromptIsWithin | crates/eddyq-core/src/runtime.rs:783-797 | verdicts without directives decided on the current claim retry only within the limit |
| Executions.ClaimsStayWithinIff | crates/eddyq-core/src/fetch.rs:529-537 | no job is ever claimed more often than its budget iff every claim finds attempt plus stalled_count below it in the row |
| Executions.LateRetryOverruns | crates/eddyq-core/src/runtime.rs:249-249 | a run from the empty database without directives in which a late verdict of the same process causes one claim over the budget |
| Executions.AttemptFloorNeverBites | crates/eddyq-core/src/fetch.rs:1043-1044 | `GREATEST(attempt - 1, 0)` is never needed |
| Sweep.SweepRefinesOneByOne | crates/eddyq-core/src/fetch.rs:1036-1119 | in any order of stalling the rows singly, the grouped statement and its callback claims roll back iff that does, and otherwise leave the same jobs, counters, batches and callbacks (up to new ids) |
| Sweep.SweepGoesThroughIff | crates/eddyq-core/src/fetch.rs:1117-1119 | a sweep commits iff no batch it finishes has a callback on an invalid queue |
| Sweep.InvIsReady | crates/eddyq-core/src/batch.rs:174-215 | every reachable state meets what the refinement needs |
| Caps.CapsNeverExceeded | crates/eddyq-core/src/fetch.rs:194-261 | a queue or group whose row is within its cap at the start is there and within its cap in every state of every interleaving, rows appearing and operators editing anything meanwhile, unless an edit undercuts that very cap; full, paused and default rows are never locked |
| LateCap.LateCapOverAdmits | crates/eddyq-core/src/fetch.rs:178-182 | a run in which capping an unlimited queue in the middle of a claim, with nothing running, is followed by a start over the cap |
| Caps.StepIsSafe | crates/eddyq-core/src/fetch.rs:459-507 | every move of any fetcher and every other transaction but an edit undercutting the row's cap keeps the row within it and every fetcher's share of it fitting |
| Rows.CapStays | crates/eddyq-core/src/named_queue.rs:66-103 | every transaction leaves a queue or group row in place, and only an operator's edit of that row moves its cap |
| Rows.GroupStays | crates/eddyq-core/src/group.rs:251-276 | between claims a group row changes only in its counter, unless an operator edits that very group |
| Interleaving.MovesRefineTransactions | crates/eddyq-core/src/fetch.rs:526-613 | on the committed tables a move is nothing or one whole enabled transaction |
| RateLimits.StartsAreRateBounded | crates/eddyq-core/src/fetch.rs:553-594 | over any stretch of any interleaving in which nobody edits a group's rate its starts stay within burst plus accrual, backward clock steps counted |
| RateLimits.TokensAlwaysInRange | crates/eddyq-core/src/fetch.rs:398-402 | a group row's balance, when rate-limited, stays in [0, rate_count] in every state, through any edits of its rate |
| RateLimits.NewLimitStartsFull | crates/eddyq-core/src/group.rs:220-276 | a new limit, by rule or by operator, starts with a full bucket |
| TokenBucket.RateBound | crates/eddyq-core/src/fetch.rs:392-418 | any run of admissible claims from any balance is within rate_count plus rate times elapsed and backward time |
| TokenBucket.FullAfterPeriod | crates/eddyq-core/src/fetch.rs:397-410 | a full period after the last write the next poll may start rate_count jobs, concurrency permitting |
| TokenBucket.NothingIsLost | crates/eddyq-core/src/fetch.rs:553-594 | short of the burst, what was not spent and what accrued are all still there at any later poll |
| TokenBucket.SlotIsRoom | crates/eddyq-core/src/fetch.rs:392-418 | a group row's slots and balance are the formula over its columns: free concurrency, within the floor of tokens plus elapsed time times rate_count over rate_period, clipped to [0, rate_count] |
| TokenBucket.LazyRefinesEager | crates/eddyq-core/src/fetch.rs:553-594 | on a clock that does not go back, refilling only when something is claimed shows every poll the tokens of the scheme that at every poll adds what accrued since the last, up to the burst |
| Bridge.ClaimIsARun | crates/eddyq-core/src/fetch.rs:142-613 | whatever `claim_batch` chooses around any peers' locks, with no other commit between its phases, is a run of one fetcher's moves ending in the same commit |
| Bridge.ClaimBatchKeepsCaps | crates/eddyq-core/src/fetch.rs:164-175 | so such a claim at any moment of any interleaving leaves each row that was within its cap exact and within it, whatever peers have already chosen |
| Composition.InterleavingIsATrace | crates/eddyq-core/src/fetch.rs:136-141 | every interleaved run, whatever rows appear and operators edit, is a run of whole transactions in commit order |
| Composition.QuietTraceIsARun | crates/eddyq-core/src/fetch.rs:136-141 | and every run of transactions other than claims happens between idle fetchers |
| Composition.FanInUnderInterleaving | crates/eddyq-core/src/batch.rs:164-173 | the fan-in books stay right at every state of every interleaving |
| Composition.BatchesTellTheTruth | crates/eddyq-core/src/batch.rs:19-35 | so each batch row there is exact and has its one callback when due |
| Composition.JobsEndOnce | crates/eddyq-core/src/fetch.rs:939-943 | at most one terminal transition per job over any interleaving |
| ClaimBatch.ReadBudgets | crates/eddyq-core/src/fetch.rs:194-253 | the unlocked read and conditional locking re-read give each subscribed row the room its columns leave, or nothing if it binds and a peer holds it, and each queue's timeout if it is positive |
| ClaimBatch.TakeUngrouped | crates/eddyq-core/src/fetch.rs:262-307 | per queue the best-ranked ungrouped jobs within budget and batch size; if none were taken there were none to take |
| ClaimBatch.LockGroups | crates/eddyq-core/src/fetch.rs:375-454 | slots and balances from the columns for every active group except those whose row a peer holds; absent rows are unlimited |
| ClaimBatch.TakeFromGroup | crates/eddyq-core/src/fetch.rs:465-507 | one group's best candidates within slots and queue budgets, dropping only those whose queue ran out |
| ClaimBatch.TakeGrouped | crates/eddyq-core/src/fetch.rs:459-507 | the same for all groups in any order; nothing taken means no group could give anything |
| ClaimBatch.Choose | crates/eddyq-core/src/fetch.rs:142-512 | in the columns: claimed jobs are due, pending, unlocked, within batch size and every row's room; no unclaimed ungrouped job outranks a claimed one of its queue; distinct for distinct queue names; something is chosen whenever a job may start |
| ClaimBatch.CountDeltas | crates/eddyq-core/src/fetch.rs:545-552 | the deltas count each updated row once, whatever the accepted list repeats |
| ClaimBatch.UpsertGroups | crates/eddyq-core/src/fetch.rs:553-594 | group rows get their delta and, when rate-limited, the refilled balance less the starts |
| ClaimBatch.BumpQueues | crates/eddyq-core/src/fetch.rs:597-611 | existing queue rows get their delta; no row is created |
| ClaimBatch.ChoiceFits | crates/eddyq-core/src/fetch.rs:376-418 | a choice never drives an INTEGER counter out of range |
| ClaimBatch.HandOut | crates/eddyq-core/src/fetch.rs:615-646 | each claimed job is handed out with its updated row's fields, the fetcher's id and its queue's timeout |
| ClaimBatch.ClaimByColumns | crates/eddyq-core/src/fetch.rs:526-611 | claimed rows run under the worker with one more attempt and a fresh heartbeat; queue and group rows count them, rate-limited rows pay for them at the refilled balance, new group rows are unlimited |
| ClaimBatch.ClaimBatch | crates/eddyq-core/src/fetch.rs:142-646 | the whole claim: a sound and fair choice, the exact new columns, what workers are handed, no error on INTEGER rows, and at least one job whenever one may start |
| Walk.GroupWalkIsDistinct | crates/eddyq-core/src/fetch.rs:56-81 | the first recursive walk ends and returns exactly the distinct due keys, strictly increasing |
| Walk.GroupWalkByQueueIsDistinct | crates/eddyq-core/src/fetch.rs:91-119 | the second visits strictly increasing (queue, key) pairs and has the same distinct keys |
| Walk.WalksAgree | crates/eddyq-core/src/fetch.rs:333-347 | the two walks agree on any list of queues |
| Store.Store.Insert | crates/eddyq-core/src/enqueue.rs:337-376 | rejected with no write iff the name breaks the rule, skipped iff a pending or running job has its kind and key, else inserted under the next id column by column with its group's rule materialised |
| Store.Store.InsertBulk | crates/eddyq-core/src/enqueue.rs:412-566 | one bad name rejects the lot; else exactly the rows without a live twin before or an earlier twin in the lot go in, in order, and every group asked for is materialised |
| Inserts.TwinCameFrom | crates/eddyq-core/src/enqueue.rs:461-470 | a twin met at a row's turn was live before or is an earlier row of the lot |
| Inserts.TwinIsMet | crates/eddyq-core/src/enqueue.rs:461-470 | and a twin known beforehand is met, even one that was itself skipped |
| Store.Store.MaterializeFromRule | crates/eddyq-core/src/group.rs:220-247 | a row is created from the best rule only where there was none |
| Store.Store.EnqueueBatch | crates/eddyq-core/src/batch.rs:56-162 | the batch row, its marked jobs and an immediate callback go in together, or, exactly on a bad name that matters, not at all |
| Store.Store.SettleTerminal | crates/eddyq-core/src/batch.rs:174-215 | one counter is bumped and, when the batch adds up, its callback claimed |
| Store.Store.TryClaimAndFire | crates/eddyq-core/src/batch.rs:223-262 | only an unclaimed batch that adds up is closed, now, and its callback inserted column by column as asked for, with counts and duration in its payload |
| Store.Store.MarkCompleted | crates/eddyq-core/src/fetch.rs:933-986 | for a job running under the caller: its row completed, its slots back, its batch told and closed if due, every other row as it was; otherwise, or on error, no change |
| Store.Store.MarkFailed | crates/eddyq-core/src/fetch.rs:1312-1397 | the same for a terminal failure; a retry puts the row back pending for exactly the retry time, every other column kept, and settles nothing |
| Store.Store.CancelPending | crates/eddyq-core/src/fetch.rs:657-686 | cancels exactly pending jobs and reports whether it did |
| Store.Store.SweepStale | crates/eddyq-core/src/fetch.rs:1024-1123 | exactly the running rows with no heartbeat or one older than the limit are recovered and counted, with their slots and their batches' failures; every other row stays; or all rolls back |
| Store.Store.Reclaim | crates/eddyq-core/src/fetch.rs:1216-1306 | the same for exactly those of the given ids that are running |
| Endings.StatementThenFires | crates/eddyq-core/src/fetch.rs:1036-1119 | the recovery statement and its callbacks leave each row recovered or untouched, each counter its slots, each batch its failures, closed iff they were its last |
| Store.Store.ReconcileCounters | crates/eddyq-core/src/fetch.rs:1146-1202 | each counter above its live count is lowered to it and no other column changes; returns (0, 0) iff nothing changed |
| Store.Store.Heartbeat | crates/eddyq-core/src/fetch.rs:990-1005 | row by row: the running rows among the ids get the new heartbeat, whoever holds them, everything else stays, and the count is of rows stamped |
| Store.Store.SetQueue | crates/eddyq-core/src/named_queue.rs:66-153 | one column set; a new row is seeded from the live count, an existing counter never written |
| Store.Store.SetGroup | crates/eddyq-core/src/group.rs:28-61 | one setting written; a rate starts full; an existing counter is never written; clearing a rate creates no row |
| Permits.PermitsAreConserved | crates/eddyq-core/src/runtime.rs:283-326 | in every interleaving idle permits, jobs in hand, in the channel and in workers add up to the workers; `expect` never panics and the send always has room |
| Permits.StepConserves | crates/eddyq-core/src/runtime.rs:519-526 | every step of fetcher or worker conserves permits |
| Permits.JobsAreConserved | crates/eddyq-core/src/runtime.rs:283-326 | in every interleaving a job is in the fetcher's hands, the channel or handlers exactly as often as it was claimed less the times a handler of it ended; a poll asks for min(batch, idle) |
| Permits.PermitComesBack | crates/eddyq-core/src/runtime.rs:386-397 | one job claimed, handled and ended leaves the process as it was |
| Permits.CoverageHoldsIff | crates/eddyq-core/src/runtime.rs:318-322 | every job in channel or handler is in `in_flight` throughout a run iff every handler that ends finds its id held nowhere else |
| Permits.UnregisterKeepsCoverIff | crates/eddyq-core/src/runtime.rs:453-457 | the end of a handler keeps coverage iff its id is held nowhere else in the process |
| Permits.CoverageLapses | crates/eddyq-core/src/runtime.rs:453-457 | a run in which a job claimed twice by one process is left without a heartbeat |
| Lease.LeaseExcludes | crates/eddyq-core/src/leader.rs:14-46 | after A wins at t nobody else wins up to t plus its lease unless A resigns, over any events |
| Lease.RivalsChangeNothing | crates/eddyq-core/src/leader.rs:21-38 | no rival can extend, shorten or steal a lease that is not up |
| Lease.ResignationFrees | crates/eddyq-core/src/leader.rs:51-56 | after the holder resigns the first to ask strictly later wins |
| Lease.LeaseEnds | crates/eddyq-core/src/leader.rs:21-38 | once a lease is up unrefreshed the first worker to ask wins |
| Lease.LeaderTable.TryElect | crates/eddyq-core/src/leader.rs:14-46 | wins iff there is no row, it has expired or is the caller's own, and then holds it for lease_secs from now; a loser changes nothing; other roles are left alone |
| Lease.LeaderTable.Resign | crates/eddyq-core/src/leader.rs:51-56 | ends the holder's own lease and nothing else |
| StatsCache.ReturnsOnePastInstant | crates/eddyq-core/src/stats.rs:77-125 | every histogram returned under any interleaving is the true one at one past instant no earlier than its stamp |
| StatsCache.RescansOnlyWhenDue | crates/eddyq-core/src/stats.rs:98-107 | a rescan happens only under the lock with the snapshot missing or past its TTL |
| StatsCache.ReadersFindASnapshot | crates/eddyq-core/src/stats.rs:73-97 | a reader never finds an empty cache, the first caller included |
| StatsCache.OneRefresher | crates/eddyq-core/src/stats.rs:84-95 | at most one caller refreshes at a time |
| StatsCache.JudgedByAge | crates/eddyq-core/src/stats.rs:77-100 | a snapshot younger than the TTL is served, an older one refreshed by whoever gets the lock, a missing one waited for; under the lock the age is judged again |
| StatsCache.RefreshGoesThrough | crates/eddyq-core/src/stats.rs:98-125 | a refresher under the lock commits the counts of its scan with its own start as stamp and lets the lock go |
| StatsCache.HistogramCounts | crates/eddyq-core/src/stats.rs:104-113 | the scan has one cell per queue and terminal state in use, with the number of its jobs |
| Retention.EitherOrder | crates/eddyq-core/src/fetch.rs:807-832 | the combined delete is age first then count, and count first then age |
| Retention.KeptAreNewest | crates/eddyq-core/src/fetch.rs:785-806 | every kept row is newer than every deleted one |
| Retention.CountKeepsNewest | crates/eddyq-core/src/fetch.rs:785-806 | a count limit keeps exactly min(count, rows), for every tie-break |
| Retention.SecondPassIsIdle | crates/eddyq-core/src/fetch.rs:758-834 | a second pass at the same time deletes nothing |
| Retention.CleanIsIdempotent | crates/eddyq-core/src/fetch.rs:725-756 | so does a second whole cleanup, jobs and batches |
| Retention.CleanupIsAllowed | crates/eddyq-core/src/fetch.rs:836-900 | no live job and no pending batch is ever deleted |
| Retention.CleanDeletesTheDoomed | crates/eddyq-core/src/fetch.rs:725-756 | each state loses exactly its own doomed rows and live jobs only a deleted batch's id |
| Retention.CleanupJobsState | crates/eddyq-core/src/fetch.rs:758-834 | a row goes iff it is in that state, finished and past a limit: more than `secs` seconds ago, or with at least `count` rows finished after it; the count returned is the rows gone, and it is a step of the lifecycle |
| Retention.CleanupBatches | crates/eddyq-core/src/fetch.rs:836-900 | the same for complete batches; jobs that pointed at a deleted row lose its id and nothing else |
| Retention.Cleanup | crates/eddyq-core/src/fetch.rs:725-756 | the whole pass and its four counts |
| Schedules.SyncLeavesDeclared | crates/eddyq-core/src/schedule.rs:219-288 | after a sync exactly the declared names remain, each as declared |
| Schedules.SecondSyncIsIdle | crates/eddyq-core/src/schedule.rs:216-218 | a second sync, however late, moves no next run and deletes nothing |
| Schedules.SyncUpserts | crates/eddyq-core/src/schedule.rs:86-104 | each declared row is written column by column: next run kept iff the expression is unchanged, last run and switch kept, a new row enabled |
| Schedules.NothingStaysDue | crates/eddyq-core/src/schedule.rs:363-390 | on one clock a tick leaves nothing due and every row with one trigger |
| Schedules.FiringIsEnqueue | crates/eddyq-core/src/schedule.rs:346-358 | a fired schedule is an ordinary enqueue |
| Schedules.ScheduleTable.UpsertCron | crates/eddyq-core/src/schedule.rs:71-127 | bad input writes nothing; the row becomes what is declared, keeping its next run iff the expression is unchanged |
| Schedules.ScheduleTable.UpsertInterval | crates/eddyq-core/src/schedule.rs:134-186 | the same for intervals, which must be positive |
| Schedules.ScheduleTable.Sync | crates/eddyq-core/src/schedule.rs:219-288 | one bad declaration changes nothing; else the declared rows remain and the deleted names are returned |
| Schedules.ScheduleTable.Tick | crates/eddyq-core/src/schedule.rs:323-403 | exactly one job per enabled schedule due by now, however late, with the schedule's columns; each row advanced from now; or an error and no change; nothing without the lock |
| Truncation.Truncate | crates/eddyq-core/src/error.rs:139-162 | the input, or the longest well-formed prefix within the reserve, giving up at most three bytes, plus the marker whose number reads back as exactly the bytes dropped; fits iff the input or its marker does |
| Truncation.BoundarySplits | crates/eddyq-core/src/error.rs:150-152 | character boundaries are exactly the cuts into two well-formed texts |
| Truncation.BoundaryNear | crates/eddyq-core/src/error.rs:150-152 | a boundary is never more than three bytes below |
| Truncation.MarkerInjective | crates/eddyq-core/src/error.rs:160-162 | no two amounts share a marker |
| Decimal.ReadShow | crates/eddyq-core/src/error.rs:160-162 | decimal rendering reads back and is not padded |
| Decimal.ShowWidthMonotone | crates/eddyq-core/src/error.rs:147-149 | a marker sized for the whole input is the widest it can need |

## Left out

- The Redis backend, the language bindings, the client, the command line, the NestJS package, the dashboard and the benchmarks: plumbing and delegation.
- Typed enqueues, the SQL enqueue functions of the migrations and listing queries: thin variants of what is modelled.
- Wakeups (LISTEN/NOTIFY), idle backoff, jitter and retry delays: they affect when things happen, not what is committed.
- Tags, metadata, results and the stored error log: no modelled statement reads them.
- Matching group keys against rule patterns, and rules with a negative cap, which the table's check would reject.
- The pool-based single enqueue is one step here; in the code its insert and its rule lookup are two statements.
- Cap safety of a row that appears in the middle of a run, before the fetchers then in the middle of a claim are done: like capping an unlimited queue, it can over-admit once.
- Rounding of token balances, which the code keeps as doubles.
- Interval arithmetic overflow and calendar effects in timestamps; cron parsing is an oracle.
- Which `is_leader` flags are up: the flags can outlive the lease, so only the lease is claimed.
- The grouped lane does not refill candidates it drops, so maximality of a claim is not claimed, only progress.
- Shutdown ordering of the tasks, handler timeouts and panics.
- `clean_jobs`, the ad-hoc deletion of one state with a limit: a `ReapJobs` step of the lifecycle, without its order and limit.
- Bridge.ClaimIsARun: covers a claim during which no other transaction commits; the loops of `ClaimBatch` read one committed state, while claims whose phases see different ones are covered by `Interleaving` directly.
- Schedules.NothingStaysDue: assumes the process clock has not fallen behind the database's, since next runs are computed from the former and compared with the latter.
