/** What each statement must do to the columns of the tables, spelled out over the tables alone.
    Nothing here uses the functions that specify the transactions, so the contracts of the
    methods tie those functions to a second, independent account. */
module Columns {
  import opened Tables

  // ---- Names, keys and new jobs ----

  /** `validate_queue_name`. */
  ghost predicate NameAccepted(name: string) {
    1 <= |name| <= 64
    && forall i :: 0 <= i < |name| ==>
         'a' <= name[i] <= 'z' || 'A' <= name[i] <= 'Z' || '0' <= name[i] <= '9' || name[i] in "._-"
  }

  /** The states the partial unique index covers. */
  predicate Live(j: Job) {
    j.state == Pending || j.state == Running
  }

  ghost predicate LiveTwin(jobs: map<JobId, Job>, kind: string, key: Option<UniqueKey>) {
    key.Some? && exists id :: id in jobs && Live(jobs[id]) && jobs[id].kind == kind && jobs[id].uniqueKey == key
  }

  /** The row an INSERT for `req` writes. */
  ghost predicate Queued(j: Job, req: Request, now: Time) {
    && j.kind == req.kind && j.queue == req.queue && j.group == req.group && j.batch == req.batch
    && j.uniqueKey == req.uniqueKey && j.payload == req.payload && j.priority == req.priority
    && j.maxAttempts == req.maxAttempts && j.maxStalled == req.maxStalled
    && j.scheduledAt == (if req.scheduledAt.Some? then req.scheduledAt.value else now)
    && j.state == Pending && j.attempt == 0 && j.stalled == 0
    && j.heartbeat == None && j.worker == None && j.finalizedAt == None
  }

  /** The row a rule gives a group that had none: not paused, and with a full bucket if it sets a rate. */
  ghost predicate Ruled(g: Group, r: Rule, now: Time) {
    && g.running == 0 && !g.paused && g.rateCount == r.rateCount && g.ratePeriod == r.ratePeriod
    && g.maxConcurrency == (if r.maxConcurrency.Some? then r.maxConcurrency.value else 2147483647)
    && (if r.rateCount.Some? then g.tokens == r.rateCount.value as real && g.refilledAt == Some(now)
        else g.tokens == 0.0 && g.refilledAt == None)
  }

  /** Rows appear for those of `keys` that had none and have a rule, and no row changes. */
  ghost predicate Materialized(groups: map<string, Group>, groups': map<string, Group>, rules: map<string, Rule>,
                               keys: set<string>, now: Time)
  {
    && (forall k :: k in groups ==> k in groups' && groups'[k] == groups[k])
    && (forall k :: k in groups' && k !in groups ==> k in keys && k in rules)
    && (forall k :: k in keys && k in rules && k !in groups ==> k in groups' && Ruled(groups'[k], rules[k], now))
  }

  // ---- Bulk inserts ----

  /** Request `i` meets a live twin: one from before, or an earlier request of the same lot. */
  ghost predicate TwinBefore(jobs: map<JobId, Job>, reqs: seq<Request>, i: nat)
    requires i < |reqs|
  {
    reqs[i].uniqueKey.Some?
    && (LiveTwin(jobs, reqs[i].kind, reqs[i].uniqueKey)
        || exists k :: 0 <= k < i && reqs[k].kind == reqs[i].kind && reqs[k].uniqueKey == reqs[i].uniqueKey)
  }

  /** How many of the first `i` requests go in. */
  ghost function NewRows(jobs: map<JobId, Job>, reqs: seq<Request>, i: nat): nat
    requires i <= |reqs|
  {
    if i == 0 then 0 else NewRows(jobs, reqs, i - 1) + if TwinBefore(jobs, reqs, i - 1) then 0 else 1
  }

  ghost predicate RowHolds(jobs: map<JobId, Job>, id: JobId, req: Request, now: Time) {
    id in jobs && Queued(jobs[id], req, now)
  }

  /** Each of the first `n` requests without a twin is the next row, in order. */
  ghost predicate RowsIn(jobs: map<JobId, Job>, nextJob: JobId, jobs': map<JobId, Job>, reqs: seq<Request>, n: nat, now: Time)
    requires n <= |reqs|
  {
    forall i :: 0 <= i < n && !TwinBefore(jobs, reqs, i) ==> RowHolds(jobs', nextJob + NewRows(jobs, reqs, i), reqs[i], now)
  }

  /** The ids from `lo` up to `hi` are new, and every old row is as it was. */
  ghost predicate GrownBy(jobs: map<JobId, Job>, jobs': map<JobId, Job>, lo: JobId, hi: JobId) {
    && (forall id :: id in jobs && id < lo ==> id in jobs' && jobs'[id] == jobs[id])
    && (forall id :: id in jobs' ==> id in jobs || lo <= id < hi)
  }

  /** The first `n` requests have been inserted, and nothing else. */
  ghost predicate Inserted(jobs: map<JobId, Job>, nextJob: JobId, jobs': map<JobId, Job>, reqs: seq<Request>, n: nat, now: Time)
    requires n <= |reqs|
  {
    RowsIn(jobs, nextJob, jobs', reqs, n, now) && GrownBy(jobs, jobs', nextJob, nextJob + NewRows(jobs, reqs, n))
  }

  // ---- What every transaction that inserts leaves alone ----

  /** Ids come from a sequence. Every state of a run is so: it is a part of `Counters.Sound`. */
  ghost predicate Sequenced(db: Db) {
    forall id :: id in db.jobs ==> id < db.nextJob
  }

  /** Jobs other than `ids` are as they were, and any new one has a new id. */
  ghost predicate OthersStay(before: Db, after: Db, ids: set<JobId>) {
    && (forall id :: id in before.jobs ==> id in after.jobs)
    && (forall id :: id in before.jobs && id !in ids ==> after.jobs[id] == before.jobs[id])
    && (forall id :: id in after.jobs && id !in before.jobs ==> before.nextJob <= id < after.nextJob)
  }

  /** A transaction that at most inserts jobs and materialises groups. */
  ghost predicate OnlyAdds(before: Db, after: Db) {
    && after.queues == before.queues && after.rules == before.rules && after.nextBatch == before.nextBatch
    && (forall g :: g in before.groups ==> g in after.groups && after.groups[g] == before.groups[g])
    && OthersStay(before, after, {}) && before.nextJob <= after.nextJob
  }

  // ---- Counters ----

  function Fewer(running: int, n: nat): int {
    if n == 0 then running else if running < n then 0 else running - n
  }

  /** Every queue and group row has back the slots of the jobs in `ids`; nothing else in a row changes. */
  ghost predicate SlotsBack(before: Db, after: Db, ids: set<JobId>) {
    && after.queues.Keys == before.queues.Keys
    && (forall q :: q in before.queues ==>
          after.queues[q] == before.queues[q].(running :=
            Fewer(before.queues[q].running, |set id | id in ids && id in before.jobs && before.jobs[id].queue == q|)))
    && (forall g :: g in before.groups ==>
          g in after.groups
          && after.groups[g] == before.groups[g].(running :=
               Fewer(before.groups[g].running, |set id | id in ids && id in before.jobs && before.jobs[id].group == Some(g)|)))
  }

  // ---- Batches ----

  /** Batch `b`, if it has a row, counts one more job ended; what may follow is that it closes. */
  ghost predicate BatchTold(before: Db, after: Db, b: Option<BatchId>, completed: nat, failed: nat, cancelled: nat, now: Time) {
    && after.batches.Keys == before.batches.Keys
    && (forall x :: x in before.batches && b != Some(x) ==> after.batches[x] == before.batches[x])
    && (b.Some? && b.value in before.batches ==>
          var r, r' := before.batches[b.value], after.batches[b.value];
          && r'.completed == r.completed + completed && r'.failed == r.failed + failed && r'.cancelled == r.cancelled + cancelled
          && r'.total == r.total && r'.onComplete == r.onComplete && r'.createdAt == r.createdAt
          && Closes(r, r', now))
  }

  /** A row closes exactly when it was unclaimed and its counts now add up. */
  ghost predicate Closes(r: Batch, r': Batch, now: Time) {
    if !r.claimed && r'.completed + r'.failed + r'.cancelled == r'.total
    then r'.claimed && r'.complete && r'.finalizedAt == Some(now)
    else r'.claimed == r.claimed && r'.complete == r.complete && r'.finalizedAt == r.finalizedAt
  }

  /** The job that announces batch `b`: what was asked for, with the counts in its payload. */
  ghost predicate CallsBack(j: Job, spec: Request, b: BatchId, r: Batch, duration: int, now: Time) {
    && j.kind == spec.kind && j.queue == spec.queue && j.group == spec.group && j.batch == spec.batch
    && j.priority == spec.priority && j.maxAttempts == spec.maxAttempts && j.maxStalled == spec.maxStalled
    && j.scheduledAt == (if spec.scheduledAt.Some? then spec.scheduledAt.value else now)
    && j.state == Pending && j.attempt == 0 && j.stalled == 0
    && j.heartbeat == None && j.worker == None && j.finalizedAt == None
    && j.uniqueKey == Some(CallbackOf(b))
    && var env := Obj(map["batchId" := Num(b), "total" := Num(r.total), "completed" := Num(r.completed),
                          "failed" := Num(r.failed), "cancelled" := Num(r.cancelled), "durationMs" := Num(duration)]);
       j.payload == (if spec.payload.Obj? then Obj(spec.payload.fields["_eddyq_batch" := env])
                     else Obj(map["_eddyq_batch" := env, "_payload" := spec.payload]))
  }

  /** The callback of a batch that just closed with counts `r`, unless a live one is there already. */
  ghost predicate CalledBack(before: Db, after: Db, b: BatchId, r: Batch, duration: int, now: Time) {
    && after.queues == before.queues && after.rules == before.rules && after.nextBatch == before.nextBatch
    && if r.onComplete.None? || LiveTwin(before.jobs, r.onComplete.value.kind, Some(CallbackOf(b)))
       then after.jobs == before.jobs && after.groups == before.groups && after.nextJob == before.nextJob
       else && after.nextJob == before.nextJob + 1 && before.nextJob in after.jobs
            && after.jobs == before.jobs[before.nextJob := after.jobs[before.nextJob]]
            && CallsBack(after.jobs[before.nextJob], r.onComplete.value, b, r, duration, now)
            && var g := r.onComplete.value.group;
               Materialized(before.groups, after.groups, before.rules, if g.Some? then {g.value} else {}, now)
  }

  /** The row adds up, unclaimed, but its callback names a queue that is not accepted. */
  ghost predicate FiresInVain(r: Batch) {
    && !r.claimed && r.completed + r.failed + r.cancelled == r.total
    && r.onComplete.Some? && !NameAccepted(r.onComplete.value.queue)
  }

  /** The claim of batch `b`'s callback: nothing, or the row closes and its callback goes in. */
  ghost predicate Fired(before: Db, after: Db, b: BatchId, now: Time)
    requires b in before.batches
  {
    var r := before.batches[b];
    if r.claimed || r.completed + r.failed + r.cancelled != r.total then after == before
    else
      && after.batches == before.batches[b := r.(claimed := true, complete := true, finalizedAt := Some(now))]
      && CalledBack(before, after, b, r, now - r.createdAt, now)
  }

  /** The items of a batch, each marked as its own. */
  function Marked(items: seq<Request>, b: BatchId): seq<Request> {
    seq(|items|, i requires 0 <= i < |items| => items[i].(batch := Some(b)))
  }

  /** A new batch row for `n` jobs: open, or already complete when nothing went in. */
  ghost predicate Opened(r: Batch, n: nat, onComplete: Option<Request>, now: Time) {
    && r.total == n && r.completed == 0 && r.failed == 0 && r.cancelled == 0 && r.onComplete == onComplete && r.createdAt == now
    && r.claimed == (n == 0) && r.complete == (n == 0) && r.finalizedAt == (if n == 0 then Some(now) else None)
  }

  /** Batch `b` is new with the items that met no live twin, or, if none went in, with its callback alone. */
  ghost predicate BatchOpened(before: Db, after: Db, items: seq<Request>, onComplete: Option<Request>, b: BatchId, n: nat, now: Time) {
    && b == before.nextBatch && after.nextBatch == b + 1 && after.queues == before.queues && after.rules == before.rules
    && b in after.batches && after.batches == before.batches[b := after.batches[b]] && Opened(after.batches[b], n, onComplete, now)
    && n == NewRows(before.jobs, Marked(items, b), |items|)
    && if n > 0 || onComplete.None? || LiveTwin(before.jobs, onComplete.value.kind, Some(CallbackOf(b)))
       then Inserted(before.jobs, before.nextJob, after.jobs, Marked(items, b), |items|, now)
       else && before.nextJob in after.jobs && after.jobs == before.jobs[before.nextJob := after.jobs[before.nextJob]]
            && CallsBack(after.jobs[before.nextJob], onComplete.value, b, after.batches[b], 0, now)
  }

  // ---- Ends of an execution ----

  ghost predicate Ends(j: Job, j': Job, s: JobState, now: Time) {
    j' == j.(state := s, heartbeat := None, worker := None, finalizedAt := Some(now))
  }

  ghost predicate GoesBack(j: Job, j': Job, at: Time) {
    j' == j.(state := Pending, heartbeat := None, worker := None, scheduledAt := at)
  }

  /** Job `id` ends in state `s`: its row, its slots and its batch, and nothing else, callbacks aside. */
  ghost predicate Ended(before: Db, after: Db, id: JobId, s: JobState, now: Time)
    requires id in before.jobs
  {
    && OthersStay(before, after, {id}) && Ends(before.jobs[id], after.jobs[id], s, now)
    && BatchTold(before, after, before.jobs[id].batch, if s == Completed then 1 else 0, if s == Failed then 1 else 0,
                 if s == Cancelled then 1 else 0, now)
  }

  /** A stalled job goes back with its attempt refunded, or fails once it has stalled more often than it may. */
  ghost predicate Recovers(j: Job, j': Job, now: Time) {
    if j.stalled >= j.maxStalled
    then j' == j.(stalled := j.stalled + 1, state := Failed, heartbeat := None, worker := None, finalizedAt := Some(now))
    else j' == j.(stalled := j.stalled + 1, state := Pending, attempt := if j.attempt > 0 then j.attempt - 1 else 0,
                  heartbeat := None, worker := None, finalizedAt := None)
  }

  /** A running job whose heartbeat is missing or older than `staleAfter`. */
  predicate GoneQuiet(j: Job, now: Time, staleAfter: Time) {
    j.state == Running && (j.heartbeat == None || now - j.heartbeat.value > staleAfter)
  }

  function RunningOf(jobs: map<JobId, Job>, ids: set<JobId>): set<JobId> {
    set id | id in ids && id in jobs && jobs[id].state == Running
  }

  function QuietOf(jobs: map<JobId, Job>, now: Time, staleAfter: Time): set<JobId> {
    set id | id in jobs && GoneQuiet(jobs[id], now, staleAfter)
  }

  /** The rows of `ids` that ran are recovered and every other row is as it was, callbacks aside. */
  ghost predicate Recovered(before: Db, after: Db, ids: set<JobId>, now: Time) {
    && OthersStay(before, after, ids)
    && (forall id :: id in ids ==> id in before.jobs && Recovers(before.jobs[id], after.jobs[id], now))
    && SlotsBack(before, after, ids) && FailuresTold(before, after, ids, now)
  }

  /** The jobs of `ids` under batch `b` that may not stall again. */
  function FailingOf(jobs: map<JobId, Job>, ids: set<JobId>, b: BatchId): set<JobId> {
    set id | id in ids && id in jobs && jobs[id].batch == Some(b) && jobs[id].stalled >= jobs[id].maxStalled
  }

  /** Each batch counts its jobs among `ids` that failed, and closes if they were its last. */
  ghost predicate FailuresTold(before: Db, after: Db, ids: set<JobId>, now: Time) {
    && after.batches.Keys == before.batches.Keys
    && (forall b :: b in before.batches ==>
          var r, r' := before.batches[b], after.batches[b];
          && r'.failed == r.failed + |FailingOf(before.jobs, ids, b)|
          && r'.completed == r.completed && r'.cancelled == r.cancelled
          && r'.total == r.total && r'.onComplete == r.onComplete && r'.createdAt == r.createdAt
          && (if r'.failed != r.failed then Closes(r, r', now)
              else r'.claimed == r.claimed && r'.complete == r.complete && r'.finalizedAt == r.finalizedAt))
  }

  // ---- Administration ----

  function RunningIn(jobs: map<JobId, Job>, queue: string): set<JobId> {
    set id | id in jobs && jobs[id].state == Running && jobs[id].queue == queue
  }

  /** One column set, negative caps read as 0 and timeouts that are not positive as none; the rest kept. */
  ghost predicate QueueSet(q: Queue, q': Queue, e: QueueEdit) {
    && q'.running == q.running
    && (match e
        case QueueCap(max) => q'.maxConcurrency == (if max < 0 then 0 else max) && q'.paused == q.paused && q'.timeout == q.timeout
        case QueuePause(p) => q'.paused == p && q'.maxConcurrency == q.maxConcurrency && q'.timeout == q.timeout
        case QueueTimeout(ms) => q'.timeout == (if ms.Some? && ms.value > 0 then ms else None)
                                 && q'.maxConcurrency == q.maxConcurrency && q'.paused == q.paused)
  }

  /** A rate starts with a full bucket and goes with an empty one; the counter is never written. */
  ghost predicate GroupSet(g: Group, g': Group, e: GroupEdit, now: Time) {
    && g'.running == g.running
    && (match e
        case GroupCap(max) => g' == g.(maxConcurrency := g'.maxConcurrency) && g'.maxConcurrency == (if max < 0 then 0 else max)
        case GroupPause(p) => g' == g.(paused := g'.paused) && g'.paused == p
        case GroupRate(c, p) => && g'.rateCount == Some(c) && g'.ratePeriod == Some(p) && g'.tokens == c as real
                                && g'.refilledAt == Some(now) && g'.maxConcurrency == g.maxConcurrency && g'.paused == g.paused
        case ClearRate => && g'.rateCount == None && g'.ratePeriod == None && g'.tokens == 0.0 && g'.refilledAt == None
                          && g'.maxConcurrency == g.maxConcurrency && g'.paused == g.paused)
  }

  /** A counter is lowered to the number of running jobs where it is above it, and kept otherwise. */
  ghost predicate Lowered(running: int, truth: nat, running': int) {
    if running > truth then running' == truth else running' == running
  }

  // ---- Cleanup ----

  /** The finish times of the jobs in state `s`. */
  function FinishTimes(jobs: map<JobId, Job>, s: JobState): map<nat, Time> {
    map id | id in jobs && jobs[id].state == s && jobs[id].finalizedAt.Some? :: jobs[id].finalizedAt.value
  }

  function CompletionTimes(batches: map<BatchId, Batch>): map<nat, Time> {
    map b | b in batches && batches[b].complete && batches[b].finalizedAt.Some? :: batches[b].finalizedAt.value
  }

  /** Row `id` of a table of finish times is past a limit: it finished more than `secs` seconds ago, or at
      least `count` rows finished after it, ties as the database breaks them. */
  ghost predicate PastLimits(t: map<nat, Time>, tie: (nat, nat) -> bool, secs: Option<nat>, count: Option<int>, now: Time, id: nat)
    requires id in t
  {
    || (secs.Some? && now - t[id] > 1000 * secs.value)
    || (count.Some? && |set x | x in t && (t[x] > t[id] || (t[x] == t[id] && tie(x, id)))| >= if count.value < 0 then 0 else count.value)
  }

  // ---- Claims ----

  /** A job a fetcher may look at: pending, due, of a kind and on a queue it serves. */
  predicate Eligible(j: Job, kinds: seq<string>, queues: seq<string>, now: Time) {
    j.state == Pending && j.scheduledAt <= now && j.kind in kinds && j.queue in queues
  }

  /** Higher priority first, then the earlier time, then the smaller id. */
  predicate RanksBefore(a: JobId, x: Job, b: JobId, y: Job) {
    if x.priority != y.priority then x.priority > y.priority
    else if x.scheduledAt != y.scheduledAt then x.scheduledAt < y.scheduledAt
    else a < b
  }

  /** What a queue row gives one claim; a row with a real cap and room left gives nothing while a peer holds it. */
  function QueueRoom(q: Queue, held: bool): int {
    if q.paused || q.running >= q.maxConcurrency || (held && q.maxConcurrency < 2147483647) then 0
    else q.maxConcurrency - q.running
  }

  predicate HasRate(g: Group) {
    g.rateCount.Some? && g.ratePeriod.Some? && g.rateCount.value > 0 && g.ratePeriod.value > 0
  }

  /** The balance at `clock`: what was written, plus `rateCount` per `ratePeriod` since, within [0, rateCount]. */
  ghost function Balance(g: Group, clock: Time): real
    requires HasRate(g)
  {
    var elapsed: int := if g.refilledAt.Some? && clock > g.refilledAt.value then clock - g.refilledAt.value else 0;
    var full := g.rateCount.value as real;
    var topped := g.tokens + elapsed as real * full / g.ratePeriod.value as real;
    if topped > full then full else if topped < 0.0 then 0.0 else topped
  }

  /** What a group row gives one claim: its free concurrency, within its whole tokens. */
  ghost function GroupRoom(g: Group, clock: Time): int {
    if g.paused || g.running >= g.maxConcurrency then 0
    else
      var free := if g.maxConcurrency - g.running > 2147483647 then 2147483647 else g.maxConcurrency - g.running;
      if HasRate(g) && Balance(g, clock).Floor < free then Balance(g, clock).Floor else free
  }

  /** Some job could be started: it is eligible and not held, its queue has room or no row, and it has no group,
      or a group without a row, or one with room that is not held. */
  ghost predicate MayStart(db: Db, id: JobId, kinds: seq<string>, queues: seq<string>, now: Time, clock: Time,
                           heldQueues: set<string>, heldGroups: set<string>, heldJobs: set<JobId>)
  {
    && id in db.jobs && id !in heldJobs && Eligible(db.jobs[id], kinds, queues, now)
    && (db.jobs[id].queue in db.queues ==> QueueRoom(db.queues[db.jobs[id].queue], db.jobs[id].queue in heldQueues) > 0)
    && (db.jobs[id].group.Some? && db.jobs[id].group.value in db.groups ==>
          db.jobs[id].group.value !in heldGroups && GroupRoom(db.groups[db.jobs[id].group.value], clock) > 0)
  }

  function OnQueue(jobs: map<JobId, Job>, ids: set<JobId>, q: string): set<JobId> {
    set id | id in ids && id in jobs && jobs[id].queue == q
  }

  function InGroup(jobs: map<JobId, Job>, ids: set<JobId>, g: string): set<JobId> {
    set id | id in ids && id in jobs && jobs[id].group == Some(g)
  }

  /** The jobs of `ids` run under `w`; queue rows and group rows count them, and rate-limited groups paid for them. */
  ghost predicate Claimed(before: Db, after: Db, ids: set<JobId>, w: WorkerId, now: Time, clock: Time) {
    && after == before.(jobs := after.jobs, queues := after.queues, groups := after.groups)
    && after.jobs.Keys == before.jobs.Keys
    && (forall id :: id in before.jobs ==>
          after.jobs[id] == if id in ids
                            then before.jobs[id].(state := Running, attempt := before.jobs[id].attempt + 1,
                                                  heartbeat := Some(now), worker := Some(w))
                            else before.jobs[id])
    && after.queues.Keys == before.queues.Keys
    && (forall q :: q in before.queues ==>
          after.queues[q] == before.queues[q].(running := before.queues[q].running + |OnQueue(before.jobs, ids, q)|))
    && (forall g :: g in after.groups <==> g in before.groups || InGroup(before.jobs, ids, g) != {})
    && (forall g :: g in after.groups ==>
          PaidFor(if g in before.groups then Some(before.groups[g]) else None, after.groups[g], |InGroup(before.jobs, ids, g)|, clock))
  }

  /** A group row counts `n` starts and pays for them; a new row is unlimited. */
  ghost predicate PaidFor(g: Option<Group>, g': Group, n: nat, clock: Time) {
    if g.None? then g' == Group(n, 2147483647, false, None, None, 0.0, None)
    else if n == 0 then g' == g.value
    else if HasRate(g.value)
    then g' == g.value.(running := g.value.running + n, refilledAt := Some(clock),
                        tokens := if Balance(g.value, clock) > n as real then Balance(g.value, clock) - n as real else 0.0)
    else g' == g.value.(running := g.value.running + n)
  }
}
