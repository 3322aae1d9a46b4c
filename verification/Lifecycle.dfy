/** What each database transaction of the queue does to the committed tables,
    as a function from one state to the next. A transaction that returns an
    error before its COMMIT is `None`: nothing it wrote survives. */
module Lifecycle {
  import opened Tables

  // ---- Inserting jobs (enqueue.rs) ----

  /** The partial unique index: one live job per (kind, unique_key). */
  predicate Conflicts(jobs: map<JobId, Job>, req: Request) {
    req.uniqueKey.Some? &&
    exists id :: id in jobs && !jobs[id].state.Terminal()
                 && jobs[id].kind == req.kind && jobs[id].uniqueKey == req.uniqueKey
  }

  function NewJob(req: Request, now: Time): Job {
    Job(req.kind, req.queue, req.group, req.batch, req.uniqueKey, req.payload, req.priority,
        req.maxAttempts, req.maxStalled,
        if req.scheduledAt.Some? then req.scheduledAt.value else now,
        Pending, 0, 0, None, None, None)
  }

  function FromRule(r: Rule, now: Time): Group {
    Group(0, if r.maxConcurrency.Some? then r.maxConcurrency.value else MAX_I32, false,
          r.rateCount, r.ratePeriod,
          if r.rateCount.Some? then r.rateCount.value as real else 0.0,
          if r.rateCount.Some? then Some(now) else None)
  }

  /** `materialize_from_rule` for each of `keys`: ON CONFLICT DO NOTHING. */
  function Materialize(groups: map<string, Group>, rules: map<string, Rule>, keys: set<string>, now: Time)
    : map<string, Group>
  {
    groups + map k | k in keys && k in rules && k !in groups :: FromRule(rules[k], now)
  }

  function KeysOf(req: Request): set<string> {
    if req.group.Some? then {req.group.value} else {}
  }

  function AddJob(db: Db, j: Job): Db {
    db.(jobs := db.jobs[db.nextJob := j], nextJob := db.nextJob + 1)
  }

  /** `insert_dyn`. */
  function InsertDyn(db: Db, req: Request, now: Time): Option<Db> {
    if !ValidQueueName(req.queue) then None
    else if Conflicts(db.jobs, req) then Some(db)
    else Some(AddJob(db, NewJob(req, now)).(groups := Materialize(db.groups, db.rules, KeysOf(req), now)))
  }

  /** The row insertions of `insert_many_dyn`, in order. */
  function InsertRows(db: Db, reqs: seq<Request>, now: Time): Db
    decreases |reqs|
  {
    if reqs == [] then db
    else InsertRows(if Conflicts(db.jobs, reqs[0]) then db else AddJob(db, NewJob(reqs[0], now)), reqs[1..], now)
  }

  /** `enqueue_many_dyn_in_tx`: every group key asked for is materialised, inserted or not. */
  function InsertMany(db: Db, reqs: seq<Request>, now: Time): Option<Db> {
    if exists r :: r in reqs && !ValidQueueName(r.queue) then None
    else
      var db' := InsertRows(db, reqs, now);
      var keys := set r | r in reqs && r.group.Some? :: r.group.value;
      Some(db'.(groups := Materialize(db.groups, db.rules, keys, now)))
  }

  // ---- Batches (batch.rs) ----

  datatype Outcome = DidComplete | DidFail | DidCancel

  function Bump(b: Batch, o: Outcome): Batch {
    match o
    case DidComplete => b.(completed := b.completed + 1)
    case DidFail => b.(failed := b.failed + 1)
    case DidCancel => b.(cancelled := b.cancelled + 1)
  }

  function Envelope(id: BatchId, b: Batch, duration: int): Json {
    Obj(map["batchId" := Num(id), "total" := Num(b.total), "completed" := Num(b.completed),
            "failed" := Num(b.failed), "cancelled" := Num(b.cancelled), "durationMs" := Num(duration)])
  }

  /** `build_callback_dyn`. */
  function Callback(spec: Request, id: BatchId, b: Batch, duration: int): Request {
    var env := Envelope(id, b, duration);
    spec.(payload := if spec.payload.Obj?
                     then Obj(spec.payload.fields["_eddyq_batch" := env])
                     else Obj(map["_eddyq_batch" := env, "_payload" := spec.payload]),
          uniqueKey := Some(CallbackOf(id)))
  }

  predicate Claimable(db: Db, b: BatchId) {
    b in db.batches && !db.batches[b].claimed && db.batches[b].Sum() == db.batches[b].total
  }

  function Close(b: Batch, now: Time): Batch {
    b.(claimed := true, complete := true, finalizedAt := Some(now))
  }

  /** `try_claim_and_fire`. */
  function TryFire(db: Db, b: BatchId, now: Time): Option<Db> {
    if !Claimable(db, b) then Some(db)
    else
      var row := db.batches[b];
      var db' := db.(batches := db.batches[b := Close(row, now)]);
      if row.onComplete.None? then Some(db')
      else InsertDyn(db', Callback(row.onComplete.value, b, row, now - row.createdAt), now)
  }

  /** `settle_terminal`. */
  function Settle(db: Db, b: BatchId, o: Outcome, now: Time): Option<Db> {
    if b !in db.batches then Some(db)
    else
      var db' := db.(batches := db.batches[b := Bump(db.batches[b], o)]);
      if db'.batches[b].claimed || db'.batches[b].Sum() != db'.batches[b].total then Some(db')
      else TryFire(db', b, now)
  }

  function SettleOpt(db: Db, b: Option<BatchId>, o: Outcome, now: Time): Option<Db> {
    if b.None? then Some(db) else Settle(db, b.value, o, now)
  }

  function Stamp(items: seq<Request>, b: BatchId): seq<Request> {
    seq(|items|, i requires 0 <= i < |items| => items[i].(batch := Some(b)))
  }

  function OpenBatch(db: Db, onComplete: Option<Request>, now: Time): Db {
    db.(batches := db.batches[db.nextBatch := Batch(false, 0, 0, 0, 0, onComplete, false, now, None)],
        nextBatch := db.nextBatch + 1)
  }

  function WithBatch(db: Db, b: BatchId, row: Batch): Db {
    db.(batches := db.batches[b := row])
  }

  /** The tail of `enqueue_batch_in_tx`: record how many jobs went in; with none, complete and fire at once. */
  function SizeBatch(db: Db, b: BatchId, inserted: nat, now: Time): Option<Db>
    requires b in db.batches
  {
    var row := db.batches[b].(total := inserted);
    if inserted != 0 then Some(WithBatch(db, b, row))
    else
      var db' := WithBatch(db, b, Close(row, now));
      if row.onComplete.None? then Some(db') else InsertDyn(db', Callback(row.onComplete.value, b, row, 0), now)
  }

  lemma {:induction false} InsertRowsKeepsBatches(db: Db, reqs: seq<Request>, now: Time)
    ensures InsertRows(db, reqs, now).batches == db.batches && db.nextJob <= InsertRows(db, reqs, now).nextJob
    decreases |reqs|
  {
    if reqs != [] {
      InsertRowsKeepsBatches(if Conflicts(db.jobs, reqs[0]) then db else AddJob(db, NewJob(reqs[0], now)), reqs[1..], now);
    }
  }

  /** `enqueue_batch_in_tx`. */
  function EnqueueBatch(db: Db, items: seq<Request>, onComplete: Option<Request>, now: Time): Option<Db> {
    var b := db.nextBatch;
    var db1 := OpenBatch(db, onComplete, now);
    var r := InsertMany(db1, Stamp(items, b), now);
    if r.None? then None
    else
      InsertRowsKeepsBatches(db1, Stamp(items, b), now);
      SizeBatch(r.value, b, r.value.nextJob - db.nextJob, now)
  }

  // ---- Claiming (fetch.rs, step 4 of claim_batch) ----

  datatype TokenWrite = TokenWrite(tokens: real, at: Time)

  function GroupsOf(jobs: map<JobId, Job>, ids: set<JobId>): set<string> {
    set id | id in ids && id in jobs && jobs[id].group.Some? :: jobs[id].group.value
  }

  function Started(j: Job, w: WorkerId, now: Time): Job {
    j.(state := Running, attempt := j.attempt + 1, heartbeat := Some(now), worker := Some(w))
  }

  function ClaimedJobs(jobs: map<JobId, Job>, ids: set<JobId>, w: WorkerId, now: Time): map<JobId, Job> {
    map id | id in jobs :: if id in ids then Started(jobs[id], w, now) else jobs[id]
  }

  function BumpGroup(row: Group, n: nat, write: Option<TokenWrite>): Group {
    if n == 0 then row
    else if write.None? then row.(running := row.running + n)
    else row.(running := row.running + n, tokens := write.value.tokens, refilledAt := Some(write.value.at))
  }

  function ClaimedGroups(groups: map<string, Group>, jobs: map<JobId, Job>, ids: set<JobId>,
                         writes: map<string, TokenWrite>): map<string, Group>
  {
    map g | g in groups.Keys + GroupsOf(jobs, ids) ::
      BumpGroup(if g in groups then groups[g] else DEFAULT_GROUP,
                |Among(jobs, ids, GroupLane(g))|,
                if g in writes then Some(writes[g]) else None)
  }

  function ClaimedQueues(queues: map<string, Queue>, jobs: map<JobId, Job>, ids: set<JobId>): map<string, Queue> {
    map q | q in queues :: queues[q].(running := queues[q].running + |Among(jobs, ids, QueueLane(q))|)
  }

  /** The UPDATE of the accepted jobs plus the counter upserts. */
  function Claim(db: Db, ids: set<JobId>, w: WorkerId, now: Time, writes: map<string, TokenWrite>): Db {
    db.(jobs := ClaimedJobs(db.jobs, ids, w, now),
        groups := ClaimedGroups(db.groups, db.jobs, ids, writes),
        queues := ClaimedQueues(db.queues, db.jobs, ids))
  }

  /** No `running_count` leaves the INTEGER range; otherwise the statement errors
      and the claim rolls back. */
  predicate ClaimFits(db: Db, ids: set<JobId>) {
    var db' := Claim(db, ids, 0, 0, map[]);
    && (forall q :: q in db'.queues ==> db'.queues[q].running <= MAX_I32)
    && (forall g :: g in db'.groups ==> db'.groups[g].running <= MAX_I32)
  }

  // ---- Giving slots back ----

  function Floored(running: int, n: nat): int {
    if n == 0 then running else Max(running - n, 0)
  }

  /** `GREATEST(running_count - delta, 0)` on every existing row `ids` leave. */
  function ReleaseGroups(groups: map<string, Group>, jobs: map<JobId, Job>, ids: set<JobId>): map<string, Group> {
    map g | g in groups ::
      groups[g].(running := Floored(groups[g].running, |Among(jobs, ids, GroupLane(g))|))
  }

  function ReleaseQueues(queues: map<string, Queue>, jobs: map<JobId, Job>, ids: set<JobId>): map<string, Queue> {
    map q | q in queues ::
      queues[q].(running := Floored(queues[q].running, |Among(jobs, ids, QueueLane(q))|))
  }

  /** Jobs `ids` leave 'running' for the versions in `jobs'`. */
  function Release(db: Db, ids: set<JobId>, jobs': map<JobId, Job>): Db {
    db.(jobs := jobs',
        groups := ReleaseGroups(db.groups, db.jobs, ids),
        queues := ReleaseQueues(db.queues, db.jobs, ids))
  }

  // ---- Verdicts ----

  /** The fence of every verdict: `state = 'running' AND worker_id = $w`. */
  predicate Fenced(db: Db, id: JobId, w: WorkerId) {
    id in db.jobs && db.jobs[id].state == Running && db.jobs[id].worker == Some(w)
  }

  function Finalized(j: Job, s: JobState, now: Time): Job {
    j.(state := s, heartbeat := None, worker := None, finalizedAt := Some(now))
  }

  function Retried(j: Job, at: Time): Job {
    j.(state := Pending, heartbeat := None, worker := None, scheduledAt := at)
  }

  /** `mark_completed`. */
  function MarkCompleted(db: Db, id: JobId, w: WorkerId, now: Time): Option<Db> {
    if !Fenced(db, id, w) then Some(db)
    else
      var j := db.jobs[id];
      SettleOpt(Release(db, {id}, db.jobs[id := Finalized(j, Completed, now)]), j.batch, DidComplete, now)
  }

  /** `mark_failed`: terminal when `retryAt` is None. */
  function MarkFailed(db: Db, id: JobId, w: WorkerId, retryAt: Option<Time>, now: Time): Option<Db> {
    if !Fenced(db, id, w) then Some(db)
    else
      var j := db.jobs[id];
      if retryAt.Some? then Some(Release(db, {id}, db.jobs[id := Retried(j, retryAt.value)]))
      else SettleOpt(Release(db, {id}, db.jobs[id := Finalized(j, Failed, now)]), j.batch, DidFail, now)
  }

  /** `cancel`: pending jobs only, so no slot is given back. */
  function CancelJob(db: Db, id: JobId, now: Time): Option<Db> {
    if id !in db.jobs || db.jobs[id].state != Pending then Some(db)
    else
      var j := db.jobs[id];
      SettleOpt(db.(jobs := db.jobs[id := j.(state := Cancelled, finalizedAt := Some(now))]), j.batch, DidCancel, now)
  }

  // ---- Recovery (sweep_stale, reclaim_in_flight) ----

  predicate OverBudget(j: Job) {
    j.stalled + 1 > j.maxStalled
  }

  function Stalled(j: Job, now: Time): Job {
    if OverBudget(j)
    then j.(stalled := j.stalled + 1, state := Failed, heartbeat := None, worker := None, finalizedAt := Some(now))
    else j.(stalled := j.stalled + 1, state := Pending, attempt := Max(j.attempt - 1, 0),
            heartbeat := None, worker := None, finalizedAt := None)
  }

  /** The rows the recovery UPDATE touches out of those asked for. */
  function Swept(jobs: map<JobId, Job>, ids: set<JobId>): set<JobId> {
    set id | id in ids && id in jobs && jobs[id].state == Running
  }

  function StalledJobs(jobs: map<JobId, Job>, swept: set<JobId>, now: Time): map<JobId, Job> {
    map id | id in jobs :: if id in swept then Stalled(jobs[id], now) else jobs[id]
  }

  /** The swept jobs of batch `b` that ran out of stall budget. */
  function FailedOf(jobs: map<JobId, Job>, swept: set<JobId>, b: BatchId): set<JobId> {
    set id | id in swept && id in jobs && jobs[id].batch == Some(b) && OverBudget(jobs[id])
  }

  function BumpedBatches(batches: map<BatchId, Batch>, jobs: map<JobId, Job>, swept: set<JobId>)
    : map<BatchId, Batch>
  {
    map b | b in batches :: batches[b].(failed := batches[b].failed + |FailedOf(jobs, swept, b)|)
  }

  function Bumped(db: Db, swept: set<JobId>): set<BatchId> {
    set b | b in db.batches && FailedOf(db.jobs, swept, b) != {}
  }

  /** The one recovery statement: jobs, counters and batch failures together. */
  function StallRows(db: Db, swept: set<JobId>, now: Time): Db {
    Release(db, swept, StalledJobs(db.jobs, swept, now)).(batches := BumpedBatches(db.batches, db.jobs, swept))
  }

  lemma HasMin(s: set<nat>)
    requires s != {}
    ensures exists m :: m in s && forall x :: x in s ==> m <= x
  {
    var m :| m in s;
    while exists x :: x in s && x < m
      invariant m in s
      decreases m
    {
      var x :| x in s && x < m;
      m := x;
    }
  }

  function Least(s: set<nat>): (m: nat)
    requires s != {}
    ensures m in s && forall x :: x in s ==> m <= x
  {
    HasMin(s);
    var m :| m in s && forall x :: x in s ==> m <= x;
    m
  }

  /** `ARRAY_AGG(id ORDER BY id)`. */
  function Ascending(s: set<nat>): (r: seq<nat>)
    ensures forall x :: x in r <==> x in s
    ensures forall i, j :: 0 <= i < j < |r| ==> r[i] < r[j]
  {
    if s == {} then []
    else
      var m := Least(s);
      var rest := Ascending(s - {m});
      AscendingFirst(s, m, rest);
      [m] + rest
  }

  lemma AscendingFirst(s: set<nat>, m: nat, rest: seq<nat>)
    requires m in s && (forall x :: x in s ==> m <= x) && (forall x :: x in rest <==> x in s - {m})
    requires forall i, j :: 0 <= i < j < |rest| ==> rest[i] < rest[j]
    ensures forall x :: x in [m] + rest <==> x in s
    ensures forall i, j :: 0 <= i < j < |[m] + rest| ==> ([m] + rest)[i] < ([m] + rest)[j]
  {
    forall j | 0 <= j < |rest| ensures m < rest[j] {
      assert rest[j] in rest && rest[j] in s - {m};
    }
  }

  function FireAll(db: Db, bs: seq<BatchId>, now: Time): Option<Db>
    decreases |bs|
  {
    if bs == [] then Some(db)
    else
      var r := TryFire(db, bs[0], now);
      if r.None? then None else FireAll(r.value, bs[1..], now)
  }

  /** Recover `ids`: the statement, then one callback claim per bumped batch. */
  function Recover(db: Db, ids: set<JobId>, now: Time): Option<Db> {
    var swept := Swept(db.jobs, ids);
    FireAll(StallRows(db, swept, now), Ascending(Bumped(db, swept)), now)
  }

  function Stale(db: Db, now: Time, staleAfter: Time): set<JobId> {
    set id | id in db.jobs && db.jobs[id].state == Running
             && (db.jobs[id].heartbeat.None? || db.jobs[id].heartbeat.value < now - staleAfter)
  }

  // ---- Counter repair ----

  function ReconciledGroups(groups: map<string, Group>, jobs: map<JobId, Job>): map<string, Group> {
    map g | g in groups ::
      if groups[g].running > 0 && groups[g].running > |RunningOn(jobs, GroupLane(g))|
      then groups[g].(running := |RunningOn(jobs, GroupLane(g))|) else groups[g]
  }

  function ReconciledQueues(queues: map<string, Queue>, jobs: map<JobId, Job>): map<string, Queue> {
    map q | q in queues ::
      if queues[q].running > 0 && queues[q].running > |RunningOn(jobs, QueueLane(q))|
      then queues[q].(running := |RunningOn(jobs, QueueLane(q))|) else queues[q]
  }

  /** `reconcile_counters`. */
  function Reconcile(db: Db): Db {
    db.(groups := ReconciledGroups(db.groups, db.jobs), queues := ReconciledQueues(db.queues, db.jobs))
  }

  // ---- Administration ----

  function EditedQueue(q: Queue, e: QueueEdit): Queue {
    match e
    case QueueCap(max) => q.(maxConcurrency := Max(max, 0))
    case QueuePause(p) => q.(paused := p)
    case QueueTimeout(ms) => q.(timeout := if ms.Some? && ms.value > 0 then ms else None)
  }

  /** A new row is seeded with the live count of running jobs on that queue. */
  function EditQueue(db: Db, name: string, e: QueueEdit): Db {
    var row := if name in db.queues then db.queues[name]
               else Queue(|RunningOn(db.jobs, QueueLane(name))|, MAX_I32, false, None);
    db.(queues := db.queues[name := EditedQueue(row, e)])
  }

  function EditedGroup(g: Group, e: GroupEdit, now: Time): Group {
    match e
    case GroupCap(max) => g.(maxConcurrency := Max(max, 0))
    case GroupPause(p) => g.(paused := p)
    case GroupRate(c, p) => g.(rateCount := Some(c), ratePeriod := Some(p), tokens := c as real, refilledAt := Some(now))
    case ClearRate => g.(rateCount := None, ratePeriod := None, tokens := 0.0, refilledAt := None)
  }

  /** A new row starts from the schema defaults; `clear_rate` never creates one and
      `set_rate` rejects a non-positive count or period. */
  function EditGroup(db: Db, key: string, e: GroupEdit, now: Time): Db {
    if (e.ClearRate? && key !in db.groups) || (e.GroupRate? && (e.count <= 0 || e.period <= 0)) then db
    else
      var row := if key in db.groups then db.groups[key] else DEFAULT_GROUP;
      db.(groups := db.groups[key := EditedGroup(row, e, now)])
  }

  // ---- Heartbeats and cleanup ----

  function Beat(db: Db, ids: set<JobId>, now: Time): Db {
    db.(jobs := map id | id in db.jobs ::
          if id in ids && db.jobs[id].state == Running then db.jobs[id].(heartbeat := Some(now)) else db.jobs[id])
  }

  function DeleteJobs(db: Db, ids: set<JobId>): Db {
    db.(jobs := db.jobs - ids)
  }

  /** Deleting a batch row sets `batch_id` to NULL on the jobs that still point at it. */
  function DeleteBatches(db: Db, ids: set<BatchId>): Db {
    db.(batches := db.batches - ids,
        jobs := map id | id in db.jobs ::
          if db.jobs[id].batch.Some? && db.jobs[id].batch.value in ids
          then db.jobs[id].(batch := None) else db.jobs[id])
  }

  // ---- The state machine ----

  datatype Step =
    | Enqueue(req: Request, at: Time)
    | Batched(items: seq<Request>, onComplete: Option<Request>, at: Time)
    | Take(ids: set<JobId>, w: WorkerId, at: Time, writes: map<string, TokenWrite>)
    | Complete(id: JobId, w: WorkerId, at: Time)
    | Fail(id: JobId, w: WorkerId, retryAt: Option<Time>, at: Time)
    | Cancel(id: JobId, at: Time)
    | Stall(ids: set<JobId>, at: Time)
    | Heartbeat(ids: set<JobId>, at: Time)
    | Repair
    | QueueAdmin(name: string, queueEdit: QueueEdit)
    | GroupAdmin(key: string, groupEdit: GroupEdit, at: Time)
    | SetRules(rules: map<string, Rule>)
    | ReapJobs(ids: set<JobId>)
    | ReapBatches(batchIds: set<BatchId>)

  /** What row locks and the WHERE clauses of claims and cleanup guarantee about a step. */
  predicate Enabled(db: Db, s: Step) {
    match s
    case Take(ids, _, at, _) =>
      (forall id :: id in ids ==> id in db.jobs && db.jobs[id].state == Pending && db.jobs[id].scheduledAt <= at) && ClaimFits(db, ids)
    case ReapJobs(ids) => forall id :: id in ids && id in db.jobs ==> db.jobs[id].state.Terminal()
    case ReapBatches(ids) => forall b :: b in ids && b in db.batches ==> db.batches[b].complete
    case _ => true
  }

  /** The transaction of a step; None is an error return, so a rollback. */
  function Transaction(db: Db, s: Step): Option<Db> {
    match s
    case Enqueue(req, at) => InsertDyn(db, req, at)
    case Batched(items, onComplete, at) => EnqueueBatch(db, items, onComplete, at)
    case Take(ids, w, at, writes) => Some(Claim(db, ids, w, at, writes))
    case Complete(id, w, at) => MarkCompleted(db, id, w, at)
    case Fail(id, w, retryAt, at) => MarkFailed(db, id, w, retryAt, at)
    case Cancel(id, at) => CancelJob(db, id, at)
    case Stall(ids, at) => Recover(db, ids, at)
    case Heartbeat(ids, at) => Some(Beat(db, ids, at))
    case Repair => Some(Reconcile(db))
    case QueueAdmin(name, e) => Some(EditQueue(db, name, e))
    case GroupAdmin(key, e, at) => Some(EditGroup(db, key, e, at))
    case SetRules(rules) => Some(db.(rules := rules))
    case ReapJobs(ids) => Some(DeleteJobs(db, ids))
    case ReapBatches(ids) => Some(DeleteBatches(db, ids))
  }

  function Apply(db: Db, s: Step): Db {
    var r := Transaction(db, s);
    if r.Some? then r.value else db
  }

  /** A run: the committed states, and the enabled step from each to the next. */
  ghost predicate IsTrace(dbs: seq<Db>, steps: seq<Step>) {
    && |dbs| == |steps| + 1
    && forall k :: 0 <= k < |steps| ==> Enabled(dbs[k], steps[k]) && dbs[k + 1] == Apply(dbs[k], steps[k])
  }
}
