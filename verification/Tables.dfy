/** The rows of the queue's tables and the counting vocabulary used throughout.
    Columns that no modelled statement reads (tags, metadata, errors, result,
    created_at of jobs) are omitted. */
module Tables {
  import Decimal

  /** `i32::MAX`, the schema's default `max_concurrency`: "unlimited". */
  const MAX_I32: int := 0x7fff_ffff

  datatype Option<+T> = None | Some(value: T)

  type JobId = nat
  type BatchId = nat
  type WorkerId = nat
  type Time = int // milliseconds

  datatype Json = Null | Num(n: int) | Str(s: string) | Arr(items: seq<Json>) | Obj(fields: map<string, Json>)

  /** The schema also admits 'scheduled', which no statement ever writes. */
  datatype JobState = Pending | Running | Completed | Failed | Cancelled {
    predicate Terminal() { Completed? || Failed? || Cancelled? }
  }

  /** A unique key. Its text is what the column holds: `CallbackOf(b)` stands for the text
      "eddyq.batch.<b>.callback", and `Named` for every other text (see KeyEncoding). */
  datatype UniqueKey = Named(text: string) | CallbackOf(batch: BatchId)

  datatype Job = Job(
    kind: string,
    queue: string,
    group: Option<string>,
    batch: Option<BatchId>,
    uniqueKey: Option<UniqueKey>,
    payload: Json,
    priority: int,
    maxAttempts: int,
    maxStalled: int,
    scheduledAt: Time,
    state: JobState,
    attempt: int,
    stalled: int,
    heartbeat: Option<Time>,
    worker: Option<WorkerId>,
    finalizedAt: Option<Time>)

  datatype Group = Group(
    running: int,
    maxConcurrency: int,
    paused: bool,
    rateCount: Option<int>,
    ratePeriod: Option<int>,
    tokens: real,
    refilledAt: Option<Time>)

  const DEFAULT_GROUP := Group(0, MAX_I32, false, None, None, 0.0, None)

  datatype Queue = Queue(running: int, maxConcurrency: int, paused: bool, timeout: Option<int>)

  /** `DynEnqueue`: a request to insert one job. */
  datatype Request = Request(
    kind: string,
    payload: Json,
    maxAttempts: int,
    maxStalled: int,
    priority: int,
    queue: string,
    scheduledAt: Option<Time>,
    uniqueKey: Option<UniqueKey>,
    group: Option<string>,
    batch: Option<BatchId>)

  /** `claimed` is `callback_enqueued_at IS NOT NULL`; `complete` is `state = 'complete'`. */
  datatype Batch = Batch(
    complete: bool,
    total: int,
    completed: int,
    failed: int,
    cancelled: int,
    onComplete: Option<Request>,
    claimed: bool,
    createdAt: Time,
    finalizedAt: Option<Time>)
  {
    function Sum(): int { completed + failed + cancelled }
  }

  /** A group rule already resolved by pattern, priority and pattern length. */
  datatype Rule = Rule(maxConcurrency: Option<int>, rateCount: Option<int>, ratePeriod: Option<int>)

  /** What an upsert of a queue row may set; the counter is never written on conflict. */
  datatype QueueEdit = QueueCap(max: int) | QueuePause(paused: bool) | QueueTimeout(ms: Option<int>)

  /** The same for a group row. */
  datatype GroupEdit = GroupCap(max: int) | GroupPause(paused: bool) | GroupRate(count: int, period: int) | ClearRate

  /** One committed state of the database. `rules` maps a group key to its
      best-matching rule; `nextJob` and `nextBatch` are the id sequences. */
  datatype Db = Db(
    jobs: map<JobId, Job>,
    groups: map<string, Group>,
    queues: map<string, Queue>,
    batches: map<BatchId, Batch>,
    rules: map<string, Rule>,
    nextJob: JobId,
    nextBatch: BatchId)

  const EMPTY_DB := Db(map[], map[], map[], map[], map[], 0, 0)

  // ---- Lanes: the two kinds of row that carry a running_count ----

  datatype Lane = QueueLane(name: string) | GroupLane(key: string)

  predicate On(j: Job, lane: Lane) {
    match lane
    case QueueLane(name) => j.queue == name
    case GroupLane(key) => j.group == Some(key)
  }

  /** The members of `ids` that lie on `lane`. */
  function Among(jobs: map<JobId, Job>, ids: set<JobId>, lane: Lane): set<JobId> {
    set id | id in ids && id in jobs && On(jobs[id], lane)
  }

  /** The jobs actually in state 'running' on `lane`: what a counter should say. */
  function RunningOn(jobs: map<JobId, Job>, lane: Lane): set<JobId> {
    set id | id in jobs && jobs[id].state == Running && On(jobs[id], lane)
  }

  /** A row's cap and counter, if the lane has a row. */
  datatype Counter = Counter(running: int, max: int, paused: bool)

  function CounterOf(db: Db, lane: Lane): Option<Counter> {
    match lane
    case QueueLane(name) =>
      if name in db.queues
      then Some(Counter(db.queues[name].running, db.queues[name].maxConcurrency, db.queues[name].paused))
      else None
    case GroupLane(key) =>
      if key in db.groups
      then Some(Counter(db.groups[key].running, db.groups[key].maxConcurrency, db.groups[key].paused))
      else None
  }

  // ---- Small helpers ----

  function Max(a: int, b: int): int { if a < b then b else a }
  function Min(a: int, b: int): int { if a < b then a else b }

  // ---- Queue names and callback keys ----

  const MAX_QUEUE_NAME_LEN := 64

  predicate ValidQueueChar(c: char) {
    'a' <= c <= 'z' || 'A' <= c <= 'Z' || '0' <= c <= '9' || c == '.' || c == '_' || c == '-'
  }

  predicate ValidQueueName(name: string) {
    0 < |name| <= MAX_QUEUE_NAME_LEN && forall i :: 0 <= i < |name| ==> ValidQueueChar(name[i])
  }

  function CallbackText(b: BatchId): string {
    "eddyq.batch." + Decimal.Show(b) + ".callback"
  }

  lemma CallbackTextInjective(a: BatchId, b: BatchId)
    requires CallbackText(a) == CallbackText(b)
    ensures a == b
    ensures var s := CallbackText(a);
            |s| > 21 && s[..12] == "eddyq.batch." && s[|s| - 9..] == ".callback" && Decimal.Read(s[12..|s| - 9]) == a
  {
    Decimal.ReadShow(a);
    var p, q := "eddyq.batch.", ".callback";
    var s := CallbackText(a);
    assert s[|p|..|s| - |q|] == Decimal.Show(a);
    assert s[|p|..|s| - |q|] == Decimal.Show(b);
    Decimal.ShowInjective(a, b);
  }

  /** The key a text denotes. */
  ghost function KeyOf(text: string): UniqueKey {
    if exists b: BatchId :: text == CallbackText(b)
    then var b: BatchId :| text == CallbackText(b); CallbackOf(b)
    else Named(text)
  }

  /** Comparing keys is comparing their texts, and the text built for a batch is that batch's key. */
  lemma KeyEncoding(s: string, t: string, b: BatchId)
    ensures KeyOf(s) == KeyOf(t) <==> s == t
    ensures KeyOf(CallbackText(b)) == CallbackOf(b)
  {
    var c: BatchId :| CallbackText(b) == CallbackText(c) && KeyOf(CallbackText(b)) == CallbackOf(c);
    CallbackTextInjective(b, c);
  }
}
