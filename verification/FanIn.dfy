/** Exactly-once fan-in over every run. Cleanup deletes finished jobs and batches,
    so the claim is about an archive: the last version of every job and batch ever
    committed, each job under the batch it was inserted with. */
module FanIn {
  import opened Tables
  import opened Lifecycle
  import opened Books

  // ---- The archive ----

  /** `m'` is `m` brought up to date with a committed jobs table: new jobs join, present jobs take
      their current version (a deleted batch's id is not forgotten), absent jobs keep their last. */
  ghost predicate JobsFollow(m: Jobs, jobs': Jobs, m': Jobs) {
    && m'.Keys == m.Keys + jobs'.Keys
    && (forall id :: id in jobs' ==> m'[id] == if id in m then jobs'[id].(batch := m[id].batch) else jobs'[id])
    && (forall id :: id in m && id !in jobs' ==> m'[id] == m[id])
  }

  ghost predicate BatchesFollow(bs: Batches, batches': Batches, bs': Batches) {
    && bs'.Keys == bs.Keys + batches'.Keys
    && (forall b :: b in batches' ==> bs'[b] == batches'[b])
    && (forall b :: b in bs && b !in batches' ==> bs'[b] == bs[b])
  }

  datatype Archive = Archive(jobs: Jobs, batches: Batches)

  /** A run of the lifecycle with its archive after every step. */
  ghost predicate IsJournal(dbs: seq<Db>, archives: seq<Archive>, steps: seq<Step>) {
    && IsTrace(dbs, steps) && |archives| == |steps| + 1
    && dbs[0] == EMPTY_DB && archives[0] == Archive(map[], map[])
    && forall k :: 0 <= k < |steps| ==>
         && Honest(steps[k])
         && JobsFollow(archives[k].jobs, dbs[k + 1].jobs, archives[k + 1].jobs)
         && BatchesFollow(archives[k].batches, dbs[k + 1].batches, archives[k + 1].batches)
  }

  /** Callers leave callback keys and `batch_id` to the batch machinery. */
  ghost predicate Honest(s: Step) {
    match s
    case Enqueue(req, _) => req.batch.None? && UserKey(req.uniqueKey)
    case Batched(items, onComplete, _) =>
      && (forall i :: 0 <= i < |items| ==> UserKey(items[i].uniqueKey))
      && (onComplete.Some? ==> onComplete.value.batch.None?)
    case _ => true
  }

  // ---- The invariant ----

  /** Table and archive agree; what left the table was finished. */
  ghost predicate JobsLinked(db: Db, m: Jobs) {
    && (forall id :: id in db.jobs ==> id in m && m[id] == db.jobs[id].(batch := m[id].batch))
    && (forall id :: id in m ==> id < db.nextJob && (id !in db.jobs ==> m[id].state.Terminal()))
  }

  ghost predicate BatchesLinked(db: Db, bs: Batches) {
    && (forall b :: b in db.batches ==> b in bs && bs[b] == db.batches[b])
    && (forall b :: b in bs ==> b < db.nextBatch && (b !in db.batches ==> bs[b].complete))
  }

  /** A live batch's members still point at it; only a deleted batch's jobs lose their link. */
  ghost predicate LinksHold(db: Db, m: Jobs) {
    && (forall id :: id in db.jobs && id in m && m[id].batch.Some? && m[id].batch.value in db.batches ==>
          db.jobs[id].batch == m[id].batch)
    && (forall id :: id in db.jobs && db.jobs[id].batch.Some? ==>
          id in m && m[id].batch == db.jobs[id].batch && db.jobs[id].batch.value in db.batches)
  }

  ghost predicate Linked(db: Db, m: Jobs, bs: Batches) {
    JobsLinked(db, m) && BatchesLinked(db, bs) && LinksHold(db, m)
  }

  /** The invariant inside a transaction: the batches in `open` are still to be decided. */
  ghost predicate Partial(db: Db, m: Jobs, bs: Batches, open: set<BatchId>) {
    Linked(db, m, bs) && open <= db.batches.Keys && Right(m, bs, open)
  }

  ghost predicate Inv(db: Db, m: Jobs, bs: Batches) {
    Partial(db, m, bs, {})
  }

  /** The archive was at `(m, bs)` and is at `(m', bs')` now that the tables are `db'`. */
  ghost predicate Follows(m: Jobs, bs: Batches, db': Db, m': Jobs, bs': Batches) {
    JobsFollow(m, db'.jobs, m') && BatchesFollow(bs, db'.batches, bs')
  }

  /** Following twice within a transaction, which deletes nothing, is following once. */
  lemma FollowsTwice(m: Jobs, bs: Batches, db1: Db, m1: Jobs, bs1: Batches, db2: Db, m2: Jobs, bs2: Batches)
    requires Follows(m, bs, db1, m1, bs1) && Follows(m1, bs1, db2, m2, bs2) && Keeps(db1, db2)
    ensures Follows(m, bs, db2, m2, bs2)
  {
  }

  ghost predicate Keeps(db: Db, db': Db) {
    && (forall id :: id in db.jobs ==> id in db'.jobs && db'.jobs[id].batch == db.jobs[id].batch)
    && (forall b :: b in db.batches ==> b in db'.batches)
  }

  // ---- Moving jobs ----

  function Moved(m: Jobs, jobs': Jobs): Jobs {
    map id | id in m :: if id in jobs' then jobs'[id].(batch := m[id].batch) else m[id]
  }

  lemma MovedEvolves(db: Db, m: Jobs, bs: Batches, jobs': Jobs)
    requires JobsLinked(db, m) && LinksHold(db, m) && Evolves(db.jobs, jobs')
    ensures Evolves(m, Moved(m, jobs'))
  {
  }

  /** A job that just finished was live, so it still points at its batch. */
  lemma MovedNewly(db: Db, m: Jobs, bs: Batches, jobs': Jobs, b: BatchId, s: JobState)
    requires Linked(db, m, bs) && Right(m, bs, {}) && Evolves(db.jobs, jobs') && s.Terminal()
    ensures Newly(m, Moved(m, jobs'), b, s) == Newly(db.jobs, jobs', b, s)
    ensures b !in db.batches ==> Newly(m, Moved(m, jobs'), b, s) == {}
  {
    hide Right, BatchesLinked;
    forall id | id in m && !m[id].state.Terminal() && m[id].batch == Some(b)
      ensures id in db.jobs && db.jobs[id].batch == Some(b) && b in db.batches
    {
      LiveMemberIsLinked(db, m, bs, id);
    }
  }

  lemma LiveMemberIsLinked(db: Db, m: Jobs, bs: Batches, id: JobId)
    requires Linked(db, m, bs) && Right(m, bs, {}) && id in m && !m[id].state.Terminal() && m[id].batch.Some?
    ensures id in db.jobs && m[id].batch.value in db.batches && db.jobs[id].batch == m[id].batch
  {
    var b := m[id].batch.value;
    assert b in bs && Ok(m, b, bs[b], false);
    if b !in db.batches {
      assert id in Members(m, b);
      SumMeansAllEnded(m, b, bs[b], id);
    }
  }

  function MovedBatches(bs: Batches, batches': Batches): Batches {
    map b | b in bs :: if b in batches' then batches'[b] else bs[b]
  }

  lemma MovedBumpsOne(db: Db, m: Jobs, bs: Batches, jobs': Jobs, b: BatchId)
    requires Linked(db, m, bs) && Right(m, bs, {}) && Evolves(db.jobs, jobs')
    ensures |Newly(m, Moved(m, jobs'), b, Completed)| == |Newly(db.jobs, jobs', b, Completed)|
    ensures |Newly(m, Moved(m, jobs'), b, Failed)| == |Newly(db.jobs, jobs', b, Failed)|
    ensures |Newly(m, Moved(m, jobs'), b, Cancelled)| == |Newly(db.jobs, jobs', b, Cancelled)|
    ensures Touches(m, Moved(m, jobs'), b) <==> Touches(db.jobs, jobs', b)
    ensures b !in db.batches ==>
              && !Touches(m, Moved(m, jobs'), b)
              && |Newly(m, Moved(m, jobs'), b, Completed)| == 0 && |Newly(m, Moved(m, jobs'), b, Failed)| == 0
              && |Newly(m, Moved(m, jobs'), b, Cancelled)| == 0
  {
    MovedNewly(db, m, bs, jobs', b, Completed);
    MovedNewly(db, m, bs, jobs', b, Failed);
    MovedNewly(db, m, bs, jobs', b, Cancelled);
  }

  lemma MovedBumps(db: Db, m: Jobs, bs: Batches, db': Db)
    requires Linked(db, m, bs) && Right(m, bs, {}) && Evolves(db.jobs, db'.jobs)
    requires Bumps(db.jobs, db.batches, db'.jobs, db'.batches)
    ensures Bumps(m, bs, Moved(m, db'.jobs), MovedBatches(bs, db'.batches))
  {
    hide Right, Newly, Touches, Evolves, JobsLinked, LinksHold, Moved;
    var m', bs' := Moved(m, db'.jobs), MovedBatches(bs, db'.batches);
    forall b | b in bs
      ensures bs'[b] == bs[b].(
           completed := bs[b].completed + |Newly(m, m', b, Completed)|,
           failed := bs[b].failed + |Newly(m, m', b, Failed)|,
           cancelled := bs[b].cancelled + |Newly(m, m', b, Cancelled)|)
    {
      MovedBumpsOne(db, m, bs, db'.jobs, b);
    }
  }

  lemma MovedLinked(db: Db, m: Jobs, bs: Batches, db': Db)
    requires Linked(db, m, bs) && Evolves(db.jobs, db'.jobs) && db'.batches.Keys == db.batches.Keys
    requires db'.nextJob == db.nextJob && db'.nextBatch == db.nextBatch
    ensures Linked(db', Moved(m, db'.jobs), MovedBatches(bs, db'.batches))
  {
  }

  /** `open` is exactly the batches some member of which just finished. */
  lemma MoveKeepsInv(db: Db, m: Jobs, bs: Batches, db': Db, open: set<BatchId>)
    requires Inv(db, m, bs) && Evolves(db.jobs, db'.jobs) && Bumps(db.jobs, db.batches, db'.jobs, db'.batches)
    requires db'.nextJob == db.nextJob && db'.nextBatch == db.nextBatch
    requires forall b :: b in open <==> b in db.batches && Touches(db.jobs, db'.jobs, b)
    ensures Partial(db', Moved(m, db'.jobs), MovedBatches(bs, db'.batches), open)
  {
    var m', bs' := Moved(m, db'.jobs), MovedBatches(bs, db'.batches);
    MovedEvolves(db, m, bs, db'.jobs);
    MovedBumps(db, m, bs, db');
    MovedLinked(db, m, bs, db');
    forall b: BatchId ensures b in open <==> b in bs && Touches(m, m', b) {
      MovedBumpsOne(db, m, bs, db'.jobs, b);
    }
    MoveKeeps(m, bs, m', bs', open);
  }

  lemma MovedFollows(db: Db, m: Jobs, bs: Batches, db': Db)
    requires Linked(db, m, bs) && db'.jobs.Keys == db.jobs.Keys && db'.batches.Keys == db.batches.Keys
    ensures JobsFollow(m, db'.jobs, Moved(m, db'.jobs)) && BatchesFollow(bs, db'.batches, MovedBatches(bs, db'.batches))
  {
  }

  // ---- Adding a job, rewriting a batch row ----

  lemma AddJobLinked(db: Db, m: Jobs, bs: Batches, j: Job)
    requires Linked(db, m, bs) && (j.batch.Some? ==> j.batch.value in db.batches)
    ensures Linked(AddJob(db, j), m[db.nextJob := j], bs) && db.nextJob !in m
  {
    assert db.nextJob !in m;
    AddJobLinks(db, m, j);
    hide JobsLinked, LinksHold;
  }

  lemma AddJobLinks(db: Db, m: Jobs, j: Job)
    requires JobsLinked(db, m) && LinksHold(db, m) && (j.batch.Some? ==> j.batch.value in db.batches)
    ensures JobsLinked(AddJob(db, j), m[db.nextJob := j]) && LinksHold(AddJob(db, j), m[db.nextJob := j])
  {
  }

  lemma WithBatchLinked(db: Db, m: Jobs, bs: Batches, b: BatchId, row: Batch)
    requires Linked(db, m, bs) && b in db.batches
    ensures Linked(WithBatch(db, b, row), m, bs[b := row])
  {
  }

  lemma SelfFollows(db: Db, m: Jobs, bs: Batches)
    requires Linked(db, m, bs)
    ensures Follows(m, bs, db, m, bs) && Keeps(db, db)
  {
  }

  lemma RowFollows(db: Db, m: Jobs, bs: Batches, b: BatchId, row: Batch)
    requires Linked(db, m, bs) && b in db.batches
    ensures Follows(m, bs, WithBatch(db, b, row), m, bs[b := row]) && Keeps(db, WithBatch(db, b, row))
  {
  }

  lemma AddFollows(db: Db, m: Jobs, bs: Batches, db': Db, j: Job)
    requires Linked(db, m, bs) && db'.jobs == db.jobs[db.nextJob := j] && db'.batches == db.batches
    ensures Follows(m, bs, db', m[db.nextJob := j], bs) && Keeps(db, db')
  {
    assert db.nextJob !in m;
  }

  lemma KeepsTwice(db: Db, db1: Db, db2: Db)
    requires Keeps(db, db1) && Keeps(db1, db2)
    ensures Keeps(db, db2)
  {
  }

  /** An archive that is linked to the tables, and agrees with an earlier one elsewhere, has followed them. */
  lemma LinkedFollows(db: Db, m: Jobs, bs: Batches, db': Db, m': Jobs, bs': Batches)
    requires Linked(db, m, bs) && Linked(db', m', bs')
    requires m'.Keys == m.Keys + db'.jobs.Keys && bs'.Keys == bs.Keys + db'.batches.Keys
    requires forall id :: id in m ==> m'[id].batch == m[id].batch && (id !in db'.jobs ==> m'[id] == m[id])
    requires forall id :: id in m' && id !in m ==> m'[id] == db'.jobs[id]
    requires forall b :: b in bs && b !in db'.batches ==> bs'[b] == bs[b]
    ensures Follows(m, bs, db', m', bs')
  {
  }

  /** Only four columns matter here. */
  lemma Frame(db: Db, m: Jobs, bs: Batches, db': Db, open: set<BatchId>)
    requires Partial(db, m, bs, open)
    requires db'.jobs == db.jobs && db'.batches == db.batches && db'.nextJob == db.nextJob && db'.nextBatch == db.nextBatch
    ensures Partial(db', m, bs, open)
  {
  }

  // ---- Firing ----

  /** Nobody holds the callback key of a batch that has not fired. */
  lemma NoConflict(db: Db, m: Jobs, b: BatchId, req: Request)
    requires JobsLinked(db, m) && Callbacks(m, b) == {} && req.uniqueKey == Some(CallbackOf(b))
    ensures !Conflicts(db.jobs, req)
  {
    forall id | id in db.jobs ensures db.jobs[id].uniqueKey != req.uniqueKey {
      assert id !in Callbacks(m, b);
    }
  }

  lemma AnnounceKeeps(db: Db, m: Jobs, bs: Batches, b: BatchId, j: Job, open: set<BatchId>, now: Time)
    requires Partial(db, m, bs, open) && b in open && db.batches[b].Sum() == db.batches[b].total
    requires j.state == Pending && j.batch.None? && j.uniqueKey == Some(CallbackOf(b))
    requires Announces(j, b, Close(db.batches[b], now)) && ValidQueueName(db.batches[b].onComplete.value.queue)
    ensures Partial(AddJob(WithBatch(db, b, Close(db.batches[b], now)), j),
                    m[db.nextJob := j], bs[b := Close(db.batches[b], now)], open - {b})
  {
    var row := Close(db.batches[b], now);
    assert bs[b] == db.batches[b];
    WithBatchLinked(db, m, bs, b, row);
    AddJobLinked(WithBatch(db, b, row), m, bs[b := row], j);
    CloseAndAnnounce(m, bs, open, b, db.nextJob, j, now);
  }

  lemma OpenFacts(db: Db, m: Jobs, bs: Batches, b: BatchId, open: set<BatchId>)
    requires Partial(db, m, bs, open) && b in open
    ensures Callbacks(m, b) == {}
    ensures db.batches[b].onComplete.Some? ==> db.batches[b].onComplete.value.batch.None?
  {
    assert bs[b] == db.batches[b] && Ok(m, b, bs[b], true);
  }

  /** Enqueueing the callback of a batch that adds up completes it. */
  lemma FireCloses(db: Db, m: Jobs, bs: Batches, b: BatchId, duration: int, open: set<BatchId>, now: Time)
    returns (m': Jobs, bs': Batches)
    requires Partial(db, m, bs, open) && b in open && db.batches[b].Sum() == db.batches[b].total
    requires db.batches[b].onComplete.Some? && ValidQueueName(db.batches[b].onComplete.value.queue)
    ensures var r := db.batches[b];
            var db' := InsertDyn(WithBatch(db, b, Close(r, now)), Callback(r.onComplete.value, b, r, duration), now);
            && db'.Some? && Partial(db'.value, m', bs', open - {b})
            && Keeps(db, db'.value) && Follows(m, bs, db'.value, m', bs')
  {
    hide Right, JobsLinked, BatchesLinked, LinksHold, JobsFollow, BatchesFollow, Keeps, Announces, Conflicts, Materialize;
    var r := db.batches[b];
    var req := Callback(r.onComplete.value, b, r, duration);
    var j, db1 := NewJob(req, now), WithBatch(db, b, Close(r, now));
    OpenFacts(db, m, bs, b, open);
    NoConflict(db, m, b, req);
    CallbackAnnounces(r, b, duration, now);
    m', bs' := m[db.nextJob := j], bs[b := Close(r, now)];
    AnnounceKeeps(db, m, bs, b, j, open, now);
    var db' := InsertDyn(db1, req, now).value;
    Frame(AddJob(db1, j), m', bs', db', open - {b});
    RowFollows(db, m, bs, b, Close(r, now));
    WithBatchLinked(db, m, bs, b, Close(r, now));
    AddFollows(db1, m, bs', db', j);
    FollowsTwice(m, bs, db1, m, bs', db', m', bs');
    KeepsTwice(db, db1, db');
  }

  lemma SilentCloses(db: Db, m: Jobs, bs: Batches, b: BatchId, open: set<BatchId>, now: Time)
    requires Partial(db, m, bs, open) && b in open && db.batches[b].Sum() == db.batches[b].total
    requires db.batches[b].onComplete.None?
    ensures Partial(WithBatch(db, b, Close(db.batches[b], now)), m, bs[b := Close(db.batches[b], now)], open - {b})
  {
    assert bs[b] == db.batches[b];
    CloseSilently(m, bs, open, b, now);
    WithBatchLinked(db, m, bs, b, Close(db.batches[b], now));
  }

  lemma ClaimableWasOpen(db: Db, m: Jobs, bs: Batches, open: set<BatchId>, b: BatchId)
    requires Partial(db, m, bs, open) && b in db.batches
    ensures Claimable(db, b) ==> b in open
    ensures !Claimable(db, b) && b in open ==> db.batches[b].Sum() != db.batches[b].total
  {
    assert bs[b] == db.batches[b] && Ok(m, b, bs[b], b in open);
  }

  lemma IdleFire(db: Db, m: Jobs, bs: Batches, b: BatchId, open: set<BatchId>)
    requires Partial(db, m, bs, open) && !Claimable(db, b)
    ensures Partial(db, m, bs, open - {b})
  {
    if b in db.batches {
      ClaimableWasOpen(db, m, bs, open, b);
      assert bs[b] == db.batches[b];
    }
    NotYet(m, bs, open, b);
  }

  /** Firing decides one batch: it closes it if its counts add up, and otherwise changes nothing. */
  lemma FireDecides(db: Db, m: Jobs, bs: Batches, b: BatchId, open: set<BatchId>, now: Time)
    returns (m': Jobs, bs': Batches)
    requires Partial(db, m, bs, open) && TryFire(db, b, now).Some?
    ensures var db' := TryFire(db, b, now).value;
            Partial(db', m', bs', open - {b}) && Keeps(db, db') && Follows(m, bs, db', m', bs')
  {
    hide Right, JobsLinked, BatchesLinked, LinksHold, JobsFollow, BatchesFollow, Keeps, Conflicts, Materialize;
    if !Claimable(db, b) {
      IdleFire(db, m, bs, b, open);
      SelfFollows(db, m, bs);
      return m, bs;
    }
    ClaimableWasOpen(db, m, bs, open, b);
    var r := db.batches[b];
    if r.onComplete.Some? {
      m', bs' := FireCloses(db, m, bs, b, now - r.createdAt, open, now);
    } else {
      SilentCloses(db, m, bs, b, open, now);
      m', bs' := m, bs[b := Close(r, now)];
      RowFollows(db, m, bs, b, Close(r, now));
    }
  }

  lemma {:induction false} FireAllDecides(db: Db, m: Jobs, bs: Batches, fired: seq<BatchId>, open: set<BatchId>, now: Time)
    returns (m': Jobs, bs': Batches)
    requires Partial(db, m, bs, open) && FireAll(db, fired, now).Some?
    requires forall b :: b in open ==> b in fired
    ensures var db' := FireAll(db, fired, now).value;
            Inv(db', m', bs') && Keeps(db, db') && Follows(m, bs, db', m', bs')
    decreases |fired|
  {
    hide Right, JobsLinked, BatchesLinked, LinksHold, JobsFollow, BatchesFollow, Keeps, TryFire;
    if fired == [] {
      assert open == {};
      SelfFollows(db, m, bs);
      return m, bs;
    }
    var m1, bs1 := FireDecides(db, m, bs, fired[0], open, now);
    var db1 := TryFire(db, fired[0], now).value;
    m', bs' := FireAllDecides(db1, m1, bs1, fired[1..], open - {fired[0]}, now);
    KeepsTwice(db, db1, FireAll(db, fired, now).value);
    FollowsTwice(m, bs, db1, m1, bs1, FireAll(db, fired, now).value, m', bs');
  }

  // ---- The transactions ----

  /** Settling is bumping the row and then trying to fire. */
  lemma SettleIsBumpThenFire(db: Db, b: BatchId, o: Outcome, now: Time)
    requires b in db.batches
    ensures Settle(db, b, o, now) == TryFire(WithBatch(db, b, Bump(db.batches[b], o)), b, now)
  {
  }

  function StateOf(o: Outcome): JobState {
    match o case DidComplete => Completed case DidFail => Failed case DidCancel => Cancelled
  }

  lemma NewlyOne(m: Jobs, m': Jobs, id: JobId, o: Outcome, b: BatchId, s: JobState)
    requires id in m && id in m' && !m[id].state.Terminal() && m'[id].state == StateOf(o) && s.Terminal()
    requires forall x :: x in m && x != id ==> x in m' && m'[x] == m[x]
    ensures Newly(m, m', b, s) == if m[id].batch == Some(b) && s == StateOf(o) then {id} else {}
  {
  }

  /** What one finished job bumps and touches. */
  lemma FinishBumps(db: Db, db1: Db, id: JobId, o: Outcome)
    requires id in db.jobs && id in db1.jobs && !db.jobs[id].state.Terminal() && db1.batches == db.batches
    requires db1.jobs[id].state == StateOf(o)
    requires forall x :: x in db.jobs && x != id ==> x in db1.jobs && db1.jobs[x] == db.jobs[x]
    requires db.jobs[id].batch.Some? ==> db.jobs[id].batch.value in db.batches
    ensures var b := db.jobs[id].batch;
            Bumps(db.jobs, db.batches, db1.jobs,
                  if b.Some? then db1.batches[b.value := Bump(db1.batches[b.value], o)] else db1.batches)
    ensures forall c: BatchId :: Touches(db.jobs, db1.jobs, c) <==> db.jobs[id].batch == Some(c)
  {
    hide Newly;
    forall c: BatchId, s: JobState | s.Terminal()
      ensures Newly(db.jobs, db1.jobs, c, s) == if db.jobs[id].batch == Some(c) && s == StateOf(o) then {id} else {}
    {
      NewlyOne(db.jobs, db1.jobs, id, o, c, s);
    }
  }

  /** One job finishes and its batch, if any, is settled. */
  lemma FinishKeeps(db: Db, m: Jobs, bs: Batches, db1: Db, id: JobId, o: Outcome, now: Time)
    returns (m': Jobs, bs': Batches)
    requires Inv(db, m, bs) && id in db.jobs && !db.jobs[id].state.Terminal()
    requires db1.nextJob == db.nextJob && db1.nextBatch == db.nextBatch && db1.batches == db.batches
    requires Evolves(db.jobs, db1.jobs) && db1.jobs[id].state == StateOf(o)
    requires forall x :: x in db.jobs && x != id ==> db1.jobs[x] == db.jobs[x]
    requires SettleOpt(db1, db.jobs[id].batch, o, now).Some?
    ensures var db' := SettleOpt(db1, db.jobs[id].batch, o, now).value;
            Inv(db', m', bs') && Follows(m, bs, db', m', bs')
  {
    assert db1.jobs.Keys == db.jobs.Keys;
    hide Right, JobsLinked, BatchesLinked, JobsFollow, BatchesFollow, TryFire, Moved, MovedBatches, Evolves, Bumps, Touches;
    var batch := db.jobs[id].batch;
    FinishBumps(db, db1, id, o);
    var db2 := if batch.Some? then WithBatch(db1, batch.value, Bump(db1.batches[batch.value], o)) else db1;
    var open := if batch.Some? then {batch.value} else {};
    MoveKeepsInv(db, m, bs, db2, open);
    var m1, bs1 := Moved(m, db2.jobs), MovedBatches(bs, db2.batches);
    MovedFollows(db, m, bs, db2);
    if batch.None? {
      return m1, bs1;
    }
    SettleIsBumpThenFire(db1, batch.value, o, now);
    m', bs' := LastFire(db2, m, bs, m1, bs1, batch.value, now);
  }

  /** The one open batch is decided, and the archive follows through. */
  lemma LastFire(db: Db, m0: Jobs, bs0: Batches, m: Jobs, bs: Batches, b: BatchId, now: Time)
    returns (m': Jobs, bs': Batches)
    requires Partial(db, m, bs, {b}) && Follows(m0, bs0, db, m, bs) && TryFire(db, b, now).Some?
    ensures var db' := TryFire(db, b, now).value;
            Inv(db', m', bs') && Follows(m0, bs0, db', m', bs')
  {
    hide Right, Linked, Follows, TryFire, Keeps;
    m', bs' := FireDecides(db, m, bs, b, {b}, now);
    assert {b} - {b} == {};
    FollowsTwice(m0, bs0, db, m, bs, TryFire(db, b, now).value, m', bs');
  }

  lemma RecoverKeeps(db: Db, m: Jobs, bs: Batches, ids: set<JobId>, now: Time)
    returns (m': Jobs, bs': Batches)
    requires Inv(db, m, bs) && Recover(db, ids, now).Some?
    ensures var db' := Recover(db, ids, now).value;
            Inv(db', m', bs') && Follows(m, bs, db', m', bs')
  {
    var swept := Swept(db.jobs, ids);
    var db1 := StallRows(db, swept, now);
    StallBumps(db, swept, now);
    var open := Bumped(db, swept);
    MoveKeepsInv(db, m, bs, db1, open);
    MovedFollows(db, m, bs, db1);
    var m1, bs1 := Moved(m, db1.jobs), MovedBatches(bs, db1.batches);
    m', bs' := FireAllDecides(db1, m1, bs1, Ascending(open), open, now);
    FollowsTwice(m, bs, db1, m1, bs1, Recover(db, ids, now).value, m', bs');
  }

  lemma StallBumps(db: Db, swept: set<JobId>, now: Time)
    requires swept == Swept(db.jobs, swept)
    ensures var db1 := StallRows(db, swept, now);
            && Evolves(db.jobs, db1.jobs) && Bumps(db.jobs, db.batches, db1.jobs, db1.batches)
            && (forall b :: b in Bumped(db, swept) <==> b in db.batches && Touches(db.jobs, db1.jobs, b))
  {
    hide Newly, FailedOf, Evolves, StallRows;
    var db1 := StallRows(db, swept, now);
    StallEvolves(db, swept, now);
    StallBatches(db, swept, now);
    forall b: BatchId
      ensures Newly(db.jobs, db1.jobs, b, Failed) == FailedOf(db.jobs, swept, b)
      ensures Newly(db.jobs, db1.jobs, b, Completed) == {} && Newly(db.jobs, db1.jobs, b, Cancelled) == {}
    {
      StallNewly(db, swept, now, b);
    }
  }

  lemma StallEvolves(db: Db, swept: set<JobId>, now: Time)
    requires swept == Swept(db.jobs, swept)
    ensures Evolves(db.jobs, StallRows(db, swept, now).jobs)
  {
    hide ReleaseGroups, ReleaseQueues, BumpedBatches;
    forall id | id in db.jobs && id in swept ensures var j, j' := db.jobs[id], Stalled(db.jobs[id], now);
      j'.batch == j.batch && j'.uniqueKey == j.uniqueKey && j'.payload == j.payload && j'.kind == j.kind && j'.queue == j.queue
    {
    }
    hide Stalled;
  }

  lemma StallBatches(db: Db, swept: set<JobId>, now: Time)
    ensures var bs := StallRows(db, swept, now).batches;
            && bs.Keys == db.batches.Keys
            && forall b :: b in db.batches ==> bs[b] == db.batches[b].(failed := db.batches[b].failed + |FailedOf(db.jobs, swept, b)|)
  {
    hide ReleaseGroups, ReleaseQueues, StalledJobs, FailedOf;
  }

  lemma StallNewly(db: Db, swept: set<JobId>, now: Time, b: BatchId)
    requires swept == Swept(db.jobs, swept)
    ensures var jobs' := StallRows(db, swept, now).jobs;
            && Newly(db.jobs, jobs', b, Failed) == FailedOf(db.jobs, swept, b)
            && Newly(db.jobs, jobs', b, Completed) == {} && Newly(db.jobs, jobs', b, Cancelled) == {}
  {
    hide ReleaseGroups, ReleaseQueues, BumpedBatches;
  }

  lemma QuietBumps(db: Db, db': Db)
    requires Evolves(db.jobs, db'.jobs) && db'.batches == db.batches
    requires forall id :: id in db.jobs && !db.jobs[id].state.Terminal() ==> !db'.jobs[id].state.Terminal()
    ensures Bumps(db.jobs, db.batches, db'.jobs, db'.batches)
    ensures forall b :: !Touches(db.jobs, db'.jobs, b)
  {
    forall b: BatchId
      ensures Newly(db.jobs, db'.jobs, b, Completed) == {} && Newly(db.jobs, db'.jobs, b, Failed) == {}
      ensures Newly(db.jobs, db'.jobs, b, Cancelled) == {}
    {
    }
  }

  lemma QuietKeepsInv(db: Db, m: Jobs, bs: Batches, db': Db)
    requires Inv(db, m, bs) && Evolves(db.jobs, db'.jobs) && db'.batches == db.batches
    requires forall id :: id in db.jobs && !db.jobs[id].state.Terminal() ==> !db'.jobs[id].state.Terminal()
    requires db'.nextJob == db.nextJob && db'.nextBatch == db.nextBatch
    ensures Inv(db', Moved(m, db'.jobs), MovedBatches(bs, db'.batches))
    ensures Follows(m, bs, db', Moved(m, db'.jobs), MovedBatches(bs, db'.batches))
  {
    assert db'.jobs.Keys == db.jobs.Keys;
    hide Right, Linked, Evolves, Bumps, Touches, Moved, MovedBatches;
    QuietBumps(db, db');
    MoveKeepsInv(db, m, bs, db', {});
    MovedFollows(db, m, bs, db');
  }

  // ---- Enqueueing ----

  lemma EnqueueKeeps(db: Db, m: Jobs, bs: Batches, req: Request, now: Time)
    returns (m': Jobs)
    requires Inv(db, m, bs) && req.batch.None? && UserKey(req.uniqueKey) && InsertDyn(db, req, now).Some?
    ensures var db' := InsertDyn(db, req, now).value;
            Inv(db', m', bs) && Follows(m, bs, db', m', bs)
  {
    hide Right, JobsLinked, BatchesLinked, LinksHold, JobsFollow, BatchesFollow, Keeps, Conflicts, Materialize;
    if Conflicts(db.jobs, req) {
      SelfFollows(db, m, bs);
      return m;
    }
    var j, db' := NewJob(req, now), InsertDyn(db, req, now).value;
    m' := m[db.nextJob := j];
    AddJobLinked(db, m, bs, j);
    AddedKeeps(m, bs, db.nextJob, j);
    Frame(AddJob(db, j), m', bs, db', {});
    AddFollows(db, m, bs, db', j);
  }

  ghost predicate FillingDb(db: Db, m: Jobs, bs: Batches, b: BatchId, lo: JobId) {
    Linked(db, m, bs) && b in db.batches && Filling(m, bs, b, lo, db.nextJob)
  }

  lemma FillOneDb(db: Db, m: Jobs, bs: Batches, b: BatchId, lo: JobId, j: Job)
    requires FillingDb(db, m, bs, b, lo) && j.state == Pending && j.batch == Some(b) && UserKey(j.uniqueKey)
    ensures FillingDb(AddJob(db, j), m[db.nextJob := j], bs, b, lo)
  {
    AddJobLinked(db, m, bs, j);
    FillOne(m, bs, b, lo, db.nextJob, j);
  }

  lemma {:induction false} FillRows(db: Db, m: Jobs, bs: Batches, b: BatchId, lo: JobId, reqs: seq<Request>, now: Time)
    returns (m': Jobs)
    requires FillingDb(db, m, bs, b, lo)
    requires forall i :: 0 <= i < |reqs| ==> reqs[i].batch == Some(b) && UserKey(reqs[i].uniqueKey)
    ensures var db' := InsertRows(db, reqs, now);
            FillingDb(db', m', bs, b, lo) && Keeps(db, db') && Follows(m, bs, db', m', bs)
    decreases |reqs|
  {
    hide JobsLinked, BatchesLinked, LinksHold, JobsFollow, BatchesFollow, Keeps, Conflicts, Filling;
    if reqs == [] {
      SelfFollows(db, m, bs);
      return m;
    }
    if Conflicts(db.jobs, reqs[0]) {
      m' := FillRows(db, m, bs, b, lo, reqs[1..], now);
    } else {
      var j := NewJob(reqs[0], now);
      var db1, m1 := AddJob(db, j), m[db.nextJob := j];
      FillOneDb(db, m, bs, b, lo, j);
      AddFollows(db, m, bs, db1, j);
      m' := FillRows(db1, m1, bs, b, lo, reqs[1..], now);
      FollowsTwice(m, bs, db1, m1, bs, InsertRows(db, reqs, now), m', bs);
      KeepsTwice(db, db1, InsertRows(db, reqs, now));
    }
  }

  lemma SizedPartial(db: Db, m: Jobs, bs: Batches, b: BatchId, lo: JobId)
    requires FillingDb(db, m, bs, b, lo) && Unstarted(db.batches[b])
    ensures lo <= db.nextJob
    ensures var row := db.batches[b].(total := db.nextJob - lo);
            Partial(WithBatch(db, b, row), m, bs[b := row], if db.nextJob == lo then {b} else {})
  {
    var row := db.batches[b].(total := db.nextJob - lo);
    assert bs[b] == db.batches[b];
    SizedIsRight(m, bs, b, lo, db.nextJob, row);
    WithBatchLinked(db, m, bs, b, row);
  }

  lemma SizeKeeps(db: Db, m: Jobs, bs: Batches, b: BatchId, lo: JobId, now: Time)
    returns (m': Jobs, bs': Batches)
    requires FillingDb(db, m, bs, b, lo) && Unstarted(db.batches[b]) && lo <= db.nextJob
    requires SizeBatch(db, b, db.nextJob - lo, now).Some?
    ensures var db' := SizeBatch(db, b, db.nextJob - lo, now).value;
            Inv(db', m', bs') && Keeps(db, db') && Follows(m, bs, db', m', bs')
  {
    hide Right, JobsLinked, BatchesLinked, LinksHold, JobsFollow, BatchesFollow, Keeps, Filling, Conflicts, Materialize;
    var row := db.batches[b].(total := db.nextJob - lo);
    var db1, bs1 := WithBatch(db, b, row), bs[b := row];
    SizedPartial(db, m, bs, b, lo);
    RowFollows(db, m, bs, b, row);
    if db.nextJob != lo {
      return m, bs1;
    }
    assert WithBatch(db1, b, Close(row, now)) == WithBatch(db, b, Close(row, now));
    assert {b} - {b} == {};
    var db' := SizeBatch(db, b, db.nextJob - lo, now).value;
    if row.onComplete.Some? {
      m', bs' := FireCloses(db1, m, bs1, b, 0, {b}, now);
    } else {
      SilentCloses(db1, m, bs1, b, {b}, now);
      m', bs' := m, bs1[b := Close(row, now)];
      RowFollows(db1, m, bs1, b, Close(row, now));
    }
    FollowsTwice(m, bs, db1, m, bs1, db', m', bs');
    KeepsTwice(db, db1, db');
  }

  lemma OpenKeeps(db: Db, m: Jobs, bs: Batches, onComplete: Option<Request>, now: Time)
    requires Inv(db, m, bs) && (onComplete.Some? ==> onComplete.value.batch.None?)
    ensures var db1 := OpenBatch(db, onComplete, now);
            var bs1 := bs[db.nextBatch := db1.batches[db.nextBatch]];
            && FillingDb(db1, m, bs1, db.nextBatch, db.nextJob) && Follows(m, bs, db1, m, bs1)
            && Unstarted(db1.batches[db.nextBatch])
  {
    var b, db1 := db.nextBatch, OpenBatch(db, onComplete, now);
    assert b !in bs;
    OpenFills(m, bs, b, db1.batches[b], db.nextJob);
    OpenLinked(db, m, bs, onComplete, now);
  }

  lemma OpenLinked(db: Db, m: Jobs, bs: Batches, onComplete: Option<Request>, now: Time)
    requires Linked(db, m, bs) && Clean(m, bs)
    ensures var db1 := OpenBatch(db, onComplete, now);
            var bs1 := bs[db.nextBatch := db1.batches[db.nextBatch]];
            Linked(db1, m, bs1) && Follows(m, bs, db1, m, bs1)
  {
    OpenLinksBatches(db, m, bs, onComplete, now);
    hide BatchesLinked, BatchesFollow, Clean;
  }

  lemma OpenLinksBatches(db: Db, m: Jobs, bs: Batches, onComplete: Option<Request>, now: Time)
    requires BatchesLinked(db, bs) && LinksHold(db, m) && Clean(m, bs)
    ensures var db1 := OpenBatch(db, onComplete, now);
            var bs1 := bs[db.nextBatch := db1.batches[db.nextBatch]];
            BatchesLinked(db1, bs1) && BatchesFollow(bs, db1.batches, bs1) && LinksHold(db1, m)
  {
  }

  lemma BatchedKeeps(db: Db, m: Jobs, bs: Batches, items: seq<Request>, onComplete: Option<Request>, now: Time)
    returns (m': Jobs, bs': Batches)
    requires Inv(db, m, bs) && Honest(Batched(items, onComplete, now)) && EnqueueBatch(db, items, onComplete, now).Some?
    ensures var db' := EnqueueBatch(db, items, onComplete, now).value;
            Inv(db', m', bs') && Follows(m, bs, db', m', bs')
  {
    hide Right, JobsLinked, BatchesLinked, LinksHold, JobsFollow, BatchesFollow, Keeps, Filling, Materialize, SizeBatch, Conflicts;
    hide InsertRows, FillingDb;
    var b, db1, reqs := db.nextBatch, OpenBatch(db, onComplete, now), Stamp(items, db.nextBatch);
    var bs1 := bs[b := db1.batches[b]];
    OpenKeeps(db, m, bs, onComplete, now);
    var m2 := FillRows(db1, m, bs1, b, db.nextJob, reqs, now);
    InsertRowsKeepsBatches(db1, reqs, now);
    var rows, db2 := InsertRows(db1, reqs, now), InsertMany(db1, reqs, now).value;
    FillingFrame(rows, m2, bs1, db2, b, db.nextJob);
    FollowsTwice(m, bs, db1, m, bs1, rows, m2, bs1);
    m', bs' := SizeKeeps(db2, m2, bs1, b, db.nextJob, now);
    FollowsFrame(m, bs, rows, db2, m2, bs1);
    FollowsTwice(m, bs, db2, m2, bs1, EnqueueBatch(db, items, onComplete, now).value, m', bs');
  }

  lemma FillingFrame(db: Db, m: Jobs, bs: Batches, db': Db, b: BatchId, lo: JobId)
    requires FillingDb(db, m, bs, b, lo)
    requires db'.jobs == db.jobs && db'.batches == db.batches && db'.nextJob == db.nextJob && db'.nextBatch == db.nextBatch
    ensures FillingDb(db', m, bs, b, lo)
  {
    hide Filling;
  }

  lemma FollowsFrame(m: Jobs, bs: Batches, db: Db, db': Db, m': Jobs, bs': Batches)
    requires Follows(m, bs, db, m', bs') && db'.jobs == db.jobs && db'.batches == db.batches
    ensures Follows(m, bs, db', m', bs')
  {
    hide JobsFollow, BatchesFollow;
  }

  // ---- Cleanup ----

  lemma ReapJobsLinked(db: Db, m: Jobs, bs: Batches, ids: set<JobId>)
    requires Linked(db, m, bs) && Enabled(db, ReapJobs(ids))
    ensures Linked(DeleteJobs(db, ids), m, bs) && Follows(m, bs, DeleteJobs(db, ids), m, bs)
  {
  }

  lemma ReapBatchesLinked(db: Db, m: Jobs, bs: Batches, ids: set<BatchId>)
    requires Linked(db, m, bs) && Enabled(db, ReapBatches(ids))
    ensures Linked(DeleteBatches(db, ids), m, bs) && Follows(m, bs, DeleteBatches(db, ids), m, bs)
  {
    ReapedBatchesLinked(db, m, bs, ids);
    ReapedJobsLinked(db, m, ids);
    ReapedFollow(db, m, bs, ids);
    hide JobsLinked, BatchesLinked, LinksHold, JobsFollow, BatchesFollow, DeleteBatches;
  }

  lemma ReapedBatchesLinked(db: Db, m: Jobs, bs: Batches, ids: set<BatchId>)
    requires BatchesLinked(db, bs) && Enabled(db, ReapBatches(ids))
    ensures BatchesLinked(DeleteBatches(db, ids), bs)
  {
  }

  lemma ReapedJobsLinked(db: Db, m: Jobs, ids: set<BatchId>)
    requires JobsLinked(db, m) && LinksHold(db, m)
    ensures JobsLinked(DeleteBatches(db, ids), m) && LinksHold(DeleteBatches(db, ids), m)
  {
  }

  lemma ReapedFollow(db: Db, m: Jobs, bs: Batches, ids: set<BatchId>)
    requires JobsLinked(db, m) && BatchesLinked(db, bs)
    ensures Follows(m, bs, DeleteBatches(db, ids), m, bs)
  {
  }

  // ---- Every step, every run ----

  predicate IsQuiet(s: Step) {
    s.Take? || s.Heartbeat? || s.Repair? || s.QueueAdmin? || s.GroupAdmin? || s.SetRules?
  }

  /** Steps that finish no job and touch no batch. */
  lemma QuietStep(db: Db, s: Step)
    requires Enabled(db, s) && IsQuiet(s)
    ensures var db' := Apply(db, s);
            && Evolves(db.jobs, db'.jobs) && db'.batches == db.batches
            && (forall id :: id in db.jobs && !db.jobs[id].state.Terminal() ==> !db'.jobs[id].state.Terminal())
            && db'.nextJob == db.nextJob && db'.nextBatch == db.nextBatch
  {
    hide Claim, ClaimFits, Beat, Evolves, Reconcile, EditQueue, EditGroup;
    match s
    case Take(ids, w, at, writes) => TakeIsQuiet(db, ids, w, at, writes);
    case Heartbeat(ids, at) => BeatIsQuiet(db, ids, at);
    case _ => RowEditIsQuiet(db, s);
  }

  lemma TakeIsQuiet(db: Db, ids: set<JobId>, w: WorkerId, now: Time, writes: map<string, TokenWrite>)
    requires forall id :: id in ids ==> id in db.jobs && db.jobs[id].state == Pending
    ensures var db' := Claim(db, ids, w, now, writes);
            && Evolves(db.jobs, db'.jobs) && db' == db.(jobs := db'.jobs, groups := db'.groups, queues := db'.queues)
            && (forall id :: id in db.jobs && !db.jobs[id].state.Terminal() ==> !db'.jobs[id].state.Terminal())
  {
    hide ClaimedGroups, ClaimedQueues;
  }

  lemma BeatIsQuiet(db: Db, ids: set<JobId>, now: Time)
    ensures var db' := Beat(db, ids, now);
            && Evolves(db.jobs, db'.jobs) && db' == db.(jobs := db'.jobs)
            && (forall id :: id in db.jobs && !db.jobs[id].state.Terminal() ==> !db'.jobs[id].state.Terminal())
  {
  }

  lemma RowEditIsQuiet(db: Db, s: Step)
    requires s.Repair? || s.QueueAdmin? || s.GroupAdmin? || s.SetRules?
    ensures var db' := Apply(db, s);
            && Evolves(db.jobs, db'.jobs) && db'.jobs == db.jobs && db'.batches == db.batches
            && db'.nextJob == db.nextJob && db'.nextBatch == db.nextBatch
  {
    hide ReconciledGroups, ReconciledQueues, EditedQueue, EditedGroup, RunningOn, Evolves;
    NothingEvolves(db.jobs);
  }

  lemma NothingEvolves(m: Jobs)
    ensures Evolves(m, m)
  {
  }

  /** Every transaction moves the archive to one that is right again. */
  lemma StepKeeps(db: Db, m: Jobs, bs: Batches, s: Step)
    returns (m': Jobs, bs': Batches)
    requires Inv(db, m, bs) && Enabled(db, s) && Honest(s)
    ensures Inv(Apply(db, s), m', bs') && Follows(m, bs, Apply(db, s), m', bs')
  {
    hide Right, JobsLinked, BatchesLinked, LinksHold, JobsFollow, BatchesFollow, Evolves, InsertDyn, EnqueueBatch, Recover;
    hide MarkCompleted, MarkFailed, CancelJob, Claim, ClaimFits, DeleteJobs, DeleteBatches, Moved, MovedBatches;
    if Transaction(db, s).None? {
      SelfFollows(db, m, bs);
      return m, bs;
    }
    if IsQuiet(s) {
      QuietStep(db, s);
      QuietKeepsInv(db, m, bs, Apply(db, s));
      return Moved(m, Apply(db, s).jobs), MovedBatches(bs, Apply(db, s).batches);
    }
    match s
    case Enqueue(req, at) =>
      m' := EnqueueKeeps(db, m, bs, req, at);
      bs' := bs;
    case Batched(items, onComplete, at) => m', bs' := BatchedKeeps(db, m, bs, items, onComplete, at);
    case Stall(ids, at) => m', bs' := RecoverKeeps(db, m, bs, ids, at);
    case ReapJobs(ids) =>
      ReapJobsLinked(db, m, bs, ids);
      m', bs' := m, bs;
    case ReapBatches(ids) =>
      ReapBatchesLinked(db, m, bs, ids);
      m', bs' := m, bs;
    case _ => m', bs' := VerdictStepKeeps(db, m, bs, s);
  }

  /** What a verdict or cancellation does to its job, before the batch is settled. */
  function Ending(j: Job, s: Step): Job
    requires s.Complete? || s.Fail? || s.Cancel?
  {
    match s
    case Complete(_, _, at) => Finalized(j, Completed, at)
    case Fail(_, _, _, at) => Finalized(j, Failed, at)
    case Cancel(_, at) => j.(state := Cancelled, finalizedAt := Some(at))
  }

  lemma OneEvolves(m: Jobs, id: JobId, j': Job)
    requires id in m && !m[id].state.Terminal()
    requires j'.batch == m[id].batch && j'.uniqueKey == m[id].uniqueKey && j'.payload == m[id].payload
    requires j'.kind == m[id].kind && j'.queue == m[id].queue
    ensures Evolves(m, m[id := j'])
  {
    assert m[id := j'].Keys == m.Keys;
  }

  lemma VerdictStepKeeps(db: Db, m: Jobs, bs: Batches, s: Step)
    returns (m': Jobs, bs': Batches)
    requires Inv(db, m, bs) && Transaction(db, s).Some? && (s.Complete? || s.Fail? || s.Cancel?)
    ensures Inv(Apply(db, s), m', bs') && Follows(m, bs, Apply(db, s), m', bs')
  {
    hide Right, JobsLinked, BatchesLinked, LinksHold, JobsFollow, BatchesFollow, Moved, MovedBatches, SettleOpt;
    hide ReleaseGroups, ReleaseQueues, Evolves;
    var acts := if s.Cancel? then s.id in db.jobs && db.jobs[s.id].state == Pending else Fenced(db, s.id, s.w);
    if !acts {
      SelfFollows(db, m, bs);
      return m, bs;
    }
    var j := db.jobs[s.id];
    if s.Fail? && s.retryAt.Some? {
      OneEvolves(db.jobs, s.id, Retried(j, s.retryAt.value));
      QuietKeepsInv(db, m, bs, Apply(db, s));
      return Moved(m, Apply(db, s).jobs), MovedBatches(bs, Apply(db, s).batches);
    }
    var jobs' := db.jobs[s.id := Ending(j, s)];
    OneEvolves(db.jobs, s.id, Ending(j, s));
    var db1 := if s.Cancel? then db.(jobs := jobs') else Release(db, {s.id}, jobs');
    m', bs' := FinishKeeps(db, m, bs, db1, s.id,
                           if s.Complete? then DidComplete else if s.Fail? then DidFail else DidCancel, s.at);
  }

  lemma FollowsUnique(m: Jobs, bs: Batches, db': Db, m1: Jobs, bs1: Batches, m2: Jobs, bs2: Batches)
    requires Follows(m, bs, db', m1, bs1) && Follows(m, bs, db', m2, bs2)
    ensures m1 == m2 && bs1 == bs2
  {
  }

  lemma {:induction false} JournalIsRight(dbs: seq<Db>, archives: seq<Archive>, steps: seq<Step>, k: nat)
    requires IsJournal(dbs, archives, steps) && k <= |steps|
    ensures Inv(dbs[k], archives[k].jobs, archives[k].batches)
  {
    if k > 0 {
      JournalIsRight(dbs, archives, steps, k - 1);
      var a := archives[k - 1];
      var m', bs' := StepKeeps(dbs[k - 1], a.jobs, a.batches, steps[k - 1]);
      FollowsUnique(a.jobs, a.batches, dbs[k], m', bs', archives[k].jobs, archives[k].batches);
    }
  }

  /** Exactly-once fan-in. At every point of every run from an empty database with honest callers,
      every batch ever enqueued has counters equal to how many of its jobs ended each way, is
      complete exactly when those sum to its size, and has had exactly one callback enqueued if it
      is complete and asked for one, carrying the final counts, and none otherwise. */
  lemma ExactlyOnce(dbs: seq<Db>, archives: seq<Archive>, steps: seq<Step>, k: nat, b: BatchId)
    requires IsJournal(dbs, archives, steps) && k <= |steps| && b in archives[k].batches
    ensures var m, r := archives[k].jobs, archives[k].batches[b];
            && r.total == |Members(m, b)|
            && r.completed == |Ended(m, b, Completed)| && r.failed == |Ended(m, b, Failed)|
            && r.cancelled == |Ended(m, b, Cancelled)|
            && (r.complete <==> r.completed + r.failed + r.cancelled == r.total)
            && (r.complete && r.onComplete.Some? ==> FiredOnce(m, b, r))
            && (!r.complete || r.onComplete.None? ==> Callbacks(m, b) == {})
  {
    JournalIsRight(dbs, archives, steps, k);
    assert Ok(archives[k].jobs, b, archives[k].batches[b], false);
  }

  /** The one way to lose a callback: `on_complete` is stored unchecked, so a batch whose callback
      names an invalid queue rolls back every attempt to settle its last job. At every point of
      every run it is incomplete and some job of it has not ended. */
  lemma InvalidCallbackNeverCompletes(dbs: seq<Db>, archives: seq<Archive>, steps: seq<Step>, k: nat, b: BatchId)
    requires IsJournal(dbs, archives, steps) && k <= |steps| && b in archives[k].batches
    requires archives[k].batches[b].onComplete.Some?
    requires !ValidQueueName(archives[k].batches[b].onComplete.value.queue)
    ensures !archives[k].batches[b].complete
    ensures exists id :: id in Members(archives[k].jobs, b) && !archives[k].jobs[id].state.Terminal()
  {
    JournalIsRight(dbs, archives, steps, k);
    var m, r := archives[k].jobs, archives[k].batches[b];
    assert Ok(m, b, r, false);
    if forall id :: id in Members(m, b) ==> m[id].state.Terminal() {
      AllEndedMeansSum(m, b, r);
    }
  }

  /** Settling rolls back exactly on the last job of an unclaimed batch whose callback names an invalid
      queue: every other job settles, and with a valid name or no callback so does the last. */
  lemma SettleFailsIff(db: Db, b: BatchId, o: Outcome, now: Time)
    ensures Settle(db, b, o, now).None?
       <==> (&& b in db.batches && db.batches[b].onComplete.Some? && !ValidQueueName(db.batches[b].onComplete.value.queue)
             && !db.batches[b].claimed && db.batches[b].Sum() + 1 == db.batches[b].total)
  {
    hide Conflicts, NewJob, Materialize, Envelope;
  }
}
