/** Exact counters: the materialised `running_count` columns always equal the
    number of running jobs they describe, over every run of the lifecycle. */
module Counters {
  import opened Tables
  import opened Lifecycle

  /** Every counter row tells the truth, and a running job's group has a row. */
  ghost predicate Exact(db: Db) {
    && (forall lane :: CounterOf(db, lane).Some? ==> CounterOf(db, lane).value.running == |RunningOn(db.jobs, lane)|)
    && (forall id :: id in db.jobs && db.jobs[id].state == Running && db.jobs[id].group.Some?
                     ==> db.jobs[id].group.value in db.groups)
  }

  /** Ids come from a sequence, so the next one is unused. */
  ghost predicate Fresh(db: Db) {
    && (forall id :: id in db.jobs ==> id < db.nextJob)
    && (forall b :: b in db.batches ==> b < db.nextBatch)
  }

  ghost predicate Sound(db: Db) {
    Exact(db) && Fresh(db)
  }

  /** A group with no row has no running job. */
  lemma NoRowNoneRunning(db: Db, key: string)
    requires Exact(db) && key !in db.groups
    ensures RunningOn(db.jobs, GroupLane(key)) == {}
  {
  }

  // ---- Leaving and entering 'running' ----

  /** `jobs'` moves exactly `ids` out of 'running' and keeps every job on its lanes. */
  ghost predicate Leaves(jobs: map<JobId, Job>, ids: set<JobId>, jobs': map<JobId, Job>) {
    && jobs'.Keys == jobs.Keys
    && (forall id :: id in ids ==> id in jobs && jobs[id].state == Running)
    && (forall id :: id in jobs ==> jobs'[id].queue == jobs[id].queue && jobs'[id].group == jobs[id].group)
    && (forall id :: id in jobs ==> (jobs'[id].state == Running) == (jobs[id].state == Running && id !in ids))
  }

  lemma LeavesCounts(jobs: map<JobId, Job>, ids: set<JobId>, jobs': map<JobId, Job>, lane: Lane)
    requires Leaves(jobs, ids, jobs')
    ensures |RunningOn(jobs', lane)| == |RunningOn(jobs, lane)| - |Among(jobs, ids, lane)|
    ensures RunningOn(jobs', lane) <= RunningOn(jobs, lane)
  {
    var a, r := Among(jobs, ids, lane), RunningOn(jobs, lane);
    assert RunningOn(jobs', lane) == r - a;
    assert a <= r;
  }

  /** No `GREATEST(running_count - n, 0)` ever clips an exact counter. */
  lemma FloorsNeverBite(db: Db, ids: set<JobId>, lane: Lane)
    requires Exact(db) && CounterOf(db, lane).Some?
    requires forall id :: id in ids ==> id in db.jobs && db.jobs[id].state == Running
    ensures CounterOf(db, lane).value.running - |Among(db.jobs, ids, lane)| >= 0
  {
    assert Among(db.jobs, ids, lane) <= RunningOn(db.jobs, lane);
    Subset(Among(db.jobs, ids, lane), RunningOn(db.jobs, lane));
  }

  lemma Subset<T>(a: set<T>, b: set<T>)
    requires a <= b
    ensures |a| <= |b|
  {
    assert b == a + (b - a);
  }

  lemma ReleaseKeeps(db: Db, ids: set<JobId>, jobs': map<JobId, Job>)
    requires Sound(db) && Leaves(db.jobs, ids, jobs')
    ensures Sound(Release(db, ids, jobs'))
    ensures forall lane :: CounterOf(Release(db, ids, jobs'), lane).Some? == CounterOf(db, lane).Some?
  {
    var db' := Release(db, ids, jobs');
    forall lane | CounterOf(db', lane).Some?
      ensures CounterOf(db', lane).value.running == |RunningOn(jobs', lane)|
    {
      assert CounterOf(db, lane).Some?;
      LeavesCounts(db.jobs, ids, jobs', lane);
      FloorsNeverBite(db, ids, lane);
    }
  }

  lemma ClaimCounts(jobs: map<JobId, Job>, ids: set<JobId>, w: WorkerId, now: Time, lane: Lane)
    requires forall id :: id in ids ==> id in jobs && jobs[id].state == Pending
    ensures RunningOn(ClaimedJobs(jobs, ids, w, now), lane) == RunningOn(jobs, lane) + Among(jobs, ids, lane)
    ensures |RunningOn(ClaimedJobs(jobs, ids, w, now), lane)| == |RunningOn(jobs, lane)| + |Among(jobs, ids, lane)|
  {
    var r, a := RunningOn(jobs, lane), Among(jobs, ids, lane);
    assert RunningOn(ClaimedJobs(jobs, ids, w, now), lane) == r + a;
    assert r !! a;
  }

  /** What a claim does to the counter of any lane. */
  lemma ClaimCounter(db: Db, ids: set<JobId>, w: WorkerId, now: Time, writes: map<string, TokenWrite>, lane: Lane)
    requires CounterOf(Claim(db, ids, w, now, writes), lane).Some?
    ensures var c' := CounterOf(Claim(db, ids, w, now, writes), lane).value;
            var n := |Among(db.jobs, ids, lane)|;
            if CounterOf(db, lane).Some?
            then c' == CounterOf(db, lane).value.(running := CounterOf(db, lane).value.running + n)
            else lane.GroupLane? && c' == Counter(n, MAX_I32, false)
  {
  }

  lemma ClaimKeeps(db: Db, ids: set<JobId>, w: WorkerId, now: Time, writes: map<string, TokenWrite>)
    requires Sound(db)
    requires forall id :: id in ids ==> id in db.jobs && db.jobs[id].state == Pending
    ensures Sound(Claim(db, ids, w, now, writes))
  {
    var db' := Claim(db, ids, w, now, writes);
    forall lane | CounterOf(db', lane).Some?
      ensures CounterOf(db', lane).value.running == |RunningOn(db'.jobs, lane)|
    {
      ClaimCounts(db.jobs, ids, w, now, lane);
      ClaimCounter(db, ids, w, now, writes, lane);
      if CounterOf(db, lane).None? {
        NoRowNoneRunning(db, lane.key);
      }
    }
    forall id | id in db'.jobs && db'.jobs[id].state == Running && db'.jobs[id].group.Some?
      ensures db'.jobs[id].group.value in db'.groups
    {
      assert id in ids ==> db.jobs[id].group.value in GroupsOf(db.jobs, ids);
    }
  }

  // ---- Inserting jobs and rows ----

  lemma AddJobKeeps(db: Db, j: Job)
    requires Sound(db) && j.state == Pending
    ensures Sound(AddJob(db, j))
    ensures forall lane :: RunningOn(AddJob(db, j).jobs, lane) == RunningOn(db.jobs, lane)
  {
    var db' := AddJob(db, j);
    forall lane ensures RunningOn(db'.jobs, lane) == RunningOn(db.jobs, lane) {
    }
    forall lane | CounterOf(db', lane).Some?
      ensures CounterOf(db', lane).value.running == |RunningOn(db'.jobs, lane)|
    {
      assert CounterOf(db, lane) == CounterOf(db', lane);
    }
  }

  /** Adding rows with a zero counter for groups that had none. */
  lemma NewGroupsKeep(db: Db, groups': map<string, Group>)
    requires Sound(db)
    requires forall k :: k in db.groups ==> k in groups' && groups'[k] == db.groups[k]
    requires forall k :: k in groups' && k !in db.groups ==> groups'[k].running == 0
    ensures Sound(db.(groups := groups'))
  {
    var db' := db.(groups := groups');
    forall lane | CounterOf(db', lane).Some?
      ensures CounterOf(db', lane).value.running == |RunningOn(db'.jobs, lane)|
    {
      if CounterOf(db, lane).Some? {
        assert CounterOf(db', lane) == CounterOf(db, lane);
      } else {
        NoRowNoneRunning(db, lane.key);
      }
    }
  }

  lemma InsertDynKeeps(db: Db, req: Request, now: Time)
    requires Sound(db) && InsertDyn(db, req, now).Some?
    ensures Sound(InsertDyn(db, req, now).value)
    ensures forall lane :: RunningOn(InsertDyn(db, req, now).value.jobs, lane) == RunningOn(db.jobs, lane)
  {
    if !Conflicts(db.jobs, req) {
      var db1 := AddJob(db, NewJob(req, now));
      AddJobKeeps(db, NewJob(req, now));
      NewGroupsKeep(db1, Materialize(db.groups, db.rules, KeysOf(req), now));
    }
  }

  lemma {:induction false} InsertRowsKeeps(db: Db, reqs: seq<Request>, now: Time)
    requires Sound(db)
    ensures var db' := InsertRows(db, reqs, now);
            && Sound(db')
            && db' == db.(jobs := db'.jobs, nextJob := db'.nextJob) && db.nextJob <= db'.nextJob
            && forall lane :: RunningOn(db'.jobs, lane) == RunningOn(db.jobs, lane)
    decreases |reqs|
  {
    if reqs != [] {
      var db1 := if Conflicts(db.jobs, reqs[0]) then db else AddJob(db, NewJob(reqs[0], now));
      AddJobKeeps(db, NewJob(reqs[0], now));
      InsertRowsKeeps(db1, reqs[1..], now);
    }
  }

  lemma InsertManyKeeps(db: Db, reqs: seq<Request>, now: Time)
    requires Sound(db) && InsertMany(db, reqs, now).Some?
    ensures Sound(InsertMany(db, reqs, now).value)
    ensures forall lane :: RunningOn(InsertMany(db, reqs, now).value.jobs, lane) == RunningOn(db.jobs, lane)
  {
    InsertRowsKeeps(db, reqs, now);
    NewGroupsKeep(InsertRows(db, reqs, now), InsertMany(db, reqs, now).value.groups);
  }

  // ---- Batches ----

  /** Rewriting batch rows that exist touches no counter. */
  lemma BatchRowsKeep(db: Db, batches': map<BatchId, Batch>)
    requires Sound(db) && (forall b :: b in batches' ==> b < db.nextBatch)
    ensures Sound(db.(batches := batches'))
  {
    var db' := db.(batches := batches');
    forall lane ensures CounterOf(db', lane) == CounterOf(db, lane) {
    }
  }

  lemma FreshBatches(db: Db)
    requires Sound(db)
    ensures forall b :: b in db.batches ==> b < db.nextBatch
  {
  }

  lemma TryFireKeeps(db: Db, b: BatchId, now: Time)
    requires Sound(db) && TryFire(db, b, now).Some?
    ensures Sound(TryFire(db, b, now).value)
    ensures forall lane :: RunningOn(TryFire(db, b, now).value.jobs, lane) == RunningOn(db.jobs, lane)
  {
    hide Sound, InsertDyn, RunningOn;
    if Claimable(db, b) {
      var row := db.batches[b];
      FreshBatches(db);
      BatchRowsKeep(db, db.batches[b := Close(row, now)]);
      if row.onComplete.Some? {
        InsertDynKeeps(db.(batches := db.batches[b := Close(row, now)]),
                       Callback(row.onComplete.value, b, row, now - row.createdAt), now);
      }
    }
  }

  lemma SettleKeeps(db: Db, b: Option<BatchId>, o: Outcome, now: Time)
    requires Sound(db) && SettleOpt(db, b, o, now).Some?
    ensures Sound(SettleOpt(db, b, o, now).value)
    ensures forall lane :: RunningOn(SettleOpt(db, b, o, now).value.jobs, lane) == RunningOn(db.jobs, lane)
  {
    if b.Some? && b.value in db.batches {
      var batches' := db.batches[b.value := Bump(db.batches[b.value], o)];
      BatchRowsKeep(db, batches');
      var db' := db.(batches := batches');
      if !db'.batches[b.value].claimed && db'.batches[b.value].Sum() == db'.batches[b.value].total {
        TryFireKeeps(db', b.value, now);
      }
    }
  }

  lemma {:induction false} FireAllKeeps(db: Db, bs: seq<BatchId>, now: Time)
    requires Sound(db) && FireAll(db, bs, now).Some?
    ensures Sound(FireAll(db, bs, now).value)
    ensures forall lane :: RunningOn(FireAll(db, bs, now).value.jobs, lane) == RunningOn(db.jobs, lane)
    decreases |bs|
  {
    if bs != [] {
      TryFireKeeps(db, bs[0], now);
      FireAllKeeps(TryFire(db, bs[0], now).value, bs[1..], now);
    }
  }

  lemma OpenBatchKeeps(db: Db, onComplete: Option<Request>, now: Time)
    requires Sound(db)
    ensures Sound(OpenBatch(db, onComplete, now))
  {
    var db' := OpenBatch(db, onComplete, now);
    forall lane ensures CounterOf(db', lane) == CounterOf(db, lane) {
    }
  }

  lemma SizeBatchKeeps(db: Db, b: BatchId, inserted: nat, now: Time)
    requires Sound(db) && b in db.batches && SizeBatch(db, b, inserted, now).Some?
    ensures Sound(SizeBatch(db, b, inserted, now).value)
    ensures forall lane :: RunningOn(SizeBatch(db, b, inserted, now).value.jobs, lane) == RunningOn(db.jobs, lane)
  {
    var row := db.batches[b].(total := inserted);
    BatchRowsKeep(db, db.batches[b := row]);
    BatchRowsKeep(db, db.batches[b := Close(row, now)]);
    if inserted == 0 && row.onComplete.Some? {
      InsertDynKeeps(WithBatch(db, b, Close(row, now)), Callback(row.onComplete.value, b, row, 0), now);
    }
  }

  lemma EnqueueBatchKeeps(db: Db, items: seq<Request>, onComplete: Option<Request>, now: Time)
    requires Sound(db) && EnqueueBatch(db, items, onComplete, now).Some?
    ensures Sound(EnqueueBatch(db, items, onComplete, now).value)
    ensures forall lane :: RunningOn(EnqueueBatch(db, items, onComplete, now).value.jobs, lane) == RunningOn(db.jobs, lane)
  {
    var b := db.nextBatch;
    var db1 := OpenBatch(db, onComplete, now);
    OpenBatchKeeps(db, onComplete, now);
    InsertManyKeeps(db1, Stamp(items, b), now);
    InsertRowsKeepsBatches(db1, Stamp(items, b), now);
    var db2 := InsertMany(db1, Stamp(items, b), now).value;
    SizeBatchKeeps(db2, b, db2.nextJob - db.nextJob, now);
  }

  // ---- Every transaction ----

  lemma VerdictKeeps(db: Db, id: JobId, j': Job, b: Option<BatchId>, o: Outcome, now: Time)
    requires Sound(db) && id in db.jobs && db.jobs[id].state == Running
    requires j'.state != Running && j'.queue == db.jobs[id].queue && j'.group == db.jobs[id].group
    ensures var db1 := Release(db, {id}, db.jobs[id := j']);
            && Sound(db1)
            && (forall lane :: RunningOn(db1.jobs, lane) <= RunningOn(db.jobs, lane))
            && (SettleOpt(db1, b, o, now).Some? ==>
                  && Sound(SettleOpt(db1, b, o, now).value)
                  && forall lane :: RunningOn(SettleOpt(db1, b, o, now).value.jobs, lane) <= RunningOn(db.jobs, lane))
  {
    var jobs' := db.jobs[id := j'];
    assert jobs'.Keys == db.jobs.Keys;
    ReleaseKeeps(db, {id}, jobs');
    var db1 := Release(db, {id}, jobs');
    forall lane ensures RunningOn(db1.jobs, lane) <= RunningOn(db.jobs, lane) {
      LeavesCounts(db.jobs, {id}, jobs', lane);
    }
    if SettleOpt(db1, b, o, now).Some? {
      SettleKeeps(db1, b, o, now);
    }
  }

  lemma CancelKeeps(db: Db, id: JobId, now: Time)
    requires Sound(db) && CancelJob(db, id, now).Some?
    ensures Sound(CancelJob(db, id, now).value)
    ensures forall lane :: RunningOn(CancelJob(db, id, now).value.jobs, lane) <= RunningOn(db.jobs, lane)
  {
    if id in db.jobs && db.jobs[id].state == Pending {
      var j := db.jobs[id];
      var jobs' := db.jobs[id := j.(state := Cancelled, finalizedAt := Some(now))];
      assert jobs'.Keys == db.jobs.Keys;
      QuietKeeps(db, jobs');
      SettleKeeps(db.(jobs := jobs'), j.batch, DidCancel, now);
    }
  }

  /** Rewriting or dropping jobs without moving any into or out of 'running'. */
  lemma QuietKeeps(db: Db, jobs': map<JobId, Job>)
    requires Sound(db) && jobs'.Keys <= db.jobs.Keys
    requires forall id :: id in jobs' ==> jobs'[id].queue == db.jobs[id].queue && jobs'[id].group == db.jobs[id].group
    requires forall id :: id in db.jobs ==>
               (db.jobs[id].state == Running) == (id in jobs' && jobs'[id].state == Running)
    ensures Sound(db.(jobs := jobs'))
    ensures forall lane :: RunningOn(jobs', lane) == RunningOn(db.jobs, lane)
  {
    forall lane ensures RunningOn(jobs', lane) == RunningOn(db.jobs, lane) {
    }
    var db' := db.(jobs := jobs');
    forall lane | CounterOf(db', lane).Some?
      ensures CounterOf(db', lane).value.running == |RunningOn(db'.jobs, lane)|
    {
      assert CounterOf(db, lane) == CounterOf(db', lane);
    }
  }

  lemma RecoverKeeps(db: Db, ids: set<JobId>, now: Time)
    requires Sound(db) && Recover(db, ids, now).Some?
    ensures Sound(Recover(db, ids, now).value)
    ensures forall lane :: RunningOn(Recover(db, ids, now).value.jobs, lane) <= RunningOn(db.jobs, lane)
  {
    var swept := Swept(db.jobs, ids);
    var jobs' := StalledJobs(db.jobs, swept, now);
    ReleaseKeeps(db, swept, jobs');
    forall lane ensures RunningOn(jobs', lane) <= RunningOn(db.jobs, lane) {
      LeavesCounts(db.jobs, swept, jobs', lane);
    }
    BatchRowsKeep(Release(db, swept, jobs'), BumpedBatches(db.batches, db.jobs, swept));
    FireAllKeeps(StallRows(db, swept, now), Ascending(Bumped(db, swept)), now);
  }

  lemma ReapBatchesKeeps(db: Db, ids: set<BatchId>)
    requires Sound(db)
    ensures Sound(DeleteBatches(db, ids))
    ensures forall lane :: RunningOn(DeleteBatches(db, ids).jobs, lane) == RunningOn(db.jobs, lane)
  {
    var db' := DeleteBatches(db, ids);
    QuietKeeps(db, db'.jobs);
    BatchRowsKeep(db.(jobs := db'.jobs), db'.batches);
  }

  /** Repair only lowers counters, and never leaves one above the truth, from any state at all. */
  lemma RepairOnlyLowers(db: Db, lane: Lane)
    requires CounterOf(db, lane).Some?
    ensures CounterOf(Reconcile(db), lane).Some?
    ensures var c, c' := CounterOf(db, lane).value, CounterOf(Reconcile(db), lane).value;
            && c'.running == (if c.running > |RunningOn(db.jobs, lane)| then |RunningOn(db.jobs, lane)| else c.running)
            && c'.running <= c.running && c'.running <= |RunningOn(db.jobs, lane)|
            && c' == c.(running := c'.running)
  {
  }

  /** On exact counters repair finds nothing to do. */
  lemma RepairIsIdle(db: Db)
    requires Exact(db)
    ensures Reconcile(db) == db
  {
    NoneAboveMeansIdle(db);
  }

  /** From any drifted state: repair finds something to do iff some counter is above the truth, leaves
      none above it, and is done in one pass. */
  lemma RepairSettles(db: Db)
    ensures Reconcile(db) == db <==>
              forall lane :: CounterOf(db, lane).Some? ==> CounterOf(db, lane).value.running <= |RunningOn(db.jobs, lane)|
    ensures forall lane :: CounterOf(Reconcile(db), lane).Some? ==>
              CounterOf(Reconcile(db), lane).value.running <= |RunningOn(db.jobs, lane)|
    ensures Reconcile(Reconcile(db)) == Reconcile(db)
  {
    var once := Reconcile(db);
    RowsKeep(db);
    forall lane | CounterOf(once, lane).Some? ensures CounterOf(once, lane).value.running <= |RunningOn(db.jobs, lane)| {
      RepairOnlyLowers(db, lane);
    }
    NoneAboveMeansIdle(once);
    if forall lane :: CounterOf(db, lane).Some? ==> CounterOf(db, lane).value.running <= |RunningOn(db.jobs, lane)| {
      NoneAboveMeansIdle(db);
    }
  }

  lemma RowsKeep(db: Db)
    ensures Reconcile(db).jobs == db.jobs && forall lane :: CounterOf(Reconcile(db), lane).Some? == CounterOf(db, lane).Some?
  {
    hide RunningOn;
  }

  lemma NoneAboveMeansIdle(db: Db)
    requires forall lane :: CounterOf(db, lane).Some? ==> CounterOf(db, lane).value.running <= |RunningOn(db.jobs, lane)|
    ensures Reconcile(db) == db
  {
    hide RunningOn;
    forall g | g in db.groups ensures ReconciledGroups(db.groups, db.jobs)[g] == db.groups[g] {
      assert CounterOf(db, GroupLane(g)).Some?;
    }
    forall q | q in db.queues ensures ReconciledQueues(db.queues, db.jobs)[q] == db.queues[q] {
      assert CounterOf(db, QueueLane(q)).Some?;
    }
    assert ReconciledGroups(db.groups, db.jobs) == db.groups;
    assert ReconciledQueues(db.queues, db.jobs) == db.queues;
  }

  lemma AdminKeeps(db: Db, s: Step)
    requires Sound(db) && (s.QueueAdmin? || s.GroupAdmin? || s.SetRules?)
    ensures Sound(Apply(db, s))
  {
    hide RunningOn;
    var db' := Apply(db, s);
    EditTouchesRows(db, s);
    hide Apply;
    forall lane | CounterOf(db', lane).Some?
      ensures CounterOf(db', lane).value.running == |RunningOn(db'.jobs, lane)|
    {
      if CounterOf(db, lane).None? && lane.GroupLane? {
        NoRowNoneRunning(db, lane.key);
      }
    }
  }

  /** An edit leaves every counter as it is, and seeds a new one. */
  lemma EditTouchesRows(db: Db, s: Step)
    requires s.QueueAdmin? || s.GroupAdmin? || s.SetRules?
    ensures var db' := Apply(db, s);
            && db' == db.(groups := db'.groups, queues := db'.queues, rules := db'.rules)
            && db.groups.Keys <= db'.groups.Keys
            && forall lane :: CounterOf(db', lane).Some? ==>
                 CounterOf(db', lane).value.running
                 == if CounterOf(db, lane).Some? then CounterOf(db, lane).value.running
                    else if lane.QueueLane? then |RunningOn(db.jobs, lane)| else 0
  {
    hide RunningOn;
  }

  /** Every enabled step keeps the counters exact, and only claims start jobs. */
  lemma StepKeeps(db: Db, s: Step)
    requires Sound(db) && Enabled(db, s)
    ensures Sound(Apply(db, s))
    ensures !s.Take? ==> forall lane :: RunningOn(Apply(db, s).jobs, lane) <= RunningOn(db.jobs, lane)
  {
    if Transaction(db, s).Some? {
      match s
      case Enqueue(req, at) => InsertDynKeeps(db, req, at);
      case Batched(items, onComplete, at) => EnqueueBatchKeeps(db, items, onComplete, at);
      case Take(ids, w, at, writes) => ClaimKeeps(db, ids, w, at, writes);
      case Complete(id, w, at) =>
        if Fenced(db, id, w) {
          VerdictKeeps(db, id, Finalized(db.jobs[id], Completed, at), db.jobs[id].batch, DidComplete, at);
        }
      case Fail(id, w, retryAt, at) =>
        if Fenced(db, id, w) {
          VerdictKeeps(db, id, if retryAt.Some? then Retried(db.jobs[id], retryAt.value) else Finalized(db.jobs[id], Failed, at),
                       db.jobs[id].batch, DidFail, at);
        }
      case Cancel(id, at) => CancelKeeps(db, id, at);
      case Stall(ids, at) => RecoverKeeps(db, ids, at);
      case Heartbeat(ids, at) => QuietKeeps(db, Beat(db, ids, at).jobs);
      case Repair => RepairIsIdle(db);
      case QueueAdmin(_, _) => AdminKeeps(db, s);
      case GroupAdmin(_, _, _) => AdminKeeps(db, s);
      case SetRules(_) => AdminKeeps(db, s);
      case ReapJobs(ids) => QuietKeeps(db, DeleteJobs(db, ids).jobs);
      case ReapBatches(ids) => ReapBatchesKeeps(db, ids);
    }
  }

  /** In every state of every run from a sound one the counters are exact and repair returns (0, 0). */
  lemma {:induction false} CountersAlwaysExact(dbs: seq<Db>, steps: seq<Step>, k: nat)
    requires IsTrace(dbs, steps) && Sound(dbs[0]) && k < |dbs|
    ensures Sound(dbs[k]) && Reconcile(dbs[k]) == dbs[k]
    ensures forall key :: key !in dbs[k].groups ==> RunningOn(dbs[k].jobs, GroupLane(key)) == {}
  {
    if k > 0 {
      CountersAlwaysExact(dbs, steps, k - 1);
      StepKeeps(dbs[k - 1], steps[k - 1]);
    }
    RepairIsIdle(dbs[k]);
  }

  lemma EmptyIsSound()
    ensures Sound(EMPTY_DB)
  {
  }
}
