/** What the partial unique index is for: in every reachable state no two live jobs share a kind and
    a unique key. The model's inserts check the key against the rows; this shows the check is enough. */
module UniqueKeys {
  import opened Tables
  import opened Lifecycle
  import Columns

  /** No two pending or running jobs share a kind and a key. */
  ghost predicate KeysDiffer(jobs: map<JobId, Job>) {
    forall a, b ::
      (a in jobs && b in jobs && a != b && Columns.Live(jobs[a]) && Columns.Live(jobs[b])
       && jobs[a].kind == jobs[b].kind && jobs[a].uniqueKey.Some?) ==> jobs[a].uniqueKey != jobs[b].uniqueKey
  }

  /** Rows keep kind and key, none joins, and none comes back to life. */
  ghost predicate Fewer(jobs: map<JobId, Job>, jobs': map<JobId, Job>) {
    forall id :: id in jobs' ==>
      && id in jobs && jobs'[id].kind == jobs[id].kind && jobs'[id].uniqueKey == jobs[id].uniqueKey
      && (Columns.Live(jobs'[id]) ==> Columns.Live(jobs[id]))
  }

  lemma FewerKeeps(jobs: map<JobId, Job>, jobs': map<JobId, Job>)
    requires KeysDiffer(jobs) && Fewer(jobs, jobs')
    ensures KeysDiffer(jobs')
  {
  }

  lemma AddKeeps(db: Db, req: Request, now: Time)
    requires KeysDiffer(db.jobs) && !Conflicts(db.jobs, req)
    ensures KeysDiffer(AddJob(db, NewJob(req, now)).jobs)
  {
    var jobs' := AddJob(db, NewJob(req, now)).jobs;
    forall a | a in db.jobs && Columns.Live(db.jobs[a]) && db.jobs[a].kind == req.kind && req.uniqueKey.Some?
      ensures db.jobs[a].uniqueKey != req.uniqueKey
    {
    }
    hide Conflicts;
  }

  lemma InsertKeeps(db: Db, req: Request, now: Time)
    requires KeysDiffer(db.jobs) && InsertDyn(db, req, now).Some?
    ensures KeysDiffer(InsertDyn(db, req, now).value.jobs)
  {
    hide KeysDiffer, Conflicts, NewJob, Materialize;
    if !Conflicts(db.jobs, req) {
      AddKeeps(db, req, now);
    }
  }

  lemma FireKeeps(db: Db, b: BatchId, now: Time)
    requires KeysDiffer(db.jobs) && TryFire(db, b, now).Some?
    ensures KeysDiffer(TryFire(db, b, now).value.jobs)
  {
    hide KeysDiffer, InsertDyn, Callback;
    if Claimable(db, b) && db.batches[b].onComplete.Some? {
      var r := db.batches[b];
      InsertKeeps(db.(batches := db.batches[b := Close(r, now)]), Callback(r.onComplete.value, b, r, now - r.createdAt), now);
    }
  }

  lemma SettleKeeps(db: Db, b: Option<BatchId>, o: Outcome, now: Time)
    requires KeysDiffer(db.jobs) && SettleOpt(db, b, o, now).Some?
    ensures KeysDiffer(SettleOpt(db, b, o, now).value.jobs)
  {
    hide KeysDiffer, TryFire;
    if b.Some? && b.value in db.batches {
      var db' := db.(batches := db.batches[b.value := Bump(db.batches[b.value], o)]);
      if TryFire(db', b.value, now).Some? {
        FireKeeps(db', b.value, now);
      }
    }
  }

  lemma {:induction false} FireAllKeeps(db: Db, bs: seq<BatchId>, now: Time)
    requires KeysDiffer(db.jobs) && FireAll(db, bs, now).Some?
    ensures KeysDiffer(FireAll(db, bs, now).value.jobs)
    decreases |bs|
  {
    hide KeysDiffer, TryFire;
    if bs != [] {
      FireKeeps(db, bs[0], now);
      FireAllKeeps(TryFire(db, bs[0], now).value, bs[1..], now);
    }
  }

  lemma {:induction false} RowsKeep(db: Db, reqs: seq<Request>, now: Time)
    requires KeysDiffer(db.jobs)
    ensures KeysDiffer(InsertRows(db, reqs, now).jobs)
    decreases |reqs|
  {
    hide KeysDiffer, Conflicts, NewJob;
    if reqs != [] {
      if !Conflicts(db.jobs, reqs[0]) {
        AddKeeps(db, reqs[0], now);
      }
      RowsKeep(if Conflicts(db.jobs, reqs[0]) then db else AddJob(db, NewJob(reqs[0], now)), reqs[1..], now);
    }
  }

  lemma BatchKeeps(db: Db, items: seq<Request>, onComplete: Option<Request>, now: Time)
    requires KeysDiffer(db.jobs) && EnqueueBatch(db, items, onComplete, now).Some?
    ensures KeysDiffer(EnqueueBatch(db, items, onComplete, now).value.jobs)
  {
    hide KeysDiffer, InsertRows, InsertDyn, Materialize, Callback;
    var b, db1, reqs := db.nextBatch, OpenBatch(db, onComplete, now), Stamp(items, db.nextBatch);
    RowsKeep(db1, reqs, now);
    InsertRowsKeepsBatches(db1, reqs, now);
    var db2 := InsertMany(db1, reqs, now).value;
    var row := db2.batches[b].(total := db2.nextJob - db.nextJob);
    if row.total == 0 && row.onComplete.Some? {
      InsertKeeps(WithBatch(db2, b, Close(row, now)), Callback(row.onComplete.value, b, row, 0), now);
    }
  }

  /** A verdict or a cancellation: one live row moves, and its batch is settled. */
  lemma VerdictKeeps(db: Db, s: Step)
    requires KeysDiffer(db.jobs) && (s.Complete? || s.Fail? || s.Cancel?) && Transaction(db, s).Some?
    ensures KeysDiffer(Apply(db, s).jobs)
  {
    hide KeysDiffer, SettleOpt, ReleaseGroups, ReleaseQueues;
    var acts := if s.Cancel? then s.id in db.jobs && db.jobs[s.id].state == Pending else Fenced(db, s.id, s.w);
    if acts {
      var j := db.jobs[s.id];
      match s
      case Complete(id, _, at) =>
        var db1 := Release(db, {id}, db.jobs[id := Finalized(j, Completed, at)]);
        FewerKeeps(db.jobs, db1.jobs);
        SettleKeeps(db1, j.batch, DidComplete, at);
      case Fail(id, _, retryAt, at) =>
        if retryAt.Some? {
          FewerKeeps(db.jobs, db.jobs[id := Retried(j, retryAt.value)]);
        } else {
          var db1 := Release(db, {id}, db.jobs[id := Finalized(j, Failed, at)]);
          FewerKeeps(db.jobs, db1.jobs);
          SettleKeeps(db1, j.batch, DidFail, at);
        }
      case Cancel(id, at) =>
        var db1 := db.(jobs := db.jobs[id := j.(state := Cancelled, finalizedAt := Some(at))]);
        FewerKeeps(db.jobs, db1.jobs);
        SettleKeeps(db1, j.batch, DidCancel, at);
    }
  }

  lemma StallKeeps(db: Db, ids: set<JobId>, now: Time)
    requires KeysDiffer(db.jobs) && Recover(db, ids, now).Some?
    ensures KeysDiffer(Recover(db, ids, now).value.jobs)
  {
    var swept := Swept(db.jobs, ids);
    var db1 := StallRows(db, swept, now);
    assert Fewer(db.jobs, db1.jobs);
    hide KeysDiffer, StallRows, Fewer, FireAll, Ascending;
    FewerKeeps(db.jobs, db1.jobs);
    FireAllKeeps(db1, Ascending(Bumped(db, swept)), now);
  }

  /** Claims, heartbeats, edits and cleanup bring no row to life. */
  lemma OthersKeep(db: Db, s: Step)
    requires KeysDiffer(db.jobs) && Enabled(db, s)
    requires !s.Enqueue? && !s.Batched? && !s.Stall? && !s.Complete? && !s.Fail? && !s.Cancel?
    ensures KeysDiffer(Apply(db, s).jobs)
  {
    hide KeysDiffer, ClaimFits, ClaimedGroups, ClaimedQueues, ReconciledGroups, ReconciledQueues, EditedQueue, EditedGroup, RunningOn;
    assert Fewer(db.jobs, Apply(db, s).jobs);
    FewerKeeps(db.jobs, Apply(db, s).jobs);
  }

  lemma StepKeeps(db: Db, s: Step)
    requires KeysDiffer(db.jobs) && Enabled(db, s)
    ensures KeysDiffer(Apply(db, s).jobs)
  {
    hide KeysDiffer, InsertDyn, EnqueueBatch, Recover, MarkCompleted, MarkFailed, CancelJob;
    if Transaction(db, s).Some? {
      match s
      case Enqueue(req, at) => InsertKeeps(db, req, at);
      case Batched(items, onComplete, at) => BatchKeeps(db, items, onComplete, at);
      case Stall(ids, at) => StallKeeps(db, ids, at);
      case Complete(_, _, _) => VerdictKeeps(db, s);
      case Fail(_, _, _, _) => VerdictKeeps(db, s);
      case Cancel(_, _) => VerdictKeeps(db, s);
      case _ => OthersKeep(db, s);
    }
  }

  /** In every state of every run no two live jobs share a kind and a unique key. */
  lemma {:induction false} LiveKeysAreUnique(dbs: seq<Db>, steps: seq<Step>, k: nat)
    requires IsTrace(dbs, steps) && KeysDiffer(dbs[0].jobs) && k < |dbs|
    ensures KeysDiffer(dbs[k].jobs)
  {
    hide KeysDiffer, Apply, Enabled;
    if k > 0 {
      LiveKeysAreUnique(dbs, steps, k - 1);
      StepKeeps(dbs[k - 1], steps[k - 1]);
    }
  }
}
