/** Inserting jobs, tied to the columns: which names are accepted, which requests meet a live twin,
    and what a whole lot of requests leaves behind. */
module Inserts {
  import opened Tables
  import opened Lifecycle
  import Columns

  lemma NameRule(name: string)
    ensures ValidQueueName(name) <==> Columns.NameAccepted(name)
  {
    assert forall c: char :: c in "._-" <==> c == '.' || c == '_' || c == '-';
  }

  lemma TwinRule(jobs: map<JobId, Job>, req: Request)
    ensures Conflicts(jobs, req) <==> Columns.LiveTwin(jobs, req.kind, req.uniqueKey)
  {
  }

  lemma NoRowsYet(jobs: map<JobId, Job>, nextJob: JobId, reqs: seq<Request>, now: Time)
    ensures Columns.Inserted(jobs, nextJob, jobs, reqs, 0, now) && Columns.NewRows(jobs, reqs, 0) == 0
  {
  }

  /** Every id handed out so far is the row of some earlier request. */
  lemma {:induction false} RowHasRequest(jobs: map<JobId, Job>, reqs: seq<Request>, i: nat, n: nat) returns (k: nat)
    requires i <= |reqs| && n < Columns.NewRows(jobs, reqs, i)
    ensures k < i && !Columns.TwinBefore(jobs, reqs, k) && Columns.NewRows(jobs, reqs, k) == n
  {
    if n == Columns.NewRows(jobs, reqs, i - 1) {
      k := i - 1;
    } else {
      k := RowHasRequest(jobs, reqs, i - 1, n);
    }
  }

  /** An earlier request with the same key left a live twin, whether it went in or met one itself. */
  lemma {:induction false} EarlierTwin(jobs: map<JobId, Job>, nextJob: JobId, jobs': map<JobId, Job>, reqs: seq<Request>,
                                       i: nat, k: nat, now: Time)
    requires k < i <= |reqs| && reqs[k].uniqueKey.Some? && Columns.Inserted(jobs, nextJob, jobs', reqs, i, now)
    requires forall id :: id in jobs ==> id < nextJob
    ensures Columns.LiveTwin(jobs', reqs[k].kind, reqs[k].uniqueKey)
    decreases k
  {
    if !Columns.TwinBefore(jobs, reqs, k) {
      assert Columns.RowHolds(jobs', nextJob + Columns.NewRows(jobs, reqs, k), reqs[k], now);
      assert Columns.Live(jobs'[nextJob + Columns.NewRows(jobs, reqs, k)]);
    } else if Columns.LiveTwin(jobs, reqs[k].kind, reqs[k].uniqueKey) {
      var id :| id in jobs && Columns.Live(jobs[id]) && jobs[id].kind == reqs[k].kind && jobs[id].uniqueKey == reqs[k].uniqueKey;
      assert id in jobs' && jobs'[id] == jobs[id];
    } else {
      var j :| 0 <= j < k && reqs[j].kind == reqs[k].kind && reqs[j].uniqueKey == reqs[k].uniqueKey;
      EarlierTwin(jobs, nextJob, jobs', reqs, i, j, now);
    }
  }

  /** A live twin met at its turn was there before, or is an earlier request's row. */
  lemma TwinCameFrom(jobs: map<JobId, Job>, nextJob: JobId, jobs': map<JobId, Job>, reqs: seq<Request>, i: nat, now: Time)
    requires i < |reqs| && Columns.Inserted(jobs, nextJob, jobs', reqs, i, now) && forall id :: id in jobs ==> id < nextJob
    requires Columns.LiveTwin(jobs', reqs[i].kind, reqs[i].uniqueKey)
    ensures Columns.TwinBefore(jobs, reqs, i)
  {
    hide Columns.NewRows;
    var kind, key := reqs[i].kind, reqs[i].uniqueKey;
    var id :| id in jobs' && Columns.Live(jobs'[id]) && jobs'[id].kind == kind && jobs'[id].uniqueKey == key;
    if id in jobs {
      assert jobs[id] == jobs'[id];
      assert Columns.LiveTwin(jobs, kind, key);
    } else {
      var k := RowHasRequest(jobs, reqs, i, id - nextJob);
      assert Columns.RowHolds(jobs', id, reqs[k], now);
    }
  }

  /** And a twin known beforehand is met. */
  lemma TwinIsMet(jobs: map<JobId, Job>, nextJob: JobId, jobs': map<JobId, Job>, reqs: seq<Request>, i: nat, now: Time)
    requires i < |reqs| && Columns.Inserted(jobs, nextJob, jobs', reqs, i, now) && forall id :: id in jobs ==> id < nextJob
    requires Columns.TwinBefore(jobs, reqs, i)
    ensures Columns.LiveTwin(jobs', reqs[i].kind, reqs[i].uniqueKey)
  {
    hide Columns.NewRows, Columns.Queued;
    var kind, key := reqs[i].kind, reqs[i].uniqueKey;
    if Columns.LiveTwin(jobs, kind, key) {
      var id :| id in jobs && Columns.Live(jobs[id]) && jobs[id].kind == kind && jobs[id].uniqueKey == key;
      assert id in jobs' && jobs'[id] == jobs[id];
    } else {
      var k :| 0 <= k < i && reqs[k].kind == kind && reqs[k].uniqueKey == key;
      EarlierTwin(jobs, nextJob, jobs', reqs, i, k, now);
    }
  }

  lemma NewRowIsQueued(req: Request, now: Time)
    ensures Columns.Queued(NewJob(req, now), req, now)
  {
  }

  lemma RowsUnfold(jobs: map<JobId, Job>, reqs: seq<Request>, i: nat)
    requires i < |reqs|
    ensures Columns.NewRows(jobs, reqs, i + 1) == Columns.NewRows(jobs, reqs, i) + if Columns.TwinBefore(jobs, reqs, i) then 0 else 1
  {
  }

  lemma SkipRow(jobs: map<JobId, Job>, nextJob: JobId, jobs': map<JobId, Job>, reqs: seq<Request>, i: nat, now: Time)
    requires i < |reqs| && Columns.Inserted(jobs, nextJob, jobs', reqs, i, now) && Columns.TwinBefore(jobs, reqs, i)
    ensures Columns.Inserted(jobs, nextJob, jobs', reqs, i + 1, now)
  {
    hide Columns.TwinBefore, Columns.RowHolds, Columns.NewRows;
    RowsUnfold(jobs, reqs, i);
  }

  lemma AddRow(jobs: map<JobId, Job>, nextJob: JobId, jobs': map<JobId, Job>, reqs: seq<Request>, i: nat, row: Job, now: Time)
    requires i < |reqs| && Columns.Inserted(jobs, nextJob, jobs', reqs, i, now) && !Columns.TwinBefore(jobs, reqs, i)
    requires Columns.Queued(row, reqs[i], now) && forall id :: id in jobs ==> id < nextJob
    ensures Columns.Inserted(jobs, nextJob, jobs'[nextJob + Columns.NewRows(jobs, reqs, i) := row], reqs, i + 1, now)
  {
    hide Columns.TwinBefore, Columns.RowHolds, Columns.Queued, Columns.NewRows;
    RowsUnfold(jobs, reqs, i);
    var n := nextJob + Columns.NewRows(jobs, reqs, i);
    AddedRows(jobs, nextJob, jobs', reqs, i, n, row, now);
  }

  lemma AddedRows(jobs: map<JobId, Job>, nextJob: JobId, jobs': map<JobId, Job>, reqs: seq<Request>, i: nat, n: JobId, row: Job, now: Time)
    requires i < |reqs| && Columns.RowsIn(jobs, nextJob, jobs', reqs, i, now) && n == nextJob + Columns.NewRows(jobs, reqs, i)
    requires Columns.Queued(row, reqs[i], now)
    ensures Columns.RowsIn(jobs, nextJob, jobs'[n := row], reqs, i + 1, now)
  {
    hide Columns.TwinBefore, Columns.RowHolds, Columns.Queued, Columns.NewRows;
    forall k: nat | k < i + 1 && !Columns.TwinBefore(jobs, reqs, k)
      ensures Columns.RowHolds(jobs'[n := row], nextJob + Columns.NewRows(jobs, reqs, k), reqs[k], now)
    {
      AddedRow(jobs, nextJob, jobs', reqs, i, n, row, k, now);
    }
  }

  lemma AddedRow(jobs: map<JobId, Job>, nextJob: JobId, jobs': map<JobId, Job>, reqs: seq<Request>, i: nat, n: JobId, row: Job, k: nat, now: Time)
    requires i < |reqs| && Columns.RowsIn(jobs, nextJob, jobs', reqs, i, now) && n == nextJob + Columns.NewRows(jobs, reqs, i)
    requires Columns.Queued(row, reqs[i], now) && k <= i && !Columns.TwinBefore(jobs, reqs, k)
    ensures Columns.RowHolds(jobs'[n := row], nextJob + Columns.NewRows(jobs, reqs, k), reqs[k], now)
  {
    hide Columns.TwinBefore, Columns.RowHolds, Columns.Queued, Columns.NewRows;
    if k < i {
      MoreRows(jobs, reqs, k, i);
      RowStays(jobs', n, row, nextJob + Columns.NewRows(jobs, reqs, k), reqs[k], now);
    } else {
      RowIsThere(jobs', n, row, reqs[i], now);
    }
  }

  lemma RowIsThere(jobs: map<JobId, Job>, n: JobId, row: Job, req: Request, now: Time)
    requires Columns.Queued(row, req, now)
    ensures Columns.RowHolds(jobs[n := row], n, req, now)
  {
  }

  lemma RowStays(jobs: map<JobId, Job>, n: JobId, row: Job, m: JobId, req: Request, now: Time)
    requires Columns.RowHolds(jobs, m, req, now) && m != n
    ensures Columns.RowHolds(jobs[n := row], m, req, now)
  {
  }

  /** So exactly the requests without a twin go in, each as the next row. */
  lemma OneMoreRow(jobs: map<JobId, Job>, nextJob: JobId, jobs': map<JobId, Job>, reqs: seq<Request>, i: nat, now: Time)
    requires i < |reqs| && Columns.Inserted(jobs, nextJob, jobs', reqs, i, now) && forall id :: id in jobs ==> id < nextJob
    ensures Conflicts(jobs', reqs[i]) <==> Columns.TwinBefore(jobs, reqs, i)
    ensures var n := nextJob + Columns.NewRows(jobs, reqs, i);
            Columns.Inserted(jobs, nextJob, if Conflicts(jobs', reqs[i]) then jobs' else jobs'[n := NewJob(reqs[i], now)], reqs, i + 1, now)
  {
    hide Columns.TwinBefore, Columns.LiveTwin, Columns.Inserted, Columns.Queued, Columns.NewRows, Conflicts, NewJob;
    TwinRule(jobs', reqs[i]);
    if Columns.LiveTwin(jobs', reqs[i].kind, reqs[i].uniqueKey) {
      TwinCameFrom(jobs, nextJob, jobs', reqs, i, now);
    }
    if Columns.TwinBefore(jobs, reqs, i) {
      TwinIsMet(jobs, nextJob, jobs', reqs, i, now);
      SkipRow(jobs, nextJob, jobs', reqs, i, now);
    } else {
      NewRowIsQueued(reqs[i], now);
      AddRow(jobs, nextJob, jobs', reqs, i, NewJob(reqs[i], now), now);
    }
  }

  lemma {:induction false} MoreRows(jobs: map<JobId, Job>, reqs: seq<Request>, k: nat, i: nat)
    requires k < i <= |reqs| && !Columns.TwinBefore(jobs, reqs, k)
    ensures Columns.NewRows(jobs, reqs, k) < Columns.NewRows(jobs, reqs, i)
  {
    if k < i - 1 {
      MoreRows(jobs, reqs, k, i - 1);
    }
  }

  lemma RulesApply(groups: map<string, Group>, rules: map<string, Rule>, keys: set<string>, now: Time)
    ensures Columns.Materialized(groups, Materialize(groups, rules, keys, now), rules, keys, now)
  {
  }

  // ---- Callbacks ----

  /** The request built for a batch's callback, inserted or skipped, is what the columns say. */
  lemma CallbackGoesIn(before: Db, after: Db, r: Batch, b: BatchId, duration: int, inserted: bool, now: Time)
    requires r.onComplete.Some? && after == before.(jobs := after.jobs, nextJob := after.nextJob, groups := after.groups)
    requires var req := Callback(r.onComplete.value, b, r, duration);
             && (inserted <==> !Columns.LiveTwin(before.jobs, req.kind, req.uniqueKey))
             && (if inserted then
                   && after.nextJob == before.nextJob + 1 && before.nextJob in after.jobs
                   && after.jobs == before.jobs[before.nextJob := after.jobs[before.nextJob]]
                   && Columns.Queued(after.jobs[before.nextJob], req, now)
                   && Columns.Materialized(before.groups, after.groups, before.rules, if req.group.Some? then {req.group.value} else {}, now)
                 else after == before)
    ensures Columns.CalledBack(before, after, b, r, duration, now)
  {
    hide Columns.LiveTwin, Columns.Materialized;
  }

  lemma CallbackQueue(spec: Request, b: BatchId, r: Batch, duration: int)
    ensures Callback(spec, b, r, duration).queue == spec.queue
  {
  }

  /** A batch without a callback calls nobody back. */
  lemma NobodyCalledBack(before: Db, after: Db, b: BatchId, r: Batch, duration: int, now: Time)
    requires r.onComplete.None? && after == before.(batches := after.batches)
    ensures Columns.CalledBack(before, after, b, r, duration, now)
  {
  }

  /** Whom a batch calls back does not depend on the batch rows. */
  lemma CalledBackAlike(before: Db, mid: Db, after: Db, b: BatchId, r: Batch, duration: int, now: Time)
    requires mid == before.(batches := mid.batches) && Columns.CalledBack(mid, after, b, r, duration, now)
    ensures Columns.CalledBack(before, after, b, r, duration, now)
  {
    hide Columns.LiveTwin, Columns.CallsBack, Columns.Materialized;
  }

  lemma NothingInserted(db: Db, jobs': map<JobId, Job>, reqs: seq<Request>, now: Time)
    requires Columns.Inserted(db.jobs, db.nextJob, jobs', reqs, |reqs|, now) && Columns.NewRows(db.jobs, reqs, |reqs|) == 0
    requires Columns.Sequenced(db)
    ensures jobs' == db.jobs
  {
  }

  /** The new batch's row, then its items, then its size and, when nothing went in, its callback. */
  lemma BatchIsOpened(begun: Db, filled: Db, after: Db, items: seq<Request>, onComplete: Option<Request>, n: nat, now: Time)
    requires Columns.Sequenced(begun)
    requires var b := begun.nextBatch;
             && filled == begun.(jobs := filled.jobs, groups := filled.groups, nextJob := filled.nextJob, nextBatch := b + 1,
                                 batches := begun.batches[b := Batch(false, 0, 0, 0, 0, onComplete, false, now, None)])
             && filled.nextJob == begun.nextJob + n && n == Columns.NewRows(begun.jobs, Columns.Marked(items, b), |items|)
             && Columns.Inserted(begun.jobs, begun.nextJob, filled.jobs, Columns.Marked(items, b), |items|, now)
    requires var b := begun.nextBatch;
             if n != 0 then after == filled.(batches := filled.batches[b := filled.batches[b].(total := n)])
             else && after.batches == filled.batches[b := filled.batches[b].(total := 0, claimed := true, complete := true, finalizedAt := Some(now))]
                  && Columns.CalledBack(filled, after, b, filled.batches[b].(total := 0), 0, now)
    ensures Columns.BatchOpened(begun, after, items, onComplete, begun.nextBatch, n, now)
  {
    hide Columns.LiveTwin, Columns.Inserted, Columns.NewRows, Columns.Materialized;
    if n == 0 {
      NothingInserted(begun, filled.jobs, Columns.Marked(items, begun.nextBatch), now);
    }
    assert after.batches == begun.batches[begun.nextBatch := after.batches[begun.nextBatch]];
  }
}
