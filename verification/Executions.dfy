/** The life of one job over a run: terminal states absorb, a verdict from a
    fetcher that no longer owns the job does nothing, and the number of times a
    job is claimed is bounded. Everything counted here is read off the committed
    states of the run. */
module Executions {
  import opened Tables
  import opened Lifecycle

  // ---- What one transaction can do to one job ----

  predicate Fresh(db: Db) {
    forall id :: id in db.jobs ==> id < db.nextJob
  }

  predicate IsNew(j: Job) {
    j.state == Pending && j.attempt == 0 && j.stalled == 0 && j.worker.None? && j.heartbeat.None? && j.finalizedAt.None?
  }

  /** `db'` is `db` with some new jobs under unused ids. */
  ghost predicate OnlyAdds(db: Db, db': Db) {
    && Fresh(db') && db.nextJob <= db'.nextJob
    && (forall id :: id in db.jobs ==> id in db'.jobs && db'.jobs[id] == db.jobs[id])
    && (forall id :: id in db'.jobs && id !in db.jobs ==> db.nextJob <= id && IsNew(db'.jobs[id]))
  }

  lemma NothingAdded(db: Db)
    requires Fresh(db)
    ensures OnlyAdds(db, db)
  {
  }

  lemma OnlyAddsTwice(db: Db, db1: Db, db2: Db)
    requires OnlyAdds(db, db1) && OnlyAdds(db1, db2)
    ensures OnlyAdds(db, db2)
  {
  }

  lemma InsertDynAdds(db: Db, req: Request, now: Time)
    requires Fresh(db) && InsertDyn(db, req, now).Some?
    ensures OnlyAdds(db, InsertDyn(db, req, now).value)
  {
    hide Conflicts, Materialize;
  }

  lemma TryFireAdds(db: Db, b: BatchId, now: Time)
    requires Fresh(db) && TryFire(db, b, now).Some?
    ensures OnlyAdds(db, TryFire(db, b, now).value)
  {
    hide InsertDyn, Callback;
    if Claimable(db, b) && db.batches[b].onComplete.Some? {
      var r := db.batches[b];
      InsertDynAdds(WithBatch(db, b, Close(r, now)), Callback(r.onComplete.value, b, r, now - r.createdAt), now);
    }
  }

  lemma SettleAdds(db: Db, b: Option<BatchId>, o: Outcome, now: Time)
    requires Fresh(db) && SettleOpt(db, b, o, now).Some?
    ensures OnlyAdds(db, SettleOpt(db, b, o, now).value)
  {
    if b.Some? && b.value in db.batches {
      var db' := WithBatch(db, b.value, Bump(db.batches[b.value], o));
      if TryFire(db', b.value, now).Some? {
        TryFireAdds(db', b.value, now);
      }
    }
  }

  lemma {:induction false} FireAllAdds(db: Db, bs: seq<BatchId>, now: Time)
    requires Fresh(db) && FireAll(db, bs, now).Some?
    ensures OnlyAdds(db, FireAll(db, bs, now).value)
    decreases |bs|
  {
    if bs != [] {
      TryFireAdds(db, bs[0], now);
      FireAllAdds(TryFire(db, bs[0], now).value, bs[1..], now);
      OnlyAddsTwice(db, TryFire(db, bs[0], now).value, FireAll(db, bs, now).value);
    }
  }

  lemma {:induction false} InsertRowsAdds(db: Db, reqs: seq<Request>, now: Time)
    requires Fresh(db)
    ensures OnlyAdds(db, InsertRows(db, reqs, now))
    decreases |reqs|
  {
    if reqs != [] {
      var db1 := if Conflicts(db.jobs, reqs[0]) then db else AddJob(db, NewJob(reqs[0], now));
      InsertRowsAdds(db1, reqs[1..], now);
      OnlyAddsTwice(db, db1, InsertRows(db1, reqs[1..], now));
    }
  }

  lemma EnqueueBatchAdds(db: Db, items: seq<Request>, onComplete: Option<Request>, now: Time)
    requires Fresh(db) && EnqueueBatch(db, items, onComplete, now).Some?
    ensures OnlyAdds(db, EnqueueBatch(db, items, onComplete, now).value)
  {
    var b, db1 := db.nextBatch, OpenBatch(db, onComplete, now);
    InsertRowsAdds(db1, Stamp(items, b), now);
    InsertRowsKeepsBatches(db1, Stamp(items, b), now);
    var db2 := InsertMany(db1, Stamp(items, b), now).value;
    var row := db2.batches[b].(total := db2.nextJob - db.nextJob);
    if row.total == 0 && row.onComplete.Some? {
      InsertDynAdds(WithBatch(db2, b, Close(row, now)), Callback(row.onComplete.value, b, row, 0), now);
    }
    OnlyAddsTwice(db, db2, EnqueueBatch(db, items, onComplete, now).value);
  }

  /** Job `id` stays as it is, but for a heartbeat, or the loss of a deleted batch. */
  predicate Stays(j: Job, j': Job, id: JobId, s: Step) {
    || j' == j
    || (s.Heartbeat? && id in s.ids && j.state == Running && j' == j.(heartbeat := Some(s.at)))
    || (s.ReapBatches? && j.batch.Some? && j.batch.value in s.batchIds && j' == j.(batch := None))
  }

  /** Every way step `s` may change job `id`. */
  ghost predicate JobStep(j: Job, j': Job, id: JobId, s: Step) {
    && j'.maxAttempts == j.maxAttempts && j'.maxStalled == j.maxStalled
    && (|| Stays(j, j', id, s)
        || (s.Take? && id in s.ids && j.state == Pending && j' == Started(j, s.w, s.at))
        || (s.Complete? && s.id == id && j.state == Running && j.worker == Some(s.w) && j' == Finalized(j, Completed, s.at))
        || (s.Fail? && s.id == id && j.state == Running && j.worker == Some(s.w)
            && j' == if s.retryAt.Some? then Retried(j, s.retryAt.value) else Finalized(j, Failed, s.at))
        || (s.Cancel? && s.id == id && j.state == Pending && j' == j.(state := Cancelled, finalizedAt := Some(s.at)))
        || (s.Stall? && id in s.ids && j.state == Running && j' == Stalled(j, s.at)))
  }

  /** Jobs change only as `JobStep` says, leave only when finished, and join only as new. */
  ghost predicate JobsStep(db: Db, db': Db, s: Step) {
    && Fresh(db') && db.nextJob <= db'.nextJob
    && (forall id :: id in db.jobs && id in db'.jobs ==> JobStep(db.jobs[id], db'.jobs[id], id, s))
    && (forall id :: id in db.jobs && id !in db'.jobs ==> db.jobs[id].state.Terminal())
    && (forall id :: id in db'.jobs && id !in db.jobs ==> db.nextJob <= id && IsNew(db'.jobs[id]))
  }

  lemma AddsAreSteps(db: Db, db1: Db, db': Db, s: Step)
    requires Fresh(db) && OnlyAdds(db1, db') && db1.nextJob == db.nextJob && db1.jobs.Keys == db.jobs.Keys
    requires forall id :: id in db.jobs ==> JobStep(db.jobs[id], db1.jobs[id], id, s)
    ensures JobsStep(db, db', s)
  {
  }

  lemma VerdictSteps(db: Db, s: Step)
    requires Fresh(db) && (s.Complete? || s.Fail? || s.Cancel?) && Transaction(db, s).Some?
    ensures JobsStep(db, Apply(db, s), s)
  {
    hide SettleOpt, ReleaseGroups, ReleaseQueues, OnlyAdds, JobsStep;
    var acts := if s.Cancel? then s.id in db.jobs && db.jobs[s.id].state == Pending else Fenced(db, s.id, s.w);
    if acts {
      var j := db.jobs[s.id];
      match s
      case Complete(id, w, at) =>
        var db1 := Release(db, {id}, db.jobs[id := Finalized(j, Completed, at)]);
        SettleAdds(db1, j.batch, DidComplete, at);
        AddsAreSteps(db, db1, Apply(db, s), s);
      case Fail(id, w, retryAt, at) =>
        if retryAt.None? {
          var db1 := Release(db, {id}, db.jobs[id := Finalized(j, Failed, at)]);
          SettleAdds(db1, j.batch, DidFail, at);
          AddsAreSteps(db, db1, Apply(db, s), s);
        } else {
          var db1 := Release(db, {id}, db.jobs[id := Retried(j, retryAt.value)]);
          NothingAdded(db1);
          AddsAreSteps(db, db1, Apply(db, s), s);
        }
      case Cancel(id, at) =>
        var db1 := db.(jobs := db.jobs[id := j.(state := Cancelled, finalizedAt := Some(at))]);
        SettleAdds(db1, j.batch, DidCancel, at);
        AddsAreSteps(db, db1, Apply(db, s), s);
    } else {
      NothingAdded(db);
      AddsAreSteps(db, db, Apply(db, s), s);
    }
  }

  lemma StepsAreJobSteps(db: Db, s: Step)
    requires Fresh(db) && Enabled(db, s)
    ensures JobsStep(db, Apply(db, s), s)
  {
    hide InsertDyn, EnqueueBatch, FireAll, MarkCompleted, MarkFailed, CancelJob, OnlyAdds, JobsStep, Fresh;
    hide ReleaseGroups, ReleaseQueues, BumpedBatches, Ascending;
    if Transaction(db, s).None? {
      NothingAdded(db);
      AddsAreSteps(db, db, db, s);
    } else {
      match s
      case Enqueue(req, at) => InsertDynAdds(db, req, at); AddsAreSteps(db, db, Apply(db, s), s);
      case Batched(items, onComplete, at) => EnqueueBatchAdds(db, items, onComplete, at); AddsAreSteps(db, db, Apply(db, s), s);
      case Stall(ids, at) =>
        var db1 := StallRows(db, Swept(db.jobs, ids), at);
        StallRowsFresh(db, Swept(db.jobs, ids), at);
        FireAllAdds(db1, Ascending(Bumped(db, Swept(db.jobs, ids))), at);
        AddsAreSteps(db, db1, Apply(db, s), s);
      case Complete(_, _, _) => VerdictSteps(db, s);
      case Fail(_, _, _, _) => VerdictSteps(db, s);
      case Cancel(_, _) => VerdictSteps(db, s);
      case _ => RowSteps(db, s);
    }
  }

  lemma StallRowsFresh(db: Db, swept: set<JobId>, now: Time)
    requires Fresh(db)
    ensures Fresh(StallRows(db, swept, now))
  {
    hide ReleaseGroups, ReleaseQueues, BumpedBatches, Stalled;
  }

  /** The steps that insert nothing and settle nothing. */
  lemma RowSteps(db: Db, s: Step)
    requires Fresh(db) && Enabled(db, s)
    requires !s.Enqueue? && !s.Batched? && !s.Stall? && !s.Complete? && !s.Fail? && !s.Cancel?
    ensures JobsStep(db, Apply(db, s), s)
  {
    hide ClaimFits, ClaimedGroups, ClaimedQueues, ReconciledGroups, ReconciledQueues, EditQueue, EditGroup;
    if s.QueueAdmin? || s.GroupAdmin? {
      EditsLeaveJobs(db, s);
    }
  }

  lemma EditsLeaveJobs(db: Db, s: Step)
    requires s.QueueAdmin? || s.GroupAdmin?
    ensures Apply(db, s).jobs == db.jobs && Apply(db, s).nextJob == db.nextJob
  {
    hide EditedQueue, EditedGroup, RunningOn;
  }

  lemma {:induction false} TraceIsFresh(dbs: seq<Db>, steps: seq<Step>, k: nat)
    requires IsTrace(dbs, steps) && Fresh(dbs[0]) && k < |dbs|
    ensures Fresh(dbs[k])
  {
    if k > 0 {
      TraceIsFresh(dbs, steps, k - 1);
      StepsAreJobSteps(dbs[k - 1], steps[k - 1]);
    }
  }

  lemma TraceStep(dbs: seq<Db>, steps: seq<Step>, k: nat)
    requires IsTrace(dbs, steps) && Fresh(dbs[0]) && k < |steps|
    ensures JobsStep(dbs[k], dbs[k + 1], steps[k])
  {
    TraceIsFresh(dbs, steps, k);
    StepsAreJobSteps(dbs[k], steps[k]);
  }

  // ---- Terminal states absorb ----

  predicate Finished(db: Db, id: JobId) {
    id < db.nextJob && (id in db.jobs ==> db.jobs[id].state.Terminal())
  }

  /** A finished job never leaves its terminal state, and a deleted one never comes back. */
  lemma {:induction false} TerminalAbsorbs(dbs: seq<Db>, steps: seq<Step>, i: nat, k: nat, id: JobId)
    requires IsTrace(dbs, steps) && Fresh(dbs[0]) && i <= k < |dbs| && Finished(dbs[i], id)
    ensures Finished(dbs[k], id)
    ensures id in dbs[k].jobs ==> id in dbs[i].jobs && dbs[k].jobs[id].state == dbs[i].jobs[id].state
    decreases k
  {
    hide Apply, Enabled, JobStep;
    if i < k {
      TerminalAbsorbs(dbs, steps, i, k - 1, id);
      TraceStep(dbs, steps, k - 1);
      if id in dbs[k].jobs && id in dbs[k - 1].jobs {
        TerminalStep(dbs[k - 1].jobs[id], dbs[k].jobs[id], id, steps[k - 1]);
      }
    }
  }

  lemma TerminalStep(j: Job, j': Job, id: JobId, s: Step)
    requires JobStep(j, j', id, s) && j.state.Terminal()
    ensures j'.state == j.state
  {
  }

  /** Step `k` takes job `id` into a terminal state. */
  predicate EndsAt(dbs: seq<Db>, k: nat, id: JobId)
    requires k + 1 < |dbs|
  {
    id in dbs[k].jobs && !dbs[k].jobs[id].state.Terminal() && id in dbs[k + 1].jobs && dbs[k + 1].jobs[id].state.Terminal()
  }

  /** Over any run a job makes at most one terminal transition. */
  lemma EndsOnce(dbs: seq<Db>, steps: seq<Step>, i: nat, k: nat, id: JobId)
    requires IsTrace(dbs, steps) && Fresh(dbs[0]) && i < |steps| && k < |steps|
    requires EndsAt(dbs, i, id) && EndsAt(dbs, k, id)
    ensures i == k
  {
    TraceIsFresh(dbs, steps, i + 1);
    TraceIsFresh(dbs, steps, k + 1);
    if i < k {
      TerminalAbsorbs(dbs, steps, i + 1, k, id);
    } else if k < i {
      TerminalAbsorbs(dbs, steps, k + 1, i, id);
    }
  }

  // ---- Waiting ----

  /** Step `s` retries job `id` at `t` and the verdict lands. */
  predicate RetriesTo(db: Db, s: Step, id: JobId, t: Time) {
    s.Fail? && s.id == id && s.retryAt == Some(t) && id in db.jobs && db.jobs[id].state == Running && db.jobs[id].worker == Some(s.w)
  }

  lemma {:induction false} NextJobGrows(dbs: seq<Db>, steps: seq<Step>, i: nat, k: nat)
    requires IsTrace(dbs, steps) && Fresh(dbs[0]) && i <= k < |dbs|
    ensures dbs[i].nextJob <= dbs[k].nextJob
    decreases k
  {
    hide Apply, Enabled, JobStep, Fresh;
    if i < k {
      NextJobGrows(dbs, steps, i, k - 1);
      TraceStep(dbs, steps, k - 1);
    }
  }

  /** A job's time to start moves only when a retry lands. */
  lemma {:induction false} ScheduleStays(dbs: seq<Db>, steps: seq<Step>, i: nat, k: nat, id: JobId)
    requires IsTrace(dbs, steps) && Fresh(dbs[0]) && i <= k < |dbs| && id in dbs[i].jobs && id in dbs[k].jobs
    requires forall x, t :: i <= x < k ==> !RetriesTo(dbs[x], steps[x], id, t)
    ensures dbs[k].jobs[id].scheduledAt == dbs[i].jobs[id].scheduledAt
    decreases k
  {
    hide Apply, Enabled, JobStep;
    if i < k {
      TraceIsFresh(dbs, steps, i);
      NextJobGrows(dbs, steps, i, k - 1);
      TraceStep(dbs, steps, k - 1);
      ScheduleStays(dbs, steps, i, k - 1, id);
      KeepsItsTime(dbs[k - 1], dbs[k].jobs[id], id, steps[k - 1]);
    }
  }

  lemma KeepsItsTime(db: Db, j': Job, id: JobId, s: Step)
    requires id in db.jobs && JobStep(db.jobs[id], j', id, s) && forall t :: !RetriesTo(db, s, id, t)
    ensures j'.scheduledAt == db.jobs[id].scheduledAt
  {
    if s.Fail? && s.retryAt.Some? {
      assert !RetriesTo(db, s, id, s.retryAt.value);
    }
  }

  /** A retry is not claimed early: once a job has been retried to `t`, no claim whose database time is before
      `t` takes it, over any run, until another retry of it lands. */
  lemma RetriesWaitTheirTime(dbs: seq<Db>, steps: seq<Step>, i: nat, k: nat, id: JobId, t: Time)
    requires IsTrace(dbs, steps) && Fresh(dbs[0]) && i < k < |steps| && RetriesTo(dbs[i], steps[i], id, t)
    requires forall x, u :: i < x < k ==> !RetriesTo(dbs[x], steps[x], id, u)
    requires steps[k].Take? && id in steps[k].ids
    ensures id in dbs[i + 1].jobs && dbs[i + 1].jobs[id].state == Pending && dbs[i + 1].jobs[id].scheduledAt == t
    ensures t <= steps[k].at
  {
    RetryIsWritten(dbs[i], steps[i], id, t);
    ScheduleStays(dbs, steps, i + 1, k, id);
  }

  lemma RetryIsWritten(db: Db, s: Step, id: JobId, t: Time)
    requires RetriesTo(db, s, id, t)
    ensures id in Apply(db, s).jobs && Apply(db, s).jobs[id].state == Pending && Apply(db, s).jobs[id].scheduledAt == t
  {
    hide ReleaseGroups, ReleaseQueues;
  }

  /** A sweep leaves a job alone whose heartbeat is no older than `staleAfter`, and, if it goes through, takes
      every running job whose heartbeat is older out of its worker's hands. */
  lemma SweepTakesTheQuiet(db: Db, now: Time, staleAfter: Time, id: JobId)
    requires Fresh(db) && id in db.jobs && db.jobs[id].state == Running
    ensures var s := Stall(Lifecycle.Stale(db, now, staleAfter), now);
            var j := db.jobs[id];
            && id in Apply(db, s).jobs
            && (j.heartbeat.Some? && now - j.heartbeat.value <= staleAfter ==> Apply(db, s).jobs[id] == j)
            && (Transaction(db, s).Some? && (j.heartbeat.None? || now - j.heartbeat.value > staleAfter) ==>
                  && Apply(db, s).jobs[id].state != Running && Apply(db, s).jobs[id].worker == None
                  && Apply(db, s).jobs[id].stalled == j.stalled + 1)
  {
    hide Apply, JobStep, Fresh, FireAll;
    var stale := Lifecycle.Stale(db, now, staleAfter);
    var s := Stall(stale, now);
    StepsAreJobSteps(db, s);
    SweptRowStays(db, s, id);
    if id in stale && Transaction(db, s).Some? {
      StaleRowGoes(db, s, id);
    }
  }

  lemma SweptRowStays(db: Db, s: Step, id: JobId)
    requires s.Stall? && id in db.jobs && db.jobs[id].state == Running && JobsStep(db, Apply(db, s), s)
    ensures id in Apply(db, s).jobs && (id !in s.ids ==> Apply(db, s).jobs[id] == db.jobs[id])
  {
    hide Apply;
    if id in Apply(db, s).jobs {
      assert JobStep(db.jobs[id], Apply(db, s).jobs[id], id, s);
    }
  }

  lemma StaleRowGoes(db: Db, s: Step, id: JobId)
    requires Fresh(db) && s.Stall? && id in s.ids && id in db.jobs && db.jobs[id].state == Running && Transaction(db, s).Some?
    ensures id in Apply(db, s).jobs && Apply(db, s).jobs[id] == Stalled(db.jobs[id], s.at)
  {
    hide FireAll, ReleaseGroups, ReleaseQueues, BumpedBatches, Stalled, Ascending;
    var db1 := StallRows(db, Swept(db.jobs, s.ids), s.at);
    StallRowsFresh(db, Swept(db.jobs, s.ids), s.at);
    FireAllAdds(db1, Ascending(Bumped(db, Swept(db.jobs, s.ids))), s.at);
  }

  // ---- The shape of a row ----

  /** Exactly the running jobs have a worker and a heartbeat; exactly the finished ones a finish time. */
  predicate WellShaped(j: Job) {
    && (j.worker.Some? <==> j.state == Running) && (j.heartbeat.Some? <==> j.state == Running)
    && (j.finalizedAt.Some? <==> j.state.Terminal())
  }

  lemma StepKeepsShape(j: Job, j': Job, id: JobId, s: Step)
    requires JobStep(j, j', id, s) && WellShaped(j)
    ensures WellShaped(j')
  {
  }

  /** In every state of every run: so a running row without a heartbeat, which the sweep provides for,
      never arises, and no finished row escapes retention for want of a finish time. */
  lemma {:induction false} RowsAreWellShaped(dbs: seq<Db>, steps: seq<Step>, k: nat, id: JobId)
    requires IsTrace(dbs, steps) && dbs[0].jobs == map[] && k < |dbs| && id in dbs[k].jobs
    ensures WellShaped(dbs[k].jobs[id])
    decreases k
  {
    hide Apply, Enabled, JobStep, WellShaped, IsNew;
    if k > 0 {
      TraceStep(dbs, steps, k - 1);
      if id in dbs[k - 1].jobs {
        RowsAreWellShaped(dbs, steps, k - 1, id);
        StepKeepsShape(dbs[k - 1].jobs[id], dbs[k].jobs[id], id, steps[k - 1]);
      } else {
        NewIsWellShaped(dbs[k].jobs[id]);
      }
    }
  }

  lemma NewIsWellShaped(j: Job)
    requires IsNew(j)
    ensures WellShaped(j)
  {
  }

  // ---- Late verdicts ----

  lemma {:induction false} OnlyClaimsGrant(dbs: seq<Db>, steps: seq<Step>, i: nat, k: nat, id: JobId, w: WorkerId)
    requires IsTrace(dbs, steps) && Fresh(dbs[0]) && i <= k < |dbs|
    requires id in dbs[i].jobs ==> dbs[i].jobs[id].worker != Some(w)
    requires forall x :: i <= x < k && steps[x].Take? && steps[x].w == w ==> id !in steps[x].ids
    ensures id in dbs[k].jobs ==> dbs[k].jobs[id].worker != Some(w)
    decreases k
  {
    hide Apply, Enabled, JobStep;
    if i < k {
      OnlyClaimsGrant(dbs, steps, i, k - 1, id, w);
      TraceStep(dbs, steps, k - 1);
      if id in dbs[k].jobs && id in dbs[k - 1].jobs {
        GrantStep(dbs[k - 1].jobs[id], dbs[k].jobs[id], id, steps[k - 1], w);
      }
    }
  }

  lemma GrantStep(j: Job, j': Job, id: JobId, s: Step, w: WorkerId)
    requires JobStep(j, j', id, s) && j.worker != Some(w) && (s.Take? && s.w == w ==> id !in s.ids)
    ensures j'.worker != Some(w)
  {
  }

  /** Once a fetcher has lost a job (to a sweep, or to a sweep and a re-claim by another fetcher) its
      verdicts on that job change nothing at all, until that same fetcher claims the job again. */
  lemma LateVerdictsAreInert(dbs: seq<Db>, steps: seq<Step>, i: nat, k: nat, id: JobId, w: WorkerId,
                             retryAt: Option<Time>, now: Time)
    requires IsTrace(dbs, steps) && Fresh(dbs[0]) && i <= k < |dbs|
    requires id in dbs[i].jobs ==> dbs[i].jobs[id].worker != Some(w)
    requires forall x :: i <= x < k && steps[x].Take? && steps[x].w == w ==> id !in steps[x].ids
    ensures MarkCompleted(dbs[k], id, w, now) == Some(dbs[k])
    ensures MarkFailed(dbs[k], id, w, retryAt, now) == Some(dbs[k])
  {
    OnlyClaimsGrant(dbs, steps, i, k, id, w);
  }

  // ---- Bounded executions ----

  /** Step `k` claims job `id`. */
  predicate ClaimsAt(dbs: seq<Db>, k: nat, id: JobId)
    requires k + 1 < |dbs|
  {
    id in dbs[k].jobs && id in dbs[k + 1].jobs && dbs[k].jobs[id].state == Pending && dbs[k + 1].jobs[id].state == Running
  }

  /** Step `k` recovers job `id` from a stall. */
  predicate RecoversAt(dbs: seq<Db>, k: nat, id: JobId)
    requires k + 1 < |dbs|
  {
    id in dbs[k].jobs && id in dbs[k + 1].jobs && dbs[k].jobs[id].state == Running && dbs[k + 1].jobs[id].state == Pending
    && dbs[k + 1].jobs[id].stalled > dbs[k].jobs[id].stalled
  }

  /** Step `k` changes the state of job `id`. */
  predicate ChangesAt(dbs: seq<Db>, k: nat, id: JobId)
    requires k + 1 < |dbs|
  {
    id in dbs[k].jobs && id in dbs[k + 1].jobs && dbs[k].jobs[id].state != dbs[k + 1].jobs[id].state
  }

  function Claims(dbs: seq<Db>, k: nat, id: JobId): nat
    requires k < |dbs|
  {
    if k == 0 then 0 else Claims(dbs, k - 1, id) + (if ClaimsAt(dbs, k - 1, id) then 1 else 0)
  }

  function Recoveries(dbs: seq<Db>, k: nat, id: JobId): nat
    requires k < |dbs|
  {
    if k == 0 then 0 else Recoveries(dbs, k - 1, id) + (if RecoversAt(dbs, k - 1, id) then 1 else 0)
  }

  function Changes(dbs: seq<Db>, k: nat, id: JobId): nat
    requires k < |dbs|
  {
    if k == 0 then 0 else Changes(dbs, k - 1, id) + (if ChangesAt(dbs, k - 1, id) then 1 else 0)
  }

  function Budget(j: Job): nat {
    Max(1, j.maxAttempts) + Max(0, j.maxStalled)
  }

  /** Attempts left for the next claim, or in use by this one. */
  predicate WithinAttempts(j: Job) {
    match j.state
    case Pending => 0 <= j.attempt < Max(1, j.maxAttempts)
    case _ => 0 <= j.attempt <= Max(1, j.maxAttempts)
  }

  /** What holds in every run of a job claimed `c` times, `r` of them recovered. */
  predicate Counted(j: Job, c: nat, r: nat) {
    && c == j.attempt + r && 0 <= j.attempt && r <= Max(0, j.maxStalled)
    && (j.state == Running ==> j.attempt >= 1)
    && (!j.state.Terminal() ==> j.stalled == r)
  }

  /** And when retries stay within the limit, so does the attempt number. */
  predicate Accounted(j: Job, c: nat, r: nat) {
    Counted(j, c, r) && WithinAttempts(j)
  }

  /** The verdict was decided on attempt number `seen` without a Retry directive: `retry_schedule` retries a
      failed handler while the attempt number it was given is below the limit. */
  predicate Undirected(j: Job, retryAt: Option<Time>, seen: int) {
    retryAt.Some? ==> seen < j.maxAttempts
  }

  /** Exactly when a retry stays within budget: iff the row's own attempt is below the limit. */
  lemma RetryKeepsBudgetIff(j: Job, c: nat, r: nat, at: Time)
    requires Accounted(j, c, r) && j.state == Running
    ensures Accounted(Retried(j, at), c, r) <==> j.attempt < Max(1, j.maxAttempts)
  {
  }

  /** The floor `GREATEST(attempt - 1, 0)` is never needed. */
  lemma AttemptFloorNeverBites(j: Job, c: nat, r: nat, now: Time)
    requires Counted(j, c, r) && j.state == Running && !OverBudget(j)
    ensures Stalled(j, now).attempt == j.attempt - 1
    ensures Counted(Stalled(j, now), c, r + 1)
  {
  }

  /** If `s` retries job `id`, the row's own attempt is below the limit. */
  predicate RetryWithin(j: Job, id: JobId, s: Step) {
    s.Fail? && s.id == id && j.state == Running && j.worker == Some(s.w) && s.retryAt.Some? ==> j.attempt < j.maxAttempts
  }

  /** Every retry that lands does. */
  ghost predicate Within(dbs: seq<Db>, steps: seq<Step>)
    requires IsTrace(dbs, steps)
  {
    forall k: nat, id: JobId :: k < |steps| && id in dbs[k].jobs ==> RetryWithin(dbs[k].jobs[id], id, steps[k])
  }

  /** No verdict carries a Retry directive: each was decided on attempt number `seen[k]`. */
  ghost predicate Undirecteds(dbs: seq<Db>, steps: seq<Step>, seen: seq<int>)
    requires IsTrace(dbs, steps)
  {
    && |seen| == |steps|
    && forall k :: 0 <= k < |steps| && steps[k].Fail? && Fenced(dbs[k], steps[k].id, steps[k].w) ==>
         Undirected(dbs[k].jobs[steps[k].id], steps[k].retryAt, seen[k])
  }

  /** Every verdict that lands was decided on the attempt the row is at: it comes from the current
      claim and not from an earlier one of the same process. */
  ghost predicate Prompt(dbs: seq<Db>, steps: seq<Step>, seen: seq<int>)
    requires IsTrace(dbs, steps) && |seen| == |steps|
  {
    forall k :: 0 <= k < |steps| && steps[k].Fail? && Fenced(dbs[k], steps[k].id, steps[k].w) ==>
      seen[k] == dbs[k].jobs[steps[k].id].attempt
  }

  /** Undirected verdicts that are prompt retry only within the limit. */
  lemma PromptIsWithin(dbs: seq<Db>, steps: seq<Step>, seen: seq<int>)
    requires IsTrace(dbs, steps) && Undirecteds(dbs, steps, seen) && Prompt(dbs, steps, seen)
    ensures Within(dbs, steps)
  {
    hide Apply, Enabled;
  }

  lemma StepAccounts(j: Job, j': Job, id: JobId, s: Step, c: nat, r: nat)
    requires Accounted(j, c, r) && JobStep(j, j', id, s)
    requires RetryWithin(j, id, s)
    ensures Accounted(j', c + (if j.state == Pending && j'.state == Running then 1 else 0),
                      r + (if j.state == Running && j'.state == Pending && j'.stalled > j.stalled then 1 else 0))
  {
  }

  /** Whatever a step does to a job, retries over the limit included, claims and recoveries stay counted. */
  lemma StepCounts(j: Job, j': Job, id: JobId, s: Step, c: nat, r: nat)
    requires Counted(j, c, r) && JobStep(j, j', id, s)
    ensures Counted(j', c + (if j.state == Pending && j'.state == Running then 1 else 0),
                    r + (if j.state == Running && j'.state == Pending && j'.stalled > j.stalled then 1 else 0))
  {
  }

  ghost predicate CountedAt(dbs: seq<Db>, k: nat, id: JobId)
    requires k < |dbs|
  {
    var c, r := Claims(dbs, k, id), Recoveries(dbs, k, id);
    && (id !in dbs[k].jobs && id >= dbs[k].nextJob ==> c == 0 && r == 0)
    && (id in dbs[k].jobs ==> Counted(dbs[k].jobs[id], c, r))
  }

  lemma CountStep(dbs: seq<Db>, k: nat, id: JobId, s: Step)
    requires k + 1 < |dbs| && Fresh(dbs[k]) && CountedAt(dbs, k, id) && JobsStep(dbs[k], dbs[k + 1], s)
    ensures CountedAt(dbs, k + 1, id)
  {
    hide JobStep, Counted, IsNew;
    var db, db' := dbs[k], dbs[k + 1];
    if id in db.jobs && id in db'.jobs {
      assert JobStep(db.jobs[id], db'.jobs[id], id, s);
      StepCounts(db.jobs[id], db'.jobs[id], id, s, Claims(dbs, k, id), Recoveries(dbs, k, id));
    } else if id in db'.jobs {
      assert IsNew(db'.jobs[id]);
      NewIsAccounted(db'.jobs[id]);
    }
  }

  lemma {:induction false} TraceCounted(dbs: seq<Db>, steps: seq<Step>, k: nat, id: JobId)
    requires IsTrace(dbs, steps) && dbs[0].jobs == map[] && k < |dbs|
    ensures CountedAt(dbs, k, id)
  {
    hide JobsStep, Apply, Enabled, Fresh;
    if k > 0 {
      Unused(dbs[0]);
      TraceCounted(dbs, steps, k - 1, id);
      TraceIsFresh(dbs, steps, k - 1);
      TraceStep(dbs, steps, k - 1);
      CountStep(dbs, k - 1, id, steps[k - 1]);
    }
  }

  /** In every run whatsoever, with Retry directives or late verdicts, a job has been claimed exactly
      `attempt` plus its recovered stalls times, and has been recovered at most `max_stalled_count` times. */
  lemma ClaimsAreAttemptsPlusRecoveries(dbs: seq<Db>, steps: seq<Step>, k: nat, id: JobId)
    requires IsTrace(dbs, steps) && dbs[0].jobs == map[] && k < |dbs| && id in dbs[k].jobs
    ensures Claims(dbs, k, id) == dbs[k].jobs[id].attempt + Recoveries(dbs, k, id)
    ensures Recoveries(dbs, k, id) <= Max(0, dbs[k].jobs[id].maxStalled)
  {
    TraceCounted(dbs, steps, k, id);
  }

  /** Strictly decreases with every change of state; zero exactly when finished. */
  function Fuel(j: Job, c: nat): int {
    match j.state
    case Pending => 2 * (Budget(j) - c) + 1
    case Running => 2 * (Budget(j) - c) + 2
    case _ => 0
  }

  lemma StepBurnsFuel(j: Job, j': Job, id: JobId, s: Step, c: nat, r: nat)
    requires Accounted(j, c, r) && JobStep(j, j', id, s)
    requires RetryWithin(j, id, s)
    ensures var c' := c + (if j.state == Pending && j'.state == Running then 1 else 0);
            Budget(j') == Budget(j) && 0 <= Fuel(j', c') && Fuel(j', c') + (if j'.state != j.state then 1 else 0) <= Fuel(j, c)
  {
    StepAccounts(j, j', id, s, c, r);
  }

  /** The full account of one job at one point of a run. */
  ghost predicate Audited(dbs: seq<Db>, k: nat, id: JobId)
    requires k < |dbs|
  {
    var c, r := Claims(dbs, k, id), Recoveries(dbs, k, id);
    && (id !in dbs[k].jobs && id >= dbs[k].nextJob ==> c == 0 && r == 0 && Changes(dbs, k, id) == 0)
    && (id in dbs[k].jobs ==>
          && Accounted(dbs[k].jobs[id], c, r)
          && Changes(dbs, k, id) + Fuel(dbs[k].jobs[id], c) <= 2 * Budget(dbs[k].jobs[id]) + 1)
  }

  /** One step carries the account forward. */
  lemma AuditStep(dbs: seq<Db>, k: nat, id: JobId, s: Step)
    requires k + 1 < |dbs| && Fresh(dbs[k]) && Audited(dbs, k, id) && JobsStep(dbs[k], dbs[k + 1], s)
    requires id in dbs[k].jobs ==> RetryWithin(dbs[k].jobs[id], id, s)
    ensures Audited(dbs, k + 1, id)
  {
    hide JobStep, Accounted, Budget, IsNew;
    var db, db' := dbs[k], dbs[k + 1];
    if id in db.jobs && id in db'.jobs {
      var j, j', c, r := db.jobs[id], db'.jobs[id], Claims(dbs, k, id), Recoveries(dbs, k, id);
      assert JobStep(j, j', id, s);
      StepAccounts(j, j', id, s, c, r);
      StepBurnsFuel(j, j', id, s, c, r);
    } else if id in db'.jobs {
      assert IsNew(db'.jobs[id]);
      NewIsAccounted(db'.jobs[id]);
    }
  }

  lemma NewIsAccounted(j: Job)
    requires IsNew(j)
    ensures Accounted(j, 0, 0) && Fuel(j, 0) == 2 * Budget(j) + 1
  {
  }

  lemma AuditStarts(dbs: seq<Db>, id: JobId)
    requires |dbs| > 0 && dbs[0].jobs == map[]
    ensures Audited(dbs, 0, id)
  {
  }

  lemma Unused(db: Db)
    requires db.jobs == map[]
    ensures Fresh(db)
  {
  }

  lemma {:induction false} TraceAudited(dbs: seq<Db>, steps: seq<Step>, k: nat, id: JobId)
    requires IsTrace(dbs, steps) && dbs[0].jobs == map[] && Within(dbs, steps) && k < |dbs|
    ensures Audited(dbs, k, id)
  {
    hide Audited, JobsStep, Apply, Enabled, RetryWithin, Fresh;
    if k == 0 {
      AuditStarts(dbs, id);
    } else {
      Unused(dbs[0]);
      TraceAudited(dbs, steps, k - 1, id);
      TraceIsFresh(dbs, steps, k - 1);
      TraceStep(dbs, steps, k - 1);
      AuditStep(dbs, k - 1, id, steps[k - 1]);
    }
  }

  /** Bounded executions: in any run whose retries stay within the limit (as prompt verdicts
      without Retry directives do), a job has been claimed `attempt` plus its recovered stalls times, never more than its budget, and its state has changed
      at most 2 * budget + 1 times, fewer by the fuel it has left. */
  lemma ExecutionsAreBounded(dbs: seq<Db>, steps: seq<Step>, k: nat, id: JobId)
    requires IsTrace(dbs, steps) && dbs[0].jobs == map[] && Within(dbs, steps) && k < |dbs| && id in dbs[k].jobs
    ensures var j := dbs[k].jobs[id];
            && Claims(dbs, k, id) == j.attempt + Recoveries(dbs, k, id)
            && Claims(dbs, k, id) <= Max(1, j.maxAttempts) + Max(0, j.maxStalled)
            && Changes(dbs, k, id) + Fuel(j, Claims(dbs, k, id)) <= 2 * Budget(j) + 1
            && (Fuel(j, Claims(dbs, k, id)) == 0 <==> j.state.Terminal())
  {
    TraceAudited(dbs, steps, k, id);
  }

  /** Exactly which runs respect the limit: no job is ever past its attempts, at any point of the run,
      iff every retry that lands finds the row's own attempt number below `max_attempts`. */
  lemma AttemptsStayWithinIff(dbs: seq<Db>, steps: seq<Step>)
    requires IsTrace(dbs, steps) && dbs[0].jobs == map[]
    ensures Within(dbs, steps) <==> forall k: nat, id: JobId :: k < |dbs| && id in dbs[k].jobs ==> WithinAttempts(dbs[k].jobs[id])
  {
    hide Apply, Enabled, WithinAttempts, RetryWithin;
    if Within(dbs, steps) {
      forall k: nat, id: JobId | k < |dbs| && id in dbs[k].jobs ensures WithinAttempts(dbs[k].jobs[id]) {
        TraceAudited(dbs, steps, k, id);
      }
    }
    if forall k: nat, id: JobId :: k < |dbs| && id in dbs[k].jobs ==> WithinAttempts(dbs[k].jobs[id]) {
      forall k: nat, id: JobId | k < |steps| && id in dbs[k].jobs ensures RetryWithin(dbs[k].jobs[id], id, steps[k]) {
        RetryShows(dbs, steps, k, id);
      }
    }
  }

  /** The claim finds room in the row: attempts and recovered stalls so far leave one execution. */
  predicate HasRoom(j: Job) {
    j.attempt + j.stalled < Budget(j)
  }

  /** Exactly which claims go over budget: no job is ever claimed more often than its budget iff every
      claim finds `attempt` plus `stalled_count` below it in the row it claims. */
  lemma ClaimsStayWithinIff(dbs: seq<Db>, steps: seq<Step>)
    requires IsTrace(dbs, steps) && dbs[0].jobs == map[]
    ensures (forall k: nat, id: JobId :: k + 1 < |dbs| && ClaimsAt(dbs, k, id) ==> HasRoom(dbs[k].jobs[id]))
       <==> (forall k: nat, id: JobId :: k < |dbs| && id in dbs[k].jobs ==> Claims(dbs, k, id) <= Budget(dbs[k].jobs[id]))
  {
    hide IsTrace, Claims, Budget, HasRoom;
    if forall k: nat, id: JobId :: k + 1 < |dbs| && ClaimsAt(dbs, k, id) ==> HasRoom(dbs[k].jobs[id]) {
      forall k: nat, id: JobId | k < |dbs| && id in dbs[k].jobs ensures Claims(dbs, k, id) <= Budget(dbs[k].jobs[id]) {
        RoomyClaimsStay(dbs, steps, k, id);
      }
    }
    if forall k: nat, id: JobId :: k < |dbs| && id in dbs[k].jobs ==> Claims(dbs, k, id) <= Budget(dbs[k].jobs[id]) {
      forall k: nat, id: JobId | k + 1 < |dbs| && ClaimsAt(dbs, k, id) ensures HasRoom(dbs[k].jobs[id]) {
        RoomIsCounted(dbs, steps, k, id);
      }
    }
  }

  /** The row a claim finds knows how often its job was claimed before. */
  lemma RoomIsCounted(dbs: seq<Db>, steps: seq<Step>, k: nat, id: JobId)
    requires IsTrace(dbs, steps) && dbs[0].jobs == map[] && k + 1 < |dbs| && ClaimsAt(dbs, k, id)
    ensures id in dbs[k].jobs && id in dbs[k + 1].jobs && Budget(dbs[k + 1].jobs[id]) == Budget(dbs[k].jobs[id])
    ensures HasRoom(dbs[k].jobs[id]) <==> Claims(dbs, k + 1, id) <= Budget(dbs[k + 1].jobs[id])
  {
    hide Apply, Enabled, Fresh;
    Unused(dbs[0]);
    TraceCounted(dbs, steps, k, id);
    TraceStep(dbs, steps, k);
    assert JobStep(dbs[k].jobs[id], dbs[k + 1].jobs[id], id, steps[k]);
  }

  lemma {:induction false} RoomyClaimsStay(dbs: seq<Db>, steps: seq<Step>, k: nat, id: JobId)
    requires IsTrace(dbs, steps) && dbs[0].jobs == map[] && k < |dbs| && id in dbs[k].jobs
    requires forall x: nat :: x < k && ClaimsAt(dbs, x, id) ==> HasRoom(dbs[x].jobs[id])
    ensures Claims(dbs, k, id) <= Budget(dbs[k].jobs[id])
  {
    hide Apply, Enabled, Fresh, HasRoom, JobStep, Budget, IsNew;
    if k > 0 {
      Unused(dbs[0]);
      TraceStep(dbs, steps, k - 1);
      if ClaimsAt(dbs, k - 1, id) {
        RoomIsCounted(dbs, steps, k - 1, id);
      } else if id in dbs[k - 1].jobs {
        RoomyClaimsStay(dbs, steps, k - 1, id);
        BudgetStays(dbs[k - 1].jobs[id], dbs[k].jobs[id], id, steps[k - 1]);
      } else {
        TraceCounted(dbs, steps, k - 1, id);
        TraceIsFresh(dbs, steps, k - 1);
        BudgetIsPositive(dbs[k].jobs[id]);
      }
    }
  }

  lemma BudgetStays(j: Job, j': Job, id: JobId, s: Step)
    requires JobStep(j, j', id, s)
    ensures Budget(j') == Budget(j)
  {
  }

  lemma BudgetIsPositive(j: Job)
    ensures Budget(j) >= 1
  {
  }

  /** A retry over the limit shows in the very next state. */
  lemma RetryShows(dbs: seq<Db>, steps: seq<Step>, k: nat, id: JobId)
    requires IsTrace(dbs, steps) && dbs[0].jobs == map[] && k < |steps| && id in dbs[k].jobs
    requires id in dbs[k + 1].jobs ==> WithinAttempts(dbs[k + 1].jobs[id])
    ensures RetryWithin(dbs[k].jobs[id], id, steps[k])
  {
    hide Enabled, ReleaseGroups, ReleaseQueues;
    TraceCounted(dbs, steps, k, id);
  }

  // ---- Why undirected is not enough ----

  const FLAKY := Request("k", Null, 2, 1, 0, "q", None, None, None, None)

  /** The database holds one job and nothing else. */
  function Solo(j: Job): Db {
    EMPTY_DB.(jobs := map[0 := j], nextJob := 1)
  }

  predicate Plain(j: Job) {
    j.group.None? && j.batch.None?
  }

  lemma SoloStart()
    ensures Apply(EMPTY_DB, Enqueue(FLAKY, 0)) == Solo(NewJob(FLAKY, 0)) && Plain(NewJob(FLAKY, 0))
  {
    assert Materialize(map[], map[], {}, 0) == map[];
  }

  lemma SoloClaim(j: Job, w: WorkerId)
    requires Plain(j)
    ensures Claim(Solo(j), {0}, w, 0, map[]) == Solo(Started(j, w, 0))
  {
    var db := Solo(j);
    assert GroupsOf(db.jobs, {0}) == {};
    assert ClaimedGroups(db.groups, db.jobs, {0}, map[]) == map[];
    assert ClaimedQueues(db.queues, db.jobs, {0}) == map[];
    assert ClaimedJobs(db.jobs, {0}, w, 0) == map[0 := Started(j, w, 0)];
  }

  lemma SoloTake(j: Job)
    requires Plain(j) && j.state == Pending && j.scheduledAt == 0
    ensures Enabled(Solo(j), Take({0}, 7, 0, map[])) && Apply(Solo(j), Take({0}, 7, 0, map[])) == Solo(Started(j, 7, 0))
    ensures Plain(Started(j, 7, 0))
  {
    hide Claim;
    SoloClaim(j, 7);
    SoloClaim(j, 0);
  }

  lemma SoloRelease(j: Job, j': Job)
    ensures Release(Solo(j), {0}, map[0 := j']) == Solo(j')
  {
    assert ReleaseGroups(map[], map[0 := j], {0}) == map[];
    assert ReleaseQueues(map[], map[0 := j], {0}) == map[];
  }

  lemma SoloStall(j: Job)
    requires Plain(j) && j.state == Running
    ensures Apply(Solo(j), Stall({0}, 0)) == Solo(Stalled(j, 0)) && Plain(Stalled(j, 0))
  {
    hide Release;
    var db := Solo(j);
    assert Swept(db.jobs, {0}) == {0} && Bumped(db, {0}) == {} && Ascending({}) == [];
    assert StalledJobs(db.jobs, {0}, 0) == map[0 := Stalled(j, 0)];
    SoloRelease(j, Stalled(j, 0));
    assert BumpedBatches(map[], db.jobs, {0}) == map[];
  }

  lemma SoloRetry(j: Job)
    requires Plain(j) && j.state == Running && j.worker == Some(7)
    ensures Apply(Solo(j), Fail(0, 7, Some(0), 0)) == Solo(Retried(j, 0)) && Plain(Retried(j, 0))
  {
    hide Release;
    SoloRelease(j, Retried(j, 0));
    assert Solo(j).jobs[0 := Retried(j, 0)] == map[0 := Retried(j, 0)];
  }

  lemma EnabledTrivially(db: Db, s: Step)
    requires s.Enqueue? || s.Stall? || s.Fail?
    ensures Enabled(db, s)
  {
  }

  lemma SoloCounts(dbs: seq<Db>, k: nat, j: Job, j': Job)
    requires k + 1 < |dbs| && dbs[k] == Solo(j) && dbs[k + 1] == Solo(j')
    ensures Claims(dbs, k + 1, 0) == Claims(dbs, k, 0) + if j.state == Pending && j'.state == Running then 1 else 0
  {
  }

  /** Two more steps: a claim, and its end. */
  lemma SoloRound(dbs: seq<Db>, k: nat, j: Job, s: Step)
    requires k + 2 < |dbs| && dbs[k] == Solo(j) && Plain(j) && j.state == Pending && j.scheduledAt == 0 && (s == Stall({0}, 0) || s == Fail(0, 7, Some(0), 0))
    requires dbs[k + 1] == Apply(dbs[k], Take({0}, 7, 0, map[])) && dbs[k + 2] == Apply(dbs[k + 1], s)
    ensures Enabled(dbs[k], Take({0}, 7, 0, map[])) && Enabled(dbs[k + 1], s)
    ensures dbs[k + 1] == Solo(Started(j, 7, 0))
    ensures var j' := if s.Stall? then Stalled(Started(j, 7, 0), 0) else Retried(Started(j, 7, 0), 0);
            dbs[k + 2] == Solo(j') && Plain(j')
    ensures Claims(dbs, k + 2, 0) == Claims(dbs, k, 0) + 1
  {
    hide Apply, Enabled, Solo, Claims, Plain;
    var j1 := Started(j, 7, 0);
    SoloTake(j);
    if s.Stall? { SoloStall(j1); } else { SoloRetry(j1); }
    EnabledTrivially(dbs[k + 1], s);
    SoloCounts(dbs, k, j, j1);
    SoloCounts(dbs, k + 1, j1, if s.Stall? then Stalled(j1, 0) else Retried(j1, 0));
  }

  /** Without promptness the bound fails. One process claims the job, is swept, claims it again and
      retries it; then the first handler's verdict arrives, decided on attempt 1 and let through
      because the fence is per process: a fourth claim, one over the budget of three. */
  lemma LateRetryOverruns() returns (dbs: seq<Db>, steps: seq<Step>, seen: seq<int>)
    ensures IsTrace(dbs, steps) && dbs[0] == EMPTY_DB && Undirecteds(dbs, steps, seen)
    ensures 0 in dbs[|steps|].jobs && Claims(dbs, |steps|, 0) == Budget(dbs[|steps|].jobs[0]) + 1
  {
    hide Apply, Enabled, Claims, Solo, Plain, Fenced, NewJob, Started, Stalled, Retried, Undirected, Budget;
    var take, stall, retry := Take({0}, 7, 0, map[]), Stall({0}, 0), Fail(0, 7, Some(0), 0);
    steps := [Enqueue(FLAKY, 0), take, stall, take, retry, take, retry, take];
    seen := [0, 0, 0, 0, 1, 0, 1, 0];
    var d1 := Apply(EMPTY_DB, steps[0]);
    var d2 := Apply(d1, take);
    var d3 := Apply(d2, stall);
    var d4 := Apply(d3, take);
    var d5 := Apply(d4, retry);
    var d6 := Apply(d5, take);
    var d7 := Apply(d6, retry);
    dbs := [EMPTY_DB, d1, d2, d3, d4, d5, d6, d7, Apply(d7, take)];
    var j1 := NewJob(FLAKY, 0);
    var j3 := Stalled(Started(j1, 7, 0), 0);
    var j5 := Retried(Started(j3, 7, 0), 0);
    var j7 := Retried(Started(j5, 7, 0), 0);
    FlakyLife(j1, j3, j5, j7);
    SoloStart();
    EnabledTrivially(dbs[0], steps[0]);
    SoloRound(dbs, 1, j1, stall);
    SoloRound(dbs, 3, j3, retry);
    SoloRound(dbs, 5, j5, retry);
    SoloTake(j7);
    SoloCounts(dbs, 7, j7, Started(j7, 7, 0));
    NothingClaimedYet(dbs);
    SoloRow(Started(j3, 7, 0));
    SoloRow(Started(j5, 7, 0));
    SoloRow(Started(j7, 7, 0));
  }

  lemma SoloRow(j: Job)
    ensures 0 in Solo(j).jobs && Solo(j).jobs[0] == j
  {
  }

  lemma FlakyLife(j1: Job, j3: Job, j5: Job, j7: Job)
    requires j1 == NewJob(FLAKY, 0) && j3 == Stalled(Started(j1, 7, 0), 0)
    requires j5 == Retried(Started(j3, 7, 0), 0) && j7 == Retried(Started(j5, 7, 0), 0)
    ensures j1.state == Pending && j3.state == Pending && j5.state == Pending && j7.state == Pending
    ensures j1.scheduledAt == j3.scheduledAt == j5.scheduledAt == j7.scheduledAt == 0
    ensures Started(j7, 7, 0).state == Running && Budget(Started(j7, 7, 0)) == 3
    ensures Undirected(Started(j3, 7, 0), Some(0), 1) && Undirected(Started(j5, 7, 0), Some(0), 1)
  {
  }

  lemma NothingClaimedYet(dbs: seq<Db>)
    requires |dbs| > 1 && dbs[0].jobs == map[]
    ensures Claims(dbs, 1, 0) == 0
  {
    assert Claims(dbs, 0, 0) == 0;
  }
}
