/** What outlives a transaction: queue and group rows are never deleted, and only an
    operator changes a row's cap or its rate. */
module Rows {
  import opened Tables
  import opened Lifecycle

  /** Every row is still there, and nothing but counters moved. */
  ghost predicate RowsKept(db: Db, db': Db) {
    && (forall q :: q in db.queues ==> q in db'.queues && db'.queues[q] == db.queues[q].(running := db'.queues[q].running))
    && (forall g :: g in db.groups ==> g in db'.groups && db'.groups[g] == db.groups[g].(running := db'.groups[g].running))
  }

  /** The cap an operator's step gives `lane`, if it is such an edit. */
  function NewCap(s: Step, lane: Lane): Option<int> {
    match lane
    case QueueLane(q) =>
      if s.QueueAdmin? && s.name == q && s.queueEdit.QueueCap? then Some(Max(s.queueEdit.max, 0)) else None
    case GroupLane(g) =>
      if s.GroupAdmin? && s.key == g && s.groupEdit.GroupCap? then Some(Max(s.groupEdit.max, 0)) else None
  }

  /** An operator's step sets the cap of `lane` below what it is. */
  predicate Lowers(db: Db, s: Step, lane: Lane)
    requires CounterOf(db, lane).Some?
  {
    NewCap(s, lane).Some? && NewCap(s, lane).value < CounterOf(db, lane).value.max
  }

  /** The operator's step sets or clears the rate of group `g`. */
  predicate EditsRate(s: Step, g: string) {
    s.GroupAdmin? && s.key == g && (s.groupEdit.GroupRate? || s.groupEdit.ClearRate?)
  }

  lemma RowsKeptTrans(a: Db, b: Db, c: Db)
    requires RowsKept(a, b) && RowsKept(b, c)
    ensures RowsKept(a, c)
  {
  }

  lemma InsertDynKeepsRows(db: Db, req: Request, now: Time)
    requires InsertDyn(db, req, now).Some?
    ensures RowsKept(db, InsertDyn(db, req, now).value)
  {
    hide Conflicts, NewJob;
  }

  lemma TryFireKeepsRows(db: Db, b: BatchId, now: Time)
    requires TryFire(db, b, now).Some?
    ensures RowsKept(db, TryFire(db, b, now).value)
  {
    hide InsertDyn, Callback;
    if Claimable(db, b) && db.batches[b].onComplete.Some? {
      var row := db.batches[b];
      InsertDynKeepsRows(db.(batches := db.batches[b := Close(row, now)]),
                         Callback(row.onComplete.value, b, row, now - row.createdAt), now);
    }
  }

  lemma SettleKeepsRows(db: Db, b: Option<BatchId>, o: Outcome, now: Time)
    requires SettleOpt(db, b, o, now).Some?
    ensures RowsKept(db, SettleOpt(db, b, o, now).value)
  {
    hide TryFire;
    if b.Some? && b.value in db.batches {
      var db' := db.(batches := db.batches[b.value := Bump(db.batches[b.value], o)]);
      if TryFire(db', b.value, now).Some? {
        TryFireKeepsRows(db', b.value, now);
      }
    }
  }

  lemma {:induction false} FireAllKeepsRows(db: Db, bs: seq<BatchId>, now: Time)
    requires FireAll(db, bs, now).Some?
    ensures RowsKept(db, FireAll(db, bs, now).value)
    decreases |bs|
  {
    hide TryFire, RowsKept;
    if bs == [] {
      RowsKeptRefl(db);
    } else {
      var db1 := TryFire(db, bs[0], now).value;
      TryFireKeepsRows(db, bs[0], now);
      FireAllKeepsRows(db1, bs[1..], now);
      RowsKeptTrans(db, db1, FireAll(db1, bs[1..], now).value);
    }
  }

  lemma RowsKeptRefl(db: Db)
    ensures RowsKept(db, db)
  {
  }

  lemma {:induction false} InsertRowsKeepsRows(db: Db, reqs: seq<Request>, now: Time)
    ensures var db' := InsertRows(db, reqs, now); db'.queues == db.queues && db'.groups == db.groups && db'.rules == db.rules
    decreases |reqs|
  {
    if reqs != [] {
      InsertRowsKeepsRows(if Conflicts(db.jobs, reqs[0]) then db else AddJob(db, NewJob(reqs[0], now)), reqs[1..], now);
    }
  }

  lemma SizeBatchKeepsRows(db: Db, b: BatchId, inserted: nat, now: Time)
    requires b in db.batches && SizeBatch(db, b, inserted, now).Some?
    ensures RowsKept(db, SizeBatch(db, b, inserted, now).value)
  {
    hide InsertDyn, Callback;
    var row := db.batches[b].(total := inserted);
    if inserted == 0 && row.onComplete.Some? {
      InsertDynKeepsRows(WithBatch(db, b, Close(row, now)), Callback(row.onComplete.value, b, row, 0), now);
    }
  }

  lemma EnqueueBatchKeepsRows(db: Db, items: seq<Request>, onComplete: Option<Request>, now: Time)
    requires EnqueueBatch(db, items, onComplete, now).Some?
    ensures RowsKept(db, EnqueueBatch(db, items, onComplete, now).value)
  {
    hide SizeBatch, InsertRows, Stamp;
    var b := db.nextBatch;
    var db1 := OpenBatch(db, onComplete, now);
    var reqs := Stamp(items, b);
    InsertRowsKeepsRows(db1, reqs, now);
    InsertRowsKeepsBatches(db1, reqs, now);
    var db2 := InsertMany(db1, reqs, now).value;
    SizeBatchKeepsRows(db2, b, db2.nextJob - db.nextJob, now);
    RowsKeptTrans(db, db2, SizeBatch(db2, b, db2.nextJob - db.nextJob, now).value);
  }

  lemma RecoverKeepsRows(db: Db, ids: set<JobId>, now: Time)
    requires Recover(db, ids, now).Some?
    ensures RowsKept(db, Recover(db, ids, now).value)
  {
    hide FireAll;
    var swept := Swept(db.jobs, ids);
    FireAllKeepsRows(StallRows(db, swept, now), Ascending(Bumped(db, swept)), now);
  }

  lemma VerdictKeepsRows(db: Db, ids: set<JobId>, jobs': map<JobId, Job>, b: Option<BatchId>, o: Outcome, now: Time)
    requires SettleOpt(Release(db, ids, jobs'), b, o, now).Some?
    ensures RowsKept(db, SettleOpt(Release(db, ids, jobs'), b, o, now).value)
  {
    hide SettleOpt;
    SettleKeepsRows(Release(db, ids, jobs'), b, o, now);
  }

  /** No transaction but a claim or an operator's edit writes more of a row than its counter. */
  lemma StepKeepsRows(db: Db, s: Step)
    requires !s.Take? && !s.QueueAdmin? && !s.GroupAdmin?
    ensures RowsKept(db, Apply(db, s))
  {
    hide EnqueueBatch, Recover, SettleOpt, Conflicts, NewJob;
    if Transaction(db, s).Some? {
      match s
      case Batched(items, onComplete, at) => EnqueueBatchKeepsRows(db, items, onComplete, at);
      case Complete(id, w, at) =>
        if Fenced(db, id, w) {
          VerdictKeepsRows(db, {id}, db.jobs[id := Finalized(db.jobs[id], Completed, at)], db.jobs[id].batch, DidComplete, at);
        }
      case Fail(id, w, retryAt, at) =>
        if Fenced(db, id, w) && retryAt.None? {
          VerdictKeepsRows(db, {id}, db.jobs[id := Finalized(db.jobs[id], Failed, at)], db.jobs[id].batch, DidFail, at);
        }
      case Cancel(id, at) =>
        if id in db.jobs && db.jobs[id].state == Pending {
          SettleKeepsRows(db.(jobs := db.jobs[id := db.jobs[id].(state := Cancelled, finalizedAt := Some(at))]),
                          db.jobs[id].batch, DidCancel, at);
        }
      case Stall(ids, at) => RecoverKeepsRows(db, ids, at);
      case _ =>
    }
  }

  /** A row, once there, stays; and only an operator moves its cap. */
  lemma CapStays(db: Db, s: Step, lane: Lane)
    requires CounterOf(db, lane).Some?
    ensures CounterOf(Apply(db, s), lane).Some?
    ensures CounterOf(Apply(db, s), lane).value.max
            == if NewCap(s, lane).Some? then NewCap(s, lane).value else CounterOf(db, lane).value.max
  {
    if !s.Take? && !s.QueueAdmin? && !s.GroupAdmin? {
      hide Apply;
      StepKeepsRows(db, s);
    }
  }

  /** A transaction but a claim moves at most the counter of a group's row, unless it is an operator's
      edit of that row, and then exactly what is edited. */
  lemma GroupStays(db: Db, s: Step, g: string)
    requires g in db.groups && !s.Take?
    ensures g in Apply(db, s).groups
    ensures var row, row' := db.groups[g], Apply(db, s).groups[g];
            row' == if s.GroupAdmin? && s.key == g
                    then if s.groupEdit.GroupRate? && (s.groupEdit.count <= 0 || s.groupEdit.period <= 0) then row
                         else EditedGroup(row, s.groupEdit, s.at)
                    else row.(running := row'.running)
  {
    if !s.QueueAdmin? && !s.GroupAdmin? {
      hide Apply;
      StepKeepsRows(db, s);
    }
  }
}
