/** The grouped recovery statement against the simple thing it stands for: stalling
    the rows one at a time, settling each batch as its jobs fail, in any order. */
module Sweep {
  import opened Tables
  import opened Lifecycle
  import opened Books
  import FanIn

  // ---- The reference: one row at a time ----

  function StallRow(db: Db, id: JobId, now: Time): Db
    requires id in db.jobs
  {
    Release(db, {id}, db.jobs[id := Stalled(db.jobs[id], now)])
  }

  function StallOne(db: Db, id: JobId, now: Time): Option<Db> {
    if id !in db.jobs || db.jobs[id].state != Running then Some(db)
    else if OverBudget(db.jobs[id]) then SettleOpt(StallRow(db, id, now), db.jobs[id].batch, DidFail, now)
    else Some(StallRow(db, id, now))
  }

  function OneByOne(db: Db, order: seq<JobId>, now: Time): Option<Db>
    decreases |order|
  {
    if order == [] then Some(db)
    else
      var r := OneByOne(db, order[..|order| - 1], now);
      if r.None? then None else StallOne(r.value, order[|order| - 1], now)
  }

  // ---- What both must arrive at ----

  /** Batch `b` once the over-budget jobs of `s` are counted. */
  function BumpedRow(db: Db, s: set<JobId>, b: BatchId): Batch
    requires b in db.batches
  {
    db.batches[b].(failed := db.batches[b].failed + |FailedOf(db.jobs, s, b)|)
  }

  /** The batches whose last jobs are in `s`. */
  predicate Finishes(db: Db, s: set<JobId>, b: BatchId) {
    && b in db.batches && FailedOf(db.jobs, s, b) != {}
    && !db.batches[b].claimed && BumpedRow(db, s, b).Sum() == db.batches[b].total
  }

  predicate Speaks(db: Db, b: BatchId) {
    b in db.batches && db.batches[b].onComplete.Some?
  }

  predicate Mute(db: Db, b: BatchId) {
    Speaks(db, b) && !ValidQueueName(db.batches[b].onComplete.value.queue)
  }

  function CallbackReq(db: Db, s: set<JobId>, b: BatchId, now: Time): Request
    requires Speaks(db, b)
  {
    Callback(db.batches[b].onComplete.value, b, BumpedRow(db, s, b), now - db.batches[b].createdAt)
  }

  ghost predicate JobsAfter(db: Db, s: set<JobId>, f: seq<BatchId>, now: Time, db': Db) {
    && db'.nextJob == db.nextJob + |f|
    && (forall id :: id in db'.jobs <==> id in db.jobs || db.nextJob <= id < db.nextJob + |f|)
    && (forall id :: id in db.jobs ==> db'.jobs[id] == if id in s then Stalled(db.jobs[id], now) else db.jobs[id])
    && (forall i :: 0 <= i < |f| ==> Speaks(db, f[i]) && db'.jobs[db.nextJob + i] == NewJob(CallbackReq(db, s, f[i], now), now))
  }

  ghost predicate QueuesAfter(db: Db, s: set<JobId>, db': Db) {
    db'.queues == ReleaseQueues(db.queues, db.jobs, s)
  }

  /** Group `g` gets its row from a rule, for the callback of some closed batch. */
  ghost predicate Appears(db: Db, c: set<BatchId>, g: string) {
    g !in db.groups && g in db.rules
    && exists b :: b in c && Speaks(db, b) && db.batches[b].onComplete.value.group == Some(g)
  }

  ghost predicate GroupsAfter(db: Db, s: set<JobId>, c: set<BatchId>, now: Time, db': Db) {
    && (forall g :: g in db'.groups <==> g in db.groups || Appears(db, c, g))
    && (forall g :: g in db.groups ==> db'.groups[g] == ReleaseGroups(db.groups, db.jobs, s)[g])
    && (forall g :: Appears(db, c, g) ==> db'.groups[g] == FromRule(db.rules[g], now))
  }

  ghost predicate BatchesAfter(db: Db, s: set<JobId>, c: set<BatchId>, now: Time, db': Db) {
    && db'.batches.Keys == db.batches.Keys
    && (forall b :: b in db.batches ==>
          db'.batches[b] == if b in c then Close(BumpedRow(db, s, b), now) else BumpedRow(db, s, b))
  }

  /** From `db`, the rows of `s` have been stalled and the batches in `c` closed; `f` lists, in
      firing order, those of them that had a callback to enqueue. */
  ghost predicate Reached(db: Db, s: set<JobId>, c: set<BatchId>, f: seq<BatchId>, now: Time, db': Db) {
    && (forall b :: b in c ==> Finishes(db, s, b))
    && (forall b :: b in f <==> b in c && Speaks(db, b))
    && (forall i, j :: 0 <= i < j < |f| ==> f[i] != f[j])
    && JobsAfter(db, s, f, now, db') && QueuesAfter(db, s, db') && GroupsAfter(db, s, c, now, db')
    && BatchesAfter(db, s, c, now, db')
    && db'.rules == db.rules && db'.nextBatch == db.nextBatch
  }

  /** What the sweep relies on: no open batch is over-full, and none has a callback job yet. */
  ghost predicate Ready(db: Db, all: set<JobId>) {
    && (forall id :: id in db.jobs ==> id < db.nextJob)
    && (forall id :: id in all ==> id in db.jobs && db.jobs[id].state == Running)
    && (forall b :: b in db.batches && !db.batches[b].claimed ==> BumpedRow(db, all, b).Sum() <= db.batches[b].total)
    && (forall id, b :: id in db.jobs && b in db.batches && db.jobs[id].uniqueKey == Some(CallbackOf(b)) ==>
          db.batches[b].claimed)
  }

  // ---- Stalling rows ----

  lemma FailedGrows(db: Db, s: set<JobId>, id: JobId, b: BatchId)
    requires id !in s && id in db.jobs
    ensures FailedOf(db.jobs, s + {id}, b)
            == FailedOf(db.jobs, s, b) + (if db.jobs[id].batch == Some(b) && OverBudget(db.jobs[id]) then {id} else {})
    ensures |FailedOf(db.jobs, s + {id}, b)|
            == |FailedOf(db.jobs, s, b)| + (if db.jobs[id].batch == Some(b) && OverBudget(db.jobs[id]) then 1 else 0)
  {
    var f := FailedOf(db.jobs, s, b);
    assert FailedOf(db.jobs, s + {id}, b) == f + (if db.jobs[id].batch == Some(b) && OverBudget(db.jobs[id]) then {id} else {});
  }

  lemma AmongGrows(jobs: Jobs, jobs': Jobs, s: set<JobId>, id: JobId, lane: Lane)
    requires id !in s && id in jobs && id in jobs' && jobs'[id] == jobs[id]
    ensures |Among(jobs, s + {id}, lane)| == |Among(jobs, s, lane)| + |Among(jobs', {id}, lane)|
  {
    var a := Among(jobs, s, lane);
    assert Among(jobs', {id}, lane) == if On(jobs[id], lane) then {id} else {};
    assert Among(jobs, s + {id}, lane) == a + Among(jobs', {id}, lane);
  }

  lemma FlooredTwice(r: int, n: nat, m: nat)
    ensures Floored(Floored(r, n), m) == Floored(r, n + m)
  {
  }

  lemma SubsetFails(db: Db, s: set<JobId>, all: set<JobId>, b: BatchId)
    requires s <= all
    ensures |FailedOf(db.jobs, s, b)| <= |FailedOf(db.jobs, all, b)|
  {
    var x, y := FailedOf(db.jobs, s, b), FailedOf(db.jobs, all, b);
    assert y == x + (y - x);
  }

  /** A batch already finished by `s` has no further over-budget job in `all`. */
  lemma FinishedIsFull(db: Db, s: set<JobId>, all: set<JobId>, id: JobId, b: BatchId)
    requires Ready(db, all) && s <= all && id in all && id !in s && Finishes(db, s, b)
    ensures !(db.jobs[id].batch == Some(b) && OverBudget(db.jobs[id]))
    ensures FailedOf(db.jobs, s + {id}, b) == FailedOf(db.jobs, s, b)
  {
    FailedGrows(db, s, id, b);
    SubsetFails(db, s + {id}, all, b);
  }

  function BumpOne(db': Db, id: JobId): map<BatchId, Batch>
    requires id in db'.jobs
  {
    var j := db'.jobs[id];
    if OverBudget(j) && j.batch.Some? && j.batch.value in db'.batches
    then db'.batches[j.batch.value := Bump(db'.batches[j.batch.value], DidFail)] else db'.batches
  }

  lemma StallJobsAfter(db: Db, all: set<JobId>, s: set<JobId>, c: set<BatchId>, f: seq<BatchId>, now: Time, db': Db, id: JobId)
    requires Ready(db, all) && Reached(db, s, c, f, now, db') && s <= all && id in all && id !in s
    ensures id in db'.jobs && db'.jobs[id] == db.jobs[id]
    ensures JobsAfter(db, s + {id}, f, now, StallRow(db', id, now))
  {
    hide QueuesAfter, GroupsAfter, BatchesAfter, ReleaseGroups, ReleaseQueues, Stalled, FailedOf, NewJob, Callback, Ready, Finishes;
    ReadyRunning(db, all, id);
    ReadyFresh(db, all);
    forall i | 0 <= i < |f| ensures BumpedRow(db, s + {id}, f[i]) == BumpedRow(db, s, f[i]) {
      assert f[i] in c;
      FinishedIsFull(db, s, all, id, f[i]);
    }
  }

  lemma StallQueuesAfter(db: Db, s: set<JobId>, now: Time, db': Db, id: JobId)
    requires QueuesAfter(db, s, db') && id in db.jobs && id !in s && id in db'.jobs && db'.jobs[id] == db.jobs[id]
    ensures QueuesAfter(db, s + {id}, StallRow(db', id, now))
  {
    forall q | q in db.queues ensures StallRow(db', id, now).queues[q] == ReleaseQueues(db.queues, db.jobs, s + {id})[q] {
      AmongGrows(db.jobs, db'.jobs, s, id, QueueLane(q));
      FlooredTwice(db.queues[q].running, |Among(db.jobs, s, QueueLane(q))|, |Among(db'.jobs, {id}, QueueLane(q))|);
    }
  }

  lemma ReleasedKeys(groups: map<string, Group>, jobs: Jobs, ids: set<JobId>)
    ensures ReleaseGroups(groups, jobs, ids).Keys == groups.Keys
  {
  }

  lemma ReleasedRow(groups: map<string, Group>, jobs: Jobs, ids: set<JobId>, g: string)
    requires g in groups
    ensures g in ReleaseGroups(groups, jobs, ids)
    ensures ReleaseGroups(groups, jobs, ids)[g]
            == groups[g].(running := Floored(groups[g].running, |Among(jobs, ids, GroupLane(g))|))
  {
  }

  lemma AppearsHasRule(db: Db, c: set<BatchId>, g: string)
    requires Appears(db, c, g)
    ensures g in db.rules && g !in db.groups
  {
  }

  lemma StallGroupsAfter(db: Db, s: set<JobId>, c: set<BatchId>, now: Time, db': Db, id: JobId)
    requires GroupsAfter(db, s, c, now, db') && id in db.jobs && id !in s && id in db'.jobs && db'.jobs[id] == db.jobs[id]
    ensures GroupsAfter(db, s + {id}, c, now, StallRow(db', id, now))
  {
    hide Appears, ReleaseGroups, Among;
    ReleasedKeys(db'.groups, db'.jobs, {id});
    ReleasedKeys(db.groups, db.jobs, s + {id});
    forall g | g in db.groups ensures StallRow(db', id, now).groups[g] == ReleaseGroups(db.groups, db.jobs, s + {id})[g] {
      AmongGrows(db.jobs, db'.jobs, s, id, GroupLane(g));
      FlooredTwice(db.groups[g].running, |Among(db.jobs, s, GroupLane(g))|, |Among(db'.jobs, {id}, GroupLane(g))|);
      ReleasedRow(db.groups, db.jobs, s, g);
      ReleasedRow(db.groups, db.jobs, s + {id}, g);
      ReleasedRow(db'.groups, db'.jobs, {id}, g);
    }
    forall g | Appears(db, c, g) ensures g in db.rules && StallRow(db', id, now).groups[g] == FromRule(db.rules[g], now) {
      AppearsHasRule(db, c, g);
      ReleasedRow(db'.groups, db'.jobs, {id}, g);
    }
  }

  lemma StallBatchesAfter(db: Db, all: set<JobId>, s: set<JobId>, c: set<BatchId>, f: seq<BatchId>, now: Time, db': Db, id: JobId)
    requires Ready(db, all) && Reached(db, s, c, f, now, db') && s <= all && id in all && id !in s
    requires id in db'.jobs && db'.jobs[id] == db.jobs[id]
    ensures BatchesAfter(db, s + {id}, c, now, db'.(batches := BumpOne(db', id)))
  {
    hide JobsAfter, QueuesAfter, GroupsAfter, Ready, FailedOf;
    var db1 := db'.(batches := BumpOne(db', id));
    ReadyRunning(db, all, id);
    assert db1.batches.Keys == db'.batches.Keys;
    forall b | b in db.batches
      ensures db1.batches[b] == if b in c then Close(BumpedRow(db, s + {id}, b), now) else BumpedRow(db, s + {id}, b)
    {
      FailedGrows(db, s, id, b);
      if b in c {
        FinishedIsFull(db, s, all, id, b);
      }
    }
  }

  /** Stalling one more row, and counting it in its batch, is one more row in `s`. */
  lemma StallReaches(db: Db, all: set<JobId>, s: set<JobId>, c: set<BatchId>, f: seq<BatchId>, now: Time, db': Db, id: JobId)
    requires Ready(db, all) && Reached(db, s, c, f, now, db') && s <= all && id in all && id !in s
    ensures id in db'.jobs && db'.jobs[id] == db.jobs[id]
    ensures Reached(db, s + {id}, c, f, now, StallRow(db', id, now).(batches := BumpOne(db', id)))
  {
    hide JobsAfter, QueuesAfter, GroupsAfter, BatchesAfter, ReleaseGroups, ReleaseQueues, BumpOne;
    ReachedKeeps(db, all, s, c, f, now, db', id);
    StallJobsAfter(db, all, s, c, f, now, db', id);
    StallQueuesAfter(db, s, now, db', id);
    StallGroupsAfter(db, s, c, now, db', id);
    StallBatchesAfter(db, all, s, c, f, now, db', id);
    forall b | b in c ensures Finishes(db, s + {id}, b) {
      FinishedIsFull(db, s, all, id, b);
    }
    ReachedParts(db, s, s + {id}, c, f, now, db', StallRow(db', id, now), db'.(batches := BumpOne(db', id)));
  }

  lemma ReachedParts(db: Db, s: set<JobId>, s': set<JobId>, c: set<BatchId>, f: seq<BatchId>, now: Time, db': Db, rows: Db, bumps: Db)
    requires Reached(db, s, c, f, now, db') && forall b :: b in c ==> Finishes(db, s', b)
    requires JobsAfter(db, s', f, now, rows) && QueuesAfter(db, s', rows) && GroupsAfter(db, s', c, now, rows)
    requires BatchesAfter(db, s', c, now, bumps) && rows.rules == db'.rules && rows.nextBatch == db'.nextBatch
    ensures Reached(db, s', c, f, now, rows.(batches := bumps.batches))
  {
    hide Finishes, Appears, ReleaseGroups, ReleaseQueues, CallbackReq, BumpedRow;
  }

  // ---- Closing batches ----

  lemma NoConflict(db: Db, all: set<JobId>, s: set<JobId>, c: set<BatchId>, f: seq<BatchId>, now: Time, db': Db, b: BatchId)
    requires Ready(db, all) && Reached(db, s, c, f, now, db') && Finishes(db, s, b) && b !in c && Speaks(db, b)
    ensures !Conflicts(db'.jobs, CallbackReq(db, s, b, now))
  {
    hide QueuesAfter, GroupsAfter, BatchesAfter, FailedOf;
    var req := CallbackReq(db, s, b, now);
    forall id | id in db'.jobs ensures db'.jobs[id].uniqueKey != req.uniqueKey {
      if id in db.jobs {
        assert db'.jobs[id].uniqueKey == db.jobs[id].uniqueKey;
      } else {
        var i := id - db.nextJob;
        assert db'.jobs[db.nextJob + i] == NewJob(CallbackReq(db, s, f[i], now), now);
        assert f[i] in f;
      }
    }
  }

  lemma CloseGroupsAfter(db: Db, s: set<JobId>, c: set<BatchId>, b: BatchId, now: Time, db': Db, db1: Db)
    requires GroupsAfter(db, s, c, now, db') && Speaks(db, b) && db'.rules == db.rules
    requires db1.groups == Materialize(db'.groups, db'.rules, KeysOf(db.batches[b].onComplete.value), now)
    ensures GroupsAfter(db, s, c + {b}, now, db1)
  {
    forall g ensures Appears(db, c + {b}, g) <==>
      Appears(db, c, g) || (g !in db.groups && g in db.rules && db.batches[b].onComplete.value.group == Some(g))
    {
      if g !in db.groups && g in db.rules && db.batches[b].onComplete.value.group == Some(g) {
        assert b in c + {b};
      }
      if Appears(db, c, g) {
        var x :| x in c && Speaks(db, x) && db.batches[x].onComplete.value.group == Some(g);
        assert x in c + {b};
      }
    }
    var keys := KeysOf(db.batches[b].onComplete.value);
    forall g | g in db1.groups ensures
      (g in db.groups ==> db1.groups[g] == ReleaseGroups(db.groups, db.jobs, s)[g]) &&
      (g !in db.groups ==> Appears(db, c + {b}, g) && db1.groups[g] == FromRule(db.rules[g], now))
    {
    }
  }

  /** Closing one finished batch enqueues its callback exactly as promised. */
  lemma CloseSpeaking(db: Db, all: set<JobId>, s: set<JobId>, c: set<BatchId>, f: seq<BatchId>, now: Time, db': Db, b: BatchId)
    requires Ready(db, all) && Reached(db, s, c, f, now, db') && Finishes(db, s, b) && b !in c && Speaks(db, b) && !Mute(db, b)
    ensures TryFire(db', b, now).Some? && Reached(db, s, c + {b}, f + [b], now, TryFire(db', b, now).value)
  {
    hide FailedOf, Conflicts, Callback, Materialize, ValidQueueName, ReleaseGroups, ReleaseQueues;
    var req := CallbackReq(db, s, b, now);
    NoConflict(db, all, s, c, f, now, db', b);
    assert db'.batches[b] == BumpedRow(db, s, b);
    CallbackShape(db, s, b, now);
    var closed := db'.(batches := db'.batches[b := Close(BumpedRow(db, s, b), now)]);
    assert TryFire(db', b, now) == InsertDyn(closed, req, now);
    var db1 := TryFire(db', b, now).value;
    assert db1 == AddJob(closed, NewJob(req, now)).(groups := Materialize(db'.groups, db'.rules, KeysOf(req), now));
    CloseJobsAfter(db, s, f, now, db', b, db1);
    CloseGroupsAfter(db, s, c, b, now, db', db1);
    CloseBatchesAfter(db, s, c, now, db', b, db1);
    CloseList(db, c, f, b);
    ClosedParts(db, s, c, f + [b], now, db', b, db1);
  }

  lemma CallbackShape(db: Db, s: set<JobId>, b: BatchId, now: Time)
    requires Speaks(db, b)
    ensures var req, spec := CallbackReq(db, s, b, now), db.batches[b].onComplete.value;
            req.queue == spec.queue && KeysOf(req) == KeysOf(spec)
  {
  }

  lemma CloseList(db: Db, c: set<BatchId>, f: seq<BatchId>, b: BatchId)
    requires (forall x :: x in f <==> x in c && Speaks(db, x)) && (forall i, j :: 0 <= i < j < |f| ==> f[i] != f[j])
    requires b !in c && Speaks(db, b)
    ensures forall x :: x in f + [b] <==> x in c + {b} && Speaks(db, x)
    ensures forall i, j :: 0 <= i < j < |f + [b]| ==> (f + [b])[i] != (f + [b])[j]
  {
    hide Speaks;
    assert forall i :: 0 <= i < |f| ==> f[i] in f;
  }

  lemma CloseJobsAfter(db: Db, s: set<JobId>, f: seq<BatchId>, now: Time, db': Db, b: BatchId, db1: Db)
    requires JobsAfter(db, s, f, now, db') && Speaks(db, b) && forall id :: id in db.jobs ==> id < db.nextJob
    requires db1.jobs == db'.jobs[db'.nextJob := NewJob(CallbackReq(db, s, b, now), now)] && db1.nextJob == db'.nextJob + 1
    ensures JobsAfter(db, s, f + [b], now, db1)
  {
    hide CallbackReq, Speaks;
    forall i | 0 <= i < |f + [b]|
      ensures Speaks(db, (f + [b])[i]) && db1.jobs[db.nextJob + i] == NewJob(CallbackReq(db, s, (f + [b])[i], now), now)
    {
      if i < |f| {
        assert (f + [b])[i] == f[i];
      }
    }
  }

  lemma CloseBatchesAfter(db: Db, s: set<JobId>, c: set<BatchId>, now: Time, db': Db, b: BatchId, db1: Db)
    requires BatchesAfter(db, s, c, now, db') && b in db.batches && b !in c
    requires db1.batches == db'.batches[b := Close(BumpedRow(db, s, b), now)]
    ensures BatchesAfter(db, s, c + {b}, now, db1)
  {
    hide BumpedRow;
  }

  lemma ClosedParts(db: Db, s: set<JobId>, c: set<BatchId>, f: seq<BatchId>, now: Time, db': Db, b: BatchId, db1: Db)
    requires (forall x :: x in c ==> Finishes(db, s, x)) && Finishes(db, s, b)
    requires (forall x :: x in f <==> x in c + {b} && Speaks(db, x)) && (forall i, j :: 0 <= i < j < |f| ==> f[i] != f[j])
    requires JobsAfter(db, s, f, now, db1) && QueuesAfter(db, s, db') && GroupsAfter(db, s, c + {b}, now, db1)
    requires BatchesAfter(db, s, c + {b}, now, db1)
    requires db1.queues == db'.queues && db1.rules == db'.rules == db.rules && db1.nextBatch == db'.nextBatch == db.nextBatch
    ensures Reached(db, s, c + {b}, f, now, db1)
  {
    hide JobsAfter, GroupsAfter, BatchesAfter, Finishes, Speaks;
  }

  lemma CloseSilent(db: Db, s: set<JobId>, c: set<BatchId>, f: seq<BatchId>, now: Time, db': Db, b: BatchId)
    requires Reached(db, s, c, f, now, db') && Finishes(db, s, b) && b !in c && !Speaks(db, b)
    ensures TryFire(db', b, now).Some? && Reached(db, s, c + {b}, f, now, TryFire(db', b, now).value)
  {
    hide JobsAfter, InsertDyn, FailedOf;
    assert db'.batches[b] == BumpedRow(db, s, b);
    var db1 := TryFire(db', b, now).value;
    assert db1 == db'.(batches := db'.batches[b := Close(BumpedRow(db, s, b), now)]);
    JobsAfterFrame(db, s, f, now, db', db1);
    SilentGroups(db, s, c, b, now, db', db1);
    CloseBatchesAfter(db, s, c, now, db', b, db1);
    ClosedParts(db, s, c, f, now, db', b, db1);
  }

  lemma JobsAfterFrame(db: Db, s: set<JobId>, f: seq<BatchId>, now: Time, db': Db, db1: Db)
    requires JobsAfter(db, s, f, now, db') && db1.jobs == db'.jobs && db1.nextJob == db'.nextJob
    ensures JobsAfter(db, s, f, now, db1)
  {
  }

  lemma SilentGroups(db: Db, s: set<JobId>, c: set<BatchId>, b: BatchId, now: Time, db': Db, db1: Db)
    requires GroupsAfter(db, s, c, now, db') && !Speaks(db, b) && db1.groups == db'.groups
    ensures GroupsAfter(db, s, c + {b}, now, db1)
  {
    forall g ensures Appears(db, c + {b}, g) <==> Appears(db, c, g) {
      if Appears(db, c, g) {
        var x :| x in c && Speaks(db, x) && db.batches[x].onComplete.value.group == Some(g);
        assert x in c + {b};
      }
    }
  }

  /** A batch that is not finished, or is closed already, is left alone. */
  lemma LeftAlone(db: Db, s: set<JobId>, c: set<BatchId>, f: seq<BatchId>, now: Time, db': Db, b: BatchId)
    requires Reached(db, s, c, f, now, db') && (b in c || (!Finishes(db, s, b) && FailedOf(db.jobs, s, b) != {}))
    ensures TryFire(db', b, now) == Some(db')
  {
    hide JobsAfter, QueuesAfter, GroupsAfter;
    if b in db.batches {
      assert b in c ==> db'.batches[b] == Close(BumpedRow(db, s, b), now);
    }
  }

  /** A finished batch whose callback names an invalid queue fails the transaction. */
  lemma MuteFails(db: Db, s: set<JobId>, c: set<BatchId>, f: seq<BatchId>, now: Time, db': Db, b: BatchId)
    requires Reached(db, s, c, f, now, db') && Finishes(db, s, b) && b !in c && Mute(db, b)
    ensures TryFire(db', b, now).None?
  {
    hide JobsAfter, QueuesAfter, GroupsAfter, FailedOf;
    assert db'.batches[b] == BumpedRow(db, s, b);
    CallbackShape(db, s, b, now);
  }

  // ---- One at a time, in any order ----

  /** One more row: the transaction fails exactly when that finishes a batch whose callback names an invalid queue. */
  lemma StallStep(db: Db, all: set<JobId>, s: set<JobId>, c: set<BatchId>, f: seq<BatchId>, now: Time, db': Db, id: JobId)
    returns (c': set<BatchId>, f': seq<BatchId>)
    requires Ready(db, all) && Reached(db, s, c, f, now, db') && s <= all && id in all && id !in s
    requires forall b :: Finishes(db, s, b) ==> b in c && !Mute(db, b)
    ensures StallOne(db', id, now).Some? <==> forall b :: Finishes(db, s + {id}, b) ==> !Mute(db, b)
    ensures StallOne(db', id, now).Some? ==>
              && Reached(db, s + {id}, c', f', now, StallOne(db', id, now).value)
              && forall b :: Finishes(db, s + {id}, b) ==> b in c'
  {
    hide JobsAfter, QueuesAfter, GroupsAfter, BatchesAfter, Ready, TryFire, StallRow, FailedOf, BumpedRow, Mute, Finishes;
    StallReaches(db, all, s, c, f, now, db', id);
    ReadyRunning(db, all, id);
    StallUnfolds(db', id, now);
    var s' := s + {id};
    var db1 := StallRow(db', id, now).(batches := BumpOne(db', id));
    forall b | Finishes(db, s', b) && b !in c ensures OverBudget(db.jobs[id]) && db.jobs[id].batch == Some(b) && b in db.batches {
      OnlyItsBatch(db, s, c, id, b);
    }
    var j := db.jobs[id];
    assert db'.jobs[id] == j && db'.batches.Keys == db.batches.Keys by { ReachedKeeps(db, all, s, c, f, now, db', id); }
    if OverBudget(j) && j.batch.Some? && j.batch.value in db.batches {
      var b := j.batch.value;
      if b in c {
        FinishedIsFull(db, s, all, id, b);
        assert false;
      } else if Finishes(db, s', b) {
        if Mute(db, b) {
          MuteFails(db, s', c, f, now, db1, b);
          return c, f;
        }
        if Speaks(db, b) {
          CloseSpeaking(db, all, s', c, f, now, db1, b);
          return c + {b}, f + [b];
        }
        CloseSilent(db, s', c, f, now, db1, b);
        return c + {b}, f;
      }
      HasFailed(db, s, id, b);
      LeftAlone(db, s', c, f, now, db1, b);
    }
    return c, f;
  }

  lemma HasFailed(db: Db, s: set<JobId>, id: JobId, b: BatchId)
    requires id in db.jobs && OverBudget(db.jobs[id]) && db.jobs[id].batch == Some(b)
    ensures FailedOf(db.jobs, s + {id}, b) != {}
  {
    assert id in FailedOf(db.jobs, s + {id}, b);
  }

  /** A batch that one more row finishes is that row's own. */
  lemma OnlyItsBatch(db: Db, s: set<JobId>, c: set<BatchId>, id: JobId, b: BatchId)
    requires id in db.jobs && id !in s && Finishes(db, s + {id}, b) && b !in c && forall x :: Finishes(db, s, x) ==> x in c
    ensures OverBudget(db.jobs[id]) && db.jobs[id].batch == Some(b) && b in db.batches
  {
    FailedGrows(db, s, id, b);
  }

  lemma ReachedKeeps(db: Db, all: set<JobId>, s: set<JobId>, c: set<BatchId>, f: seq<BatchId>, now: Time, db': Db, id: JobId)
    requires Ready(db, all) && Reached(db, s, c, f, now, db') && id in all && id !in s
    ensures id in db.jobs && id in db'.jobs && db'.jobs[id] == db.jobs[id] && db'.batches.Keys == db.batches.Keys
  {
    hide QueuesAfter, GroupsAfter;
  }

  lemma ReadyRunning(db: Db, all: set<JobId>, id: JobId)
    requires Ready(db, all) && id in all
    ensures id in db.jobs && db.jobs[id].state == Running
  {
  }

  /** A batch that `s` finishes, anything larger finishes too: there is no room for more. */
  lemma FinishesLater(db: Db, s: set<JobId>, t: set<JobId>, all: set<JobId>, b: BatchId)
    requires Ready(db, all) && s <= t <= all && Finishes(db, s, b)
    ensures Finishes(db, t, b)
  {
    SubsetFails(db, s, t, b);
    SubsetFails(db, t, all, b);
    assert FailedOf(db.jobs, s, b) <= FailedOf(db.jobs, t, b) <= FailedOf(db.jobs, all, b);
  }

  /** Stalling one row is: its row, its batch's count, then the claim of the callback. */
  lemma StallUnfolds(db: Db, id: JobId, now: Time)
    requires id in db.jobs && db.jobs[id].state == Running
    ensures var j, db1 := db.jobs[id], StallRow(db, id, now).(batches := BumpOne(db, id));
            StallOne(db, id, now)
            == if OverBudget(j) && j.batch.Some? && j.batch.value in db.batches then TryFire(db1, j.batch.value, now) else Some(db1)
  {
    hide InsertDyn, ReleaseGroups, ReleaseQueues;
  }

  function Ids(order: seq<JobId>): set<JobId> {
    set id | id in order
  }

  predicate Distinct(order: seq<JobId>) {
    forall i, j :: 0 <= i < j < |order| ==> order[i] != order[j]
  }

  lemma StartReached(db: Db, now: Time)
    requires forall id :: id in db.jobs ==> id < db.nextJob
    ensures Reached(db, {}, {}, [], now, db)
    ensures forall b :: !Finishes(db, {}, b)
  {
    NothingReleased(db);
    forall b: BatchId ensures FailedOf(db.jobs, {}, b) == {} {
    }
    forall b | b in db.batches ensures BumpedRow(db, {}, b) == db.batches[b] {
    }
    hide FailedOf, BumpedRow, ReleaseGroups, ReleaseQueues;
    assert forall g :: !Appears(db, {}, g);
  }

  lemma NothingReleased(db: Db)
    ensures ReleaseQueues(db.queues, db.jobs, {}) == db.queues && ReleaseGroups(db.groups, db.jobs, {}) == db.groups
  {
    forall lane ensures Among(db.jobs, {}, lane) == {} {
    }
    hide Among;
  }

  /** Stalling rows singly commits exactly when they finish no batch whose callback names an invalid queue. */
  lemma {:induction false} OneByOneReaches(db: Db, all: set<JobId>, order: seq<JobId>, now: Time)
    returns (c: set<BatchId>, f: seq<BatchId>)
    requires Ready(db, all) && Distinct(order) && Ids(order) <= all
    ensures OneByOne(db, order, now).Some? <==> forall b :: Finishes(db, Ids(order), b) ==> !Mute(db, b)
    ensures OneByOne(db, order, now).Some? ==>
              && Reached(db, Ids(order), c, f, now, OneByOne(db, order, now).value)
              && forall b :: Finishes(db, Ids(order), b) ==> b in c
    decreases |order|
  {
    hide Reached, Ready, Finishes, Mute, StallOne;
    if order == [] {
      assert Ids(order) == {};
      ReadyFresh(db, all);
      StartReached(db, now);
      return {}, [];
    }
    var n := |order| - 1;
    var init, id := order[..n], order[n];
    assert Ids(order) == Ids(init) + {id};
    c, f := OneByOneReaches(db, all, init, now);
    if OneByOne(db, init, now).None? {
      var b :| Finishes(db, Ids(init), b) && Mute(db, b);
      FinishesLater(db, Ids(init), Ids(order), all, b);
    } else {
      c, f := StallStep(db, all, Ids(init), c, f, now, OneByOne(db, init, now).value, id);
    }
  }

  lemma ReadyFresh(db: Db, all: set<JobId>)
    requires Ready(db, all)
    ensures forall id :: id in db.jobs ==> id < db.nextJob
  {
  }

  // ---- All at once ----

  lemma SweptAtOnce(db: Db, all: set<JobId>, now: Time)
    requires Ready(db, all)
    ensures Reached(db, all, {}, [], now, StallRows(db, all, now))
  {
    var db' := StallRows(db, all, now);
    SweptJobs(db, all, now);
    SweptRows(db, all, now);
    hide JobsAfter, GroupsAfter, BatchesAfter, QueuesAfter, Ready;
    assert Reached(db, all, {}, [], now, db');
  }

  lemma SweptJobs(db: Db, all: set<JobId>, now: Time)
    requires Ready(db, all)
    ensures JobsAfter(db, all, [], now, StallRows(db, all, now))
  {
    hide FailedOf, ReleaseGroups, ReleaseQueues, BumpedBatches, Stalled;
  }

  lemma SweptRows(db: Db, all: set<JobId>, now: Time)
    ensures var db' := StallRows(db, all, now);
            QueuesAfter(db, all, db') && GroupsAfter(db, all, {}, now, db') && BatchesAfter(db, all, {}, now, db')
  {
    hide FailedOf, StalledJobs, ReleaseQueues;
    ReleasedKeys(db.groups, db.jobs, all);
    forall g ensures !Appears(db, {}, g) {
    }
  }

  /** Firing the bumped batches one after the other closes the finished ones among them, or fails on the first mute one. */
  lemma {:induction false} FireAllReaches(db: Db, all: set<JobId>, c: set<BatchId>, f: seq<BatchId>, now: Time, db': Db, bs: seq<BatchId>)
    returns (c': set<BatchId>, f': seq<BatchId>)
    requires Ready(db, all) && Reached(db, all, c, f, now, db')
    requires forall b :: b in bs ==> FailedOf(db.jobs, all, b) != {}
    ensures FireAll(db', bs, now).Some? <==> forall b :: b in bs && b !in c && Finishes(db, all, b) ==> !Mute(db, b)
    ensures FireAll(db', bs, now).Some? ==> Reached(db, all, c', f', now, FireAll(db', bs, now).value)
    ensures FireAll(db', bs, now).Some? ==> c <= c' && forall b :: b in bs && Finishes(db, all, b) ==> b in c'
    decreases |bs|
  {
    hide Reached, Ready, Finishes, FailedOf, TryFire, Mute;
    if bs == [] {
      return c, f;
    }
    var b := bs[0];
    assert forall x :: x in bs <==> x == b || x in bs[1..];
    var c1, f1 := c, f;
    if b in c || !Finishes(db, all, b) {
      LeftAlone(db, all, c, f, now, db', b);
    } else if Mute(db, b) {
      MuteFails(db, all, c, f, now, db', b);
      return c, f;
    } else if Speaks(db, b) {
      CloseSpeaking(db, all, all, c, f, now, db', b);
      c1, f1 := c + {b}, f + [b];
    } else {
      CloseSilent(db, all, c, f, now, db', b);
      c1 := c + {b};
    }
    c', f' := FireAllReaches(db, all, c1, f1, now, TryFire(db', b, now).value, bs[1..]);
  }

  // ---- The theorems ----

  /** The same tables, except that new callback jobs may have swapped ids: from `n` on, each side
      holds the same jobs, each once. */
  ghost predicate SameUpToNewIds(a: Db, b: Db, n: JobId) {
    && a.queues == b.queues && a.groups == b.groups && a.batches == b.batches && a.rules == b.rules
    && a.nextJob == b.nextJob && a.nextBatch == b.nextBatch && a.jobs.Keys == b.jobs.Keys
    && (forall id :: id in a.jobs && id < n ==> b.jobs[id] == a.jobs[id])
    && NewJobsWithin(a, b, n) && NewJobsWithin(b, a, n)
  }

  ghost predicate NewJobsWithin(a: Db, b: Db, n: JobId) {
    && (forall x, y :: x in a.jobs && y in a.jobs && n <= x < y ==> a.jobs[x] != a.jobs[y])
    && (forall x :: x in a.jobs && n <= x ==> exists y: JobId :: y in b.jobs && n <= y && b.jobs[y] == a.jobs[x])
  }

  lemma NewJobsMatch(db: Db, s: set<JobId>, f: seq<BatchId>, g: seq<BatchId>, now: Time, a: Db, b: Db)
    requires JobsAfter(db, s, f, now, a) && JobsAfter(db, s, g, now, b) && |f| == |g|
    requires (forall id :: id in db.jobs ==> id < db.nextJob) && (forall x :: x in f <==> x in g)
    requires forall i, j :: 0 <= i < j < |f| ==> f[i] != f[j]
    ensures NewJobsWithin(a, b, db.nextJob)
  {
    hide CallbackReq, Stalled, JobsAfter, Speaks;
    var n := db.nextJob;
    forall x, y | x in a.jobs && y in a.jobs && n <= x < y ensures a.jobs[x] != a.jobs[y] {
      NewJobAt(db, s, f, now, a, x);
      NewJobAt(db, s, f, now, a, y);
      NewJobsDiffer(db, s, f[x - n], f[y - n], now);
    }
    forall x | x in a.jobs && n <= x ensures exists y: JobId :: y in b.jobs && n <= y && b.jobs[y] == a.jobs[x] {
      NewJobAt(db, s, f, now, a, x);
      assert f[x - n] in f;
      var j: nat :| j < |g| && g[j] == f[x - n];
      NewJobIn(db, s, g, now, b, j);
      assert b.jobs[n + j] == a.jobs[x];
    }
  }

  lemma NewJobAt(db: Db, s: set<JobId>, f: seq<BatchId>, now: Time, a: Db, x: JobId)
    requires JobsAfter(db, s, f, now, a) && x in a.jobs && db.nextJob <= x && forall id :: id in db.jobs ==> id < db.nextJob
    ensures x - db.nextJob < |f|
    ensures Speaks(db, f[x - db.nextJob]) && a.jobs[x] == NewJob(CallbackReq(db, s, f[x - db.nextJob], now), now)
  {
    hide CallbackReq, Stalled;
    assert a.jobs[db.nextJob + (x - db.nextJob)] == NewJob(CallbackReq(db, s, f[x - db.nextJob], now), now);
  }

  lemma NewJobIn(db: Db, s: set<JobId>, f: seq<BatchId>, now: Time, a: Db, j: nat)
    requires JobsAfter(db, s, f, now, a) && j < |f|
    ensures db.nextJob + j in a.jobs
    ensures Speaks(db, f[j]) && a.jobs[db.nextJob + j] == NewJob(CallbackReq(db, s, f[j], now), now)
  {
    hide CallbackReq, Stalled;
  }

  lemma NewJobsDiffer(db: Db, s: set<JobId>, b: BatchId, c: BatchId, now: Time)
    requires Speaks(db, b) && Speaks(db, c) && b != c
    ensures NewJob(CallbackReq(db, s, b, now), now) != NewJob(CallbackReq(db, s, c, now), now)
  {
    assert NewJob(CallbackReq(db, s, b, now), now).uniqueKey == Some(CallbackOf(b));
    assert NewJob(CallbackReq(db, s, c, now), now).uniqueKey == Some(CallbackOf(c));
  }

  lemma SameLength(f: seq<nat>, g: seq<nat>)
    requires Distinct(f) && Distinct(g) && forall x :: x in f <==> x in g
    ensures |f| == |g|
  {
    DistinctSize(f);
    DistinctSize(g);
    assert Ids(f) == Ids(g);
  }

  lemma {:induction false} DistinctSize(f: seq<nat>)
    requires Distinct(f)
    ensures |Ids(f)| == |f|
    decreases |f|
  {
    if f == [] {
      assert Ids(f) == {};
    } else {
      var n := |f| - 1;
      DistinctSize(f[..n]);
      assert Ids(f) == Ids(f[..n]) + {f[n]};
      assert f[n] !in Ids(f[..n]);
    }
  }

  lemma ReachedIsSame(db: Db, s: set<JobId>, c: set<BatchId>, f: seq<BatchId>, g: seq<BatchId>, now: Time, a: Db, b: Db)
    requires Reached(db, s, c, f, now, a) && Reached(db, s, c, g, now, b) && forall id :: id in db.jobs ==> id < db.nextJob
    ensures SameUpToNewIds(a, b, db.nextJob)
  {
    hide Finishes, Appears, CallbackReq, BumpedRow, Stalled, ReleaseGroups, ReleaseQueues, NewJobsWithin;
    SameLength(f, g);
    NewJobsMatch(db, s, f, g, now, a, b);
    NewJobsMatch(db, s, g, f, now, b, a);
    SameGroups(db, s, c, now, a, b);
    assert a.batches == b.batches;
    assert a.jobs.Keys == b.jobs.Keys;
  }

  lemma SameGroups(db: Db, s: set<JobId>, c: set<BatchId>, now: Time, a: Db, b: Db)
    requires GroupsAfter(db, s, c, now, a) && GroupsAfter(db, s, c, now, b)
    ensures a.groups == b.groups
  {
    hide Appears;
    assert a.groups.Keys == b.groups.Keys;
  }

  /** The sweep goes through exactly when no batch it finishes has a callback on an invalid queue;
      one such batch rolls back the recovery of every stale job. */
  lemma SweepGoesThroughIff(db: Db, ids: set<JobId>, now: Time)
    requires Ready(db, Swept(db.jobs, ids))
    ensures Recover(db, ids, now).Some? <==> forall b :: Finishes(db, Swept(db.jobs, ids), b) ==> !Mute(db, b)
  {
    var c, f := SweepReaches(db, ids, now);
  }

  lemma SweepReaches(db: Db, ids: set<JobId>, now: Time)
    returns (c: set<BatchId>, f: seq<BatchId>)
    requires Ready(db, Swept(db.jobs, ids))
    ensures Recover(db, ids, now).Some? <==> forall b :: Finishes(db, Swept(db.jobs, ids), b) ==> !Mute(db, b)
    ensures Recover(db, ids, now).Some? ==>
              && Reached(db, Swept(db.jobs, ids), c, f, now, Recover(db, ids, now).value)
              && forall b :: Finishes(db, Swept(db.jobs, ids), b) ==> b in c
  {
    hide Reached, Ready, Mute, StallRows, FireAll;
    var all := Swept(db.jobs, ids);
    SweptAtOnce(db, all, now);
    c, f := FireAllReaches(db, all, {}, [], now, StallRows(db, all, now), Ascending(Bumped(db, all)));
    assert forall b :: Finishes(db, all, b) ==> b in Ascending(Bumped(db, all));
  }

  /** Set-wise sweep refines one-at-a-time recovery. Whatever the order the rows are stalled in, the
      grouped statement with its callback claims rolls back exactly when stalling them singly does, and
      otherwise leaves the same jobs, the same group, queue and batch rows and the same callbacks, up to
      the ids the callbacks were given. */
  lemma SweepRefinesOneByOne(db: Db, ids: set<JobId>, order: seq<JobId>, now: Time)
    requires Ready(db, Swept(db.jobs, ids)) && Distinct(order) && Ids(order) == Swept(db.jobs, ids)
    ensures Recover(db, ids, now).None? <==> OneByOne(db, order, now).None?
    ensures Recover(db, ids, now).Some? ==>
              SameUpToNewIds(Recover(db, ids, now).value, OneByOne(db, order, now).value, db.nextJob)
  {
    hide Reached, Ready, Finishes, Mute, Swept, SameUpToNewIds;
    var all := Swept(db.jobs, ids);
    var c, f := SweepReaches(db, ids, now);
    var d, g := OneByOneReaches(db, all, order, now);
    if Recover(db, ids, now).Some? {
      ClosedExactly(db, all, c, f, now, Recover(db, ids, now).value);
      ClosedExactly(db, all, d, g, now, OneByOne(db, order, now).value);
      assert c == d;
      ReadyFresh(db, all);
      ReachedIsSame(db, all, c, f, g, now, Recover(db, ids, now).value, OneByOne(db, order, now).value);
    }
  }

  lemma ClosedExactly(db: Db, s: set<JobId>, c: set<BatchId>, f: seq<BatchId>, now: Time, db': Db)
    requires Reached(db, s, c, f, now, db') && forall b :: Finishes(db, s, b) ==> b in c
    ensures forall b :: b in c <==> Finishes(db, s, b)
  {
    hide Finishes, JobsAfter, QueuesAfter, GroupsAfter, BatchesAfter;
  }

  // ---- Every reachable state is ready ----

  /** The fan-in invariant is all the sweep needs. */
  lemma InvIsReady(db: Db, m: Jobs, bs: Batches, ids: set<JobId>)
    requires FanIn.Inv(db, m, bs)
    ensures Ready(db, Swept(db.jobs, ids))
  {
    var all := Swept(db.jobs, ids);
    forall b | b in db.batches && !db.batches[b].claimed
      ensures BumpedRow(db, all, b).Sum() <= db.batches[b].total
      ensures Callbacks(m, b) == {}
    {
      assert Ok(m, b, bs[b], false);
      RoomLeft(db, m, bs, all, b);
    }
    forall id, b | id in db.jobs && b in db.batches && db.jobs[id].uniqueKey == Some(CallbackOf(b)) ensures db.batches[b].claimed {
      assert id in Callbacks(m, b);
    }
  }

  lemma RoomLeft(db: Db, m: Jobs, bs: Batches, all: set<JobId>, b: BatchId)
    requires FanIn.Linked(db, m, bs) && b in db.batches && Tallied(m, b, db.batches[b])
    requires forall id :: id in all ==> id in db.jobs && db.jobs[id].state == Running
    ensures BumpedRow(db, all, b).Sum() <= db.batches[b].total
  {
    hide FanIn.BatchesLinked, OverBudget;
    var x := FailedOf(db.jobs, all, b);
    var ended := Ended(m, b, Completed) + Ended(m, b, Failed) + Ended(m, b, Cancelled);
    assert Ended(m, b, Completed) !! Ended(m, b, Failed);
    assert Ended(m, b, Completed) + Ended(m, b, Failed) !! Ended(m, b, Cancelled);
    assert |ended| == db.batches[b].Sum();
    FailingAreLive(db, m, all, b);
    hide FanIn.Linked, FailedOf, Ended;
    Smaller(ended + x, Members(m, b));
  }

  lemma FailingAreLive(db: Db, m: Jobs, all: set<JobId>, b: BatchId)
    requires FanIn.JobsLinked(db, m) && FanIn.LinksHold(db, m) && b in db.batches
    requires forall id :: id in all ==> id in db.jobs && db.jobs[id].state == Running
    ensures var ended := Ended(m, b, Completed) + Ended(m, b, Failed) + Ended(m, b, Cancelled);
            forall id :: id in FailedOf(db.jobs, all, b) ==> id in Members(m, b) && id !in ended
    ensures forall s :: Ended(m, b, s) <= Members(m, b)
  {
    hide OverBudget;
    forall id | id in FailedOf(db.jobs, all, b) ensures id in Members(m, b) && m[id].state == Running {
      assert id in all && m[id].state == db.jobs[id].state;
    }
  }

  lemma Smaller(a: set<JobId>, b: set<JobId>)
    requires a <= b
    ensures |a| <= |b|
  {
    assert b == a + (b - a);
  }
}
