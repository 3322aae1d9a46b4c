/** The tables as mutable state, and the transactions as the statement sequences
    the program issues. Each is proved to have the effect its specification in
    Lifecycle states; an error inside a transaction restores the tables. */
module Store {
  import opened Tables
  import opened Lifecycle
  import Columns
  import Counters
  import Endings
  import Inserts

  datatype Enqueued = Inserted(id: JobId) | Skipped | Rejected

  lemma MaterializeTwice(groups: map<string, Group>, rules: map<string, Rule>, a: set<string>, b: set<string>, now: Time)
    ensures Materialize(Materialize(groups, rules, a, now), rules, b, now) == Materialize(groups, rules, a + b, now)
  {
  }

  lemma MaterializeNone(groups: map<string, Group>, rules: map<string, Rule>, now: Time)
    ensures Materialize(groups, rules, {}, now) == groups
  {
  }

  lemma ReleasesOne(db: Db, id: JobId)
    requires id in db.jobs
    ensures var j := db.jobs[id];
            && ReleaseQueues(db.queues, db.jobs, {id})
               == (if j.queue in db.queues
                   then db.queues[j.queue := db.queues[j.queue].(running := Max(db.queues[j.queue].running - 1, 0))]
                   else db.queues)
            && ReleaseGroups(db.groups, db.jobs, {id})
               == (if j.group.Some? && j.group.value in db.groups
                   then db.groups[j.group.value := db.groups[j.group.value].(running := Max(db.groups[j.group.value].running - 1, 0))]
                   else db.groups)
  {
    OneQueue(db, id);
    OneGroup(db, id);
  }

  lemma OneQueue(db: Db, id: JobId)
    requires id in db.jobs
    ensures var q := db.jobs[id].queue;
            ReleaseQueues(db.queues, db.jobs, {id})
            == if q in db.queues then db.queues[q := db.queues[q].(running := Max(db.queues[q].running - 1, 0))] else db.queues
  {
    forall q ensures Among(db.jobs, {id}, QueueLane(q)) == if q == db.jobs[id].queue then {id} else {} {
    }
  }

  lemma OneGroup(db: Db, id: JobId)
    requires id in db.jobs
    ensures var g := db.jobs[id].group;
            ReleaseGroups(db.groups, db.jobs, {id})
            == if g.Some? && g.value in db.groups
               then db.groups[g.value := db.groups[g.value].(running := Max(db.groups[g.value].running - 1, 0))] else db.groups
  {
    forall g ensures Among(db.jobs, {id}, GroupLane(g)) == if db.jobs[id].group == Some(g) then {id} else {} {
    }
  }

  lemma {:induction false} InsertRowsKeepsGroups(db: Db, reqs: seq<Request>, now: Time)
    ensures InsertRows(db, reqs, now).groups == db.groups && InsertRows(db, reqs, now).rules == db.rules
    decreases |reqs|
  {
    if reqs != [] {
      InsertRowsKeepsGroups(if Conflicts(db.jobs, reqs[0]) then db else AddJob(db, NewJob(reqs[0], now)), reqs[1..], now);
    }
  }

  /** The rows an UPDATE changed. */
  function Changed<T(==)>(a: map<string, T>, b: map<string, T>): set<string> {
    set k | k in a && k in b && a[k] != b[k]
  }

  lemma ChangedNone<T>(a: map<string, T>, b: map<string, T>)
    requires a.Keys == b.Keys
    ensures |Changed(a, b)| == 0 <==> a == b
  {
    if |Changed(a, b)| == 0 {
      forall k | k in a ensures a[k] == b[k] {
        assert k !in Changed(a, b);
      }
    }
  }

  lemma BeatApplies(db: Db, ids: set<JobId>, now: Time)
    ensures Apply(db, Step.Heartbeat(ids, now)) == Beat(db, ids, now)
  {
  }

  /** The running rows among `ids` whose heartbeat is `now`. */
  function BeatenAt(jobs: map<JobId, Job>, ids: set<JobId>, now: Time): set<JobId> {
    set id | id in ids && id in jobs && jobs[id].state == Running && jobs[id].heartbeat == Some(now)
  }

  /** Stamping the running rows among `ids`, row by row; with no ids there is nothing to stamp. */
  lemma BeatStamps(db: Db, ids: set<JobId>, now: Time)
    ensures var jobs' := db.jobs + map id | id in Swept(db.jobs, ids) :: db.jobs[id].(heartbeat := Some(now));
            && Beat(db, ids, now) == db.(jobs := jobs') && jobs'.Keys == db.jobs.Keys
            && (forall id :: id in jobs' ==>
                  jobs'[id] == if id in ids && db.jobs[id].state == Running then db.jobs[id].(heartbeat := Some(now)) else db.jobs[id])
            && Swept(db.jobs, ids) == BeatenAt(jobs', ids, now)
            && (ids == {} ==> jobs' == db.jobs && Swept(db.jobs, ids) == {})
  {
    var jobs' := db.jobs + map id | id in Swept(db.jobs, ids) :: db.jobs[id].(heartbeat := Some(now));
    assert Beat(db, ids, now).jobs == jobs';
  }

  lemma BatchedApplies(db: Db, items: seq<Request>, onComplete: Option<Request>, now: Time)
    ensures Enabled(db, Batched(items, onComplete, now))
    ensures var r := Lifecycle.EnqueueBatch(db, items, onComplete, now);
            Apply(db, Batched(items, onComplete, now)) == if r.Some? then r.value else db
  {
    hide Lifecycle.EnqueueBatch;
  }

  lemma RepairApplies(db: Db)
    ensures Apply(db, Repair) == Reconcile(db) && Enabled(db, Repair)
  {
  }

  /** Each row is repaired from its own count alone. */
  lemma RepairLowers(groups: map<string, Group>, queues: map<string, Queue>, jobs: map<JobId, Job>)
    ensures var groups' := ReconciledGroups(groups, jobs);
            && groups'.Keys == groups.Keys
            && forall g :: g in groups ==>
                 && groups'[g] == groups[g].(running := groups'[g].running)
                 && Columns.Lowered(groups[g].running, |RunningOn(jobs, GroupLane(g))|, groups'[g].running)
    ensures var queues' := ReconciledQueues(queues, jobs);
            && queues'.Keys == queues.Keys
            && forall q :: q in queues ==>
                 && queues'[q] == queues[q].(running := queues'[q].running)
                 && Columns.Lowered(queues[q].running, |RunningOn(jobs, QueueLane(q))|, queues'[q].running)
  {
    hide RunningOn;
  }

  lemma QueueEditApplies(db: Db, name: string, e: QueueEdit)
    ensures Apply(db, QueueAdmin(name, e)) == EditQueue(db, name, e)
  {
  }

  lemma GroupEditApplies(db: Db, key: string, e: GroupEdit, now: Time)
    ensures Apply(db, GroupAdmin(key, e, now)) == EditGroup(db, key, e, now)
  {
  }

  class Store {
    var jobs: map<JobId, Job>
    var groups: map<string, Group>
    var queues: map<string, Queue>
    var batches: map<BatchId, Batch>
    var rules: map<string, Rule>
    var nextJob: JobId
    var nextBatch: BatchId

    constructor ()
      ensures View() == EMPTY_DB
    {
      jobs, groups, queues, batches, rules, nextJob, nextBatch := map[], map[], map[], map[], map[], 0, 0;
    }

    /** The committed state. */
    function View(): Db
      reads this
    {
      Db(jobs, groups, queues, batches, rules, nextJob, nextBatch)
    }

    /** ROLLBACK to the state the transaction began with. */
    method Restore(db: Db)
      modifies this
      ensures View() == db
    {
      jobs, groups, queues, batches := db.jobs, db.groups, db.queues, db.batches;
      rules, nextJob, nextBatch := db.rules, db.nextJob, db.nextBatch;
    }

    // ---- Inserting jobs ----

    /** `materialize_from_rule`. */
    method MaterializeFromRule(key: string, now: Time)
      modifies this`groups
      ensures groups == Materialize(old(groups), rules, {key}, now)
      ensures Columns.Materialized(old(groups), groups, rules, {key}, now)
    {
      if key in rules && key !in groups {
        groups := groups[key := FromRule(rules[key], now)];
      }
    }

    /** `insert_dyn`: rejected before any write, skipped on a unique conflict, or inserted. */
    method Insert(req: Request, now: Time) returns (r: Enqueued)
      modifies this
      ensures r.Rejected? <==> InsertDyn(old(View()), req, now).None?
      ensures r.Rejected? ==> View() == old(View())
      ensures !r.Rejected? ==> InsertDyn(old(View()), req, now) == Some(View())
      ensures r.Skipped? ==> View() == old(View())
      ensures View() == Apply(old(View()), Enqueue(req, now)) && Enabled(old(View()), Enqueue(req, now))
      ensures r.Rejected? <==> !Columns.NameAccepted(req.queue)
      ensures r.Skipped? <==> Columns.NameAccepted(req.queue) && Columns.LiveTwin(old(jobs), req.kind, req.uniqueKey)
      ensures r.Inserted? ==>
                && r.id == old(nextJob) && nextJob == r.id + 1 && r.id in jobs && jobs == old(jobs)[r.id := jobs[r.id]]
                && Columns.Queued(jobs[r.id], req, now)
                && Columns.Materialized(old(groups), groups, rules, if req.group.Some? then {req.group.value} else {}, now)
      ensures queues == old(queues) && batches == old(batches) && rules == old(rules) && nextBatch == old(nextBatch)
    {
      Inserts.NameRule(req.queue);
      Inserts.TwinRule(jobs, req);
      if !ValidQueueName(req.queue) {
        return Rejected;
      }
      if Conflicts(jobs, req) {
        return Skipped;
      }
      var id := nextJob;
      jobs, nextJob := jobs[id := NewJob(req, now)], id + 1;
      if req.group.Some? {
        MaterializeFromRule(req.group.value, now);
      } else {
        MaterializeNone(groups, rules, now);
      }
      return Inserted(id);
    }

    /** The bulk INSERT of `insert_many_dyn`: rows in order, each skipped if a live twin is there by then. */
    method InsertAll(reqs: seq<Request>, now: Time) returns (inserted: nat)
      modifies this`jobs, this`nextJob
      ensures View() == InsertRows(old(View()), reqs, now)
      ensures nextJob == old(nextJob) + inserted
      ensures old(Columns.Sequenced(View())) ==>
                && inserted == Columns.NewRows(old(jobs), reqs, |reqs|)
                && Columns.Inserted(old(jobs), old(nextJob), jobs, reqs, |reqs|, now)
    {
      hide Conflicts, NewJob, Columns.Queued, Columns.Inserted, Columns.TwinBefore;
      inserted := 0;
      var i := 0;
      assert reqs[0..] == reqs;
      Inserts.NoRowsYet(jobs, nextJob, reqs, now);
      while i < |reqs|
        invariant i <= |reqs| && nextJob == old(nextJob) + inserted
        invariant InsertRows(View(), reqs[i..], now) == InsertRows(old(View()), reqs, now)
        invariant old(Columns.Sequenced(View())) ==>
                    && inserted == Columns.NewRows(old(jobs), reqs, i)
                    && Columns.Inserted(old(jobs), old(nextJob), jobs, reqs, i, now)
      {
        assert reqs[i..][1..] == reqs[i + 1..];
        if old(Columns.Sequenced(View())) {
          Inserts.OneMoreRow(old(jobs), old(nextJob), jobs, reqs, i, now);
        }
        if !Conflicts(jobs, reqs[i]) {
          jobs, nextJob, inserted := jobs[nextJob := NewJob(reqs[i], now)], nextJob + 1, inserted + 1;
        }
        i := i + 1;
      }
    }

    /** The loop over the distinct group keys, in any order. */
    method MaterializeAll(keys: set<string>, now: Time)
      modifies this`groups
      ensures groups == Materialize(old(groups), rules, keys, now)
      ensures Columns.Materialized(old(groups), groups, rules, keys, now)
    {
      Inserts.RulesApply(groups, rules, keys, now);
      var todo := keys;
      MaterializeNone(groups, rules, now);
      while todo != {}
        invariant todo <= keys && groups == Materialize(old(groups), rules, keys - todo, now)
        decreases todo
      {
        var key :| key in todo;
        MaterializeTwice(old(groups), rules, keys - todo, {key}, now);
        assert keys - todo + {key} == keys - (todo - {key});
        MaterializeFromRule(key, now);
        todo := todo - {key};
      }
      assert keys - todo == keys;
    }

    /** `enqueue_many_dyn_in_tx`: one bad name rejects the lot before the first row. */
    method InsertBulk(reqs: seq<Request>, now: Time) returns (inserted: Option<nat>)
      modifies this
      ensures inserted.None? <==> InsertMany(old(View()), reqs, now).None?
      ensures inserted.None? ==> View() == old(View())
      ensures inserted.Some? ==> InsertMany(old(View()), reqs, now) == Some(View()) && nextJob == old(nextJob) + inserted.value
      ensures inserted.None? <==> exists i :: 0 <= i < |reqs| && !Columns.NameAccepted(reqs[i].queue)
      ensures inserted.Some? ==> Columns.Materialized(old(groups), groups, rules, set r | r in reqs && r.group.Some? :: r.group.value, now)
      ensures inserted.Some? && old(Columns.Sequenced(View())) ==>
                && inserted.value == Columns.NewRows(old(jobs), reqs, |reqs|)
                && Columns.Inserted(old(jobs), old(nextJob), jobs, reqs, |reqs|, now)
      ensures queues == old(queues) && batches == old(batches) && rules == old(rules) && nextBatch == old(nextBatch)
    {
      hide Columns.Inserted, Columns.NewRows, Columns.Materialized, Columns.NameAccepted;
      forall i: nat | i < |reqs| ensures ValidQueueName(reqs[i].queue) <==> Columns.NameAccepted(reqs[i].queue) {
        Inserts.NameRule(reqs[i].queue);
      }
      var keys: set<string> := {};
      for i := 0 to |reqs|
        invariant forall k :: 0 <= k < i ==> ValidQueueName(reqs[k].queue)
        invariant keys == set r | r in reqs[..i] && r.group.Some? :: r.group.value
      {
        if !ValidQueueName(reqs[i].queue) {
          assert reqs[i] in reqs;
          return None;
        }
        assert reqs[..i + 1] == reqs[..i] + [reqs[i]];
        keys := keys + KeysOf(reqs[i]);
      }
      assert reqs[..|reqs|] == reqs;
      var n := InsertAll(reqs, now);
      assert groups == old(groups) by { InsertRowsKeepsGroups(old(View()), reqs, now); }
      MaterializeAll(keys, now);
      return Some(n);
    }

    // ---- Batches ----

    /** `try_claim_and_fire`, inside the caller's transaction. */
    method TryClaimAndFire(b: BatchId, now: Time) returns (ok: bool)
      modifies this
      ensures ok == TryFire(old(View()), b, now).Some?
      ensures ok ==> View() == TryFire(old(View()), b, now).value
      ensures b !in old(batches) ==> ok && View() == old(View())
      ensures b in old(batches) ==> (ok <==> !Columns.FiresInVain(old(batches)[b]))
      ensures b in old(batches) && ok ==> Columns.Fired(old(View()), View(), b, now)
    {
      hide Columns.Queued, Columns.NameAccepted, Columns.LiveTwin, Columns.CallsBack, Conflicts, NewJob, Apply, Enabled, Callback;
      if b !in batches || batches[b].claimed || batches[b].Sum() != batches[b].total {
        return true;
      }
      var row := batches[b];
      batches := batches[b := row.(claimed := true, complete := true, finalizedAt := Some(now))];
      if row.onComplete.None? {
        return true;
      }
      ghost var closed := View();
      var req := Callback(row.onComplete.value, b, row, now - row.createdAt);
      Inserts.CallbackQueue(row.onComplete.value, b, row, now - row.createdAt);
      var r := Insert(req, now);
      if !r.Rejected? {
        Inserts.CallbackGoesIn(closed, View(), row, b, now - row.createdAt, r.Inserted?, now);
      }
      return !r.Rejected?;
    }

    /** `settle_terminal`, inside the caller's transaction. */
    method SettleTerminal(b: BatchId, o: Outcome, now: Time) returns (ok: bool)
      modifies this
      ensures ok == Settle(old(View()), b, o, now).Some?
      ensures ok ==> View() == Settle(old(View()), b, o, now).value
      ensures b !in old(batches) ==> ok && View() == old(View())
      ensures b in old(batches) ==>
                (ok <==> !Columns.FiresInVain(match o
                                              case DidComplete => old(batches)[b].(completed := old(batches)[b].completed + 1)
                                              case DidFail => old(batches)[b].(failed := old(batches)[b].failed + 1)
                                              case DidCancel => old(batches)[b].(cancelled := old(batches)[b].cancelled + 1)))
      ensures ok && old(Columns.Sequenced(View())) ==>
                && Columns.OnlyAdds(old(View()), View())
                && Columns.BatchTold(old(View()), View(), Some(b), if o.DidComplete? then 1 else 0, if o.DidFail? then 1 else 0,
                                     if o.DidCancel? then 1 else 0, now)
    {
      hide Columns.Fired, Columns.FiresInVain, Columns.BatchTold, Columns.OnlyAdds, Columns.Sequenced, TryFire;
      ghost var begun := View();
      if b !in batches && Columns.Sequenced(View()) {
        Endings.NothingTold(View(), Some(b), now);
      }
      if b !in batches {
        return true;
      }
      var row := batches[b];
      match o {
        case DidComplete => row := row.(completed := row.completed + 1);
        case DidFail => row := row.(failed := row.failed + 1);
        case DidCancel => row := row.(cancelled := row.cancelled + 1);
      }
      batches := batches[b := row];
      ghost var told := View();
      if row.claimed || row.Sum() != row.total {
        Endings.NotVain(row);
        if Columns.Sequenced(begun) {
          Endings.BumpTells(begun, told, b, if o.DidComplete? then 1 else 0, if o.DidFail? then 1 else 0, if o.DidCancel? then 1 else 0, now);
        }
        return true;
      }
      ok := TryClaimAndFire(b, now);
      if ok && Columns.Sequenced(begun) {
        Endings.BumpThenFires(begun, told, View(), b, if o.DidComplete? then 1 else 0, if o.DidFail? then 1 else 0, if o.DidCancel? then 1 else 0, now);
      }
    }

    /** The tail of `enqueue_batch_in_tx`: record the size; when nothing went in, complete and fire at once. */
    method RecordSize(b: BatchId, inserted: nat, now: Time) returns (ok: bool)
      requires b in batches
      modifies this
      ensures ok == SizeBatch(old(View()), b, inserted, now).Some?
      ensures ok ==> View() == SizeBatch(old(View()), b, inserted, now).value
      ensures ok ==> b in batches && batches[b].total == inserted
      ensures ok <==> inserted != 0 || old(batches)[b].onComplete.None? || Columns.NameAccepted(old(batches)[b].onComplete.value.queue)
      ensures ok && inserted != 0 ==> View() == old(View()).(batches := old(batches)[b := old(batches)[b].(total := inserted)])
      ensures ok && inserted == 0 ==>
                && batches == old(batches)[b := old(batches)[b].(total := 0, claimed := true, complete := true, finalizedAt := Some(now))]
                && Columns.CalledBack(old(View()), View(), b, old(batches)[b].(total := 0), 0, now)
    {
      hide Columns.Queued, Columns.NameAccepted, Columns.LiveTwin, Columns.CalledBack, Conflicts, NewJob, Apply, Enabled;
      ghost var filled := View();
      var row := batches[b].(total := inserted);
      batches := batches[b := row];
      if inserted == 0 {
        batches := batches[b := Close(row, now)];
        assert View() == WithBatch(filled, b, Close(row, now));
        if row.onComplete.Some? {
          ghost var closed := View();
          var e := Insert(Callback(row.onComplete.value, b, row, 0), now);
          if !e.Rejected? {
            Inserts.CallbackGoesIn(closed, View(), row, b, 0, e.Inserted?, now);
            Inserts.CalledBackAlike(filled, closed, View(), b, row, 0, now);
          }
          return !e.Rejected?;
        }
        Inserts.NobodyCalledBack(filled, View(), b, row, 0, now);
      }
      return true;
    }

    /** `enqueue_batch`: the batch row, its jobs and, when nothing went in, its callback, or none of them. */
    method EnqueueBatch(items: seq<Request>, onComplete: Option<Request>, now: Time) returns (r: Option<(BatchId, nat)>)
      modifies this
      ensures r.None? <==> Lifecycle.EnqueueBatch(old(View()), items, onComplete, now).None?
      ensures r.None? ==> View() == old(View())
      ensures r.Some? ==> Lifecycle.EnqueueBatch(old(View()), items, onComplete, now) == Some(View())
      ensures View() == Apply(old(View()), Batched(items, onComplete, now)) && Enabled(old(View()), Batched(items, onComplete, now))
      ensures old(Columns.Sequenced(View())) ==>
                (r.None? <==> (exists i :: 0 <= i < |items| && !Columns.NameAccepted(items[i].queue))
                              || (&& Columns.NewRows(old(jobs), Columns.Marked(items, old(nextBatch)), |items|) == 0
                                  && onComplete.Some? && !Columns.NameAccepted(onComplete.value.queue)))
      ensures r.Some? && old(Columns.Sequenced(View())) ==>
                Columns.BatchOpened(old(View()), View(), items, onComplete, r.value.0, r.value.1, now)
    {
      hide InsertRows, Conflicts, SizeBatch, Materialize, Columns.Inserted, Columns.NewRows, Columns.Materialized, Columns.NameAccepted;
      hide Columns.LiveTwin, Columns.CallsBack, Columns.CalledBack, Columns.BatchOpened, Apply, Enabled;
      BatchedApplies(View(), items, onComplete, now);
      var begun := View();
      var b := nextBatch;
      assert Stamp(items, b) == Columns.Marked(items, b);
      assert forall i :: 0 <= i < |items| ==> Stamp(items, b)[i].queue == items[i].queue;
      batches, nextBatch := batches[b := Batch(false, 0, 0, 0, 0, onComplete, false, now, None)], b + 1;
      assert View() == OpenBatch(begun, onComplete, now);
      InsertRowsKeepsBatches(View(), Stamp(items, b), now);
      var inserted := InsertBulk(Stamp(items, b), now);
      if inserted.None? {
        Restore(begun);
        return None;
      }
      ghost var filled := View();
      var ok := RecordSize(b, inserted.value, now);
      if !ok {
        Restore(begun);
        return None;
      }
      if Columns.Sequenced(begun) {
        Inserts.BatchIsOpened(begun, filled, View(), items, onComplete, inserted.value, now);
      }
      return Some((b, inserted.value));
    }

    // ---- Verdicts ----

    /** The two decrements every finished or retried job pays back. */
    method GiveBack(id: JobId)
      requires id in jobs
      modifies this`groups, this`queues
      ensures groups == ReleaseGroups(old(groups), jobs, {id})
      ensures queues == ReleaseQueues(old(queues), jobs, {id})
      ensures Columns.SlotsBack(old(View()), View(), {id})
    {
      hide Columns.SlotsBack, ReleaseGroups, ReleaseQueues;
      ghost var begun := View();
      Endings.ReleaseGivesBack(begun, {id}, jobs);
      ReleasesOne(View(), id);
      var g, q := jobs[id].group, jobs[id].queue;
      if g.Some? && g.value in groups {
        groups := groups[g.value := groups[g.value].(running := Max(groups[g.value].running - 1, 0))];
      }
      if q in queues {
        queues := queues[q := queues[q].(running := Max(queues[q].running - 1, 0))];
      }
      Endings.SlotsStayBack(begun, Release(begun, {id}, jobs), View(), {id});
    }

    /** `mark_completed`. */
    method MarkCompleted(id: JobId, w: WorkerId, now: Time) returns (ok: bool)
      modifies this
      ensures ok == Lifecycle.MarkCompleted(old(View()), id, w, now).Some?
      ensures View() == Apply(old(View()), Complete(id, w, now)) && Enabled(old(View()), Complete(id, w, now))
      ensures !(id in old(jobs) && old(jobs)[id].state == Running && old(jobs)[id].worker == Some(w)) ==> ok
      ensures !ok || !(id in old(jobs) && old(jobs)[id].state == Running && old(jobs)[id].worker == Some(w)) ==> View() == old(View())
      ensures ok && id in old(jobs) && old(jobs)[id].state == Running && old(jobs)[id].worker == Some(w) && old(Columns.Sequenced(View())) ==>
                Columns.Ended(old(View()), View(), id, Completed, now) && Columns.SlotsBack(old(View()), View(), {id})
    {
      hide ReleaseGroups, ReleaseQueues, Columns.SlotsBack, Columns.BatchTold, Columns.OnlyAdds, Columns.Ended, Settle, Columns.FiresInVain;
      var begun := View();
      if !Fenced(begun, id, w) {
        return true;
      }
      var j := jobs[id];
      GiveBack(id);
      ghost var released := View();
      jobs := jobs[id := Finalized(j, Completed, now)];
      ghost var ended := View();
      Endings.SlotsStayBack(begun, released, ended, {id});
      ok := true;
      if j.batch.Some? {
        ok := SettleTerminal(j.batch.value, DidComplete, now);
        if !ok { Restore(begun); }
      } else if Columns.Sequenced(ended) {
        Endings.NothingTold(ended, j.batch, now);
      }
      if ok && Columns.Sequenced(begun) {
        Endings.EndsThenSettles(begun, ended, View(), id, Completed, now);
      }
    }

    /** `mark_failed`. */
    method MarkFailed(id: JobId, w: WorkerId, retryAt: Option<Time>, now: Time) returns (ok: bool)
      modifies this
      ensures ok == Lifecycle.MarkFailed(old(View()), id, w, retryAt, now).Some?
      ensures View() == Apply(old(View()), Fail(id, w, retryAt, now)) && Enabled(old(View()), Fail(id, w, retryAt, now))
      ensures !(id in old(jobs) && old(jobs)[id].state == Running && old(jobs)[id].worker == Some(w)) ==> ok
      ensures !ok || !(id in old(jobs) && old(jobs)[id].state == Running && old(jobs)[id].worker == Some(w)) ==> View() == old(View())
      ensures id in old(jobs) && old(jobs)[id].state == Running && old(jobs)[id].worker == Some(w) && retryAt.Some? ==>
                && ok && id in jobs && Columns.GoesBack(old(jobs)[id], jobs[id], retryAt.value)
                && View() == old(View()).(jobs := old(jobs)[id := jobs[id]], groups := groups, queues := queues)
                && Columns.SlotsBack(old(View()), View(), {id})
      ensures ok && id in old(jobs) && old(jobs)[id].state == Running && old(jobs)[id].worker == Some(w) && retryAt.None?
              && old(Columns.Sequenced(View())) ==>
                Columns.Ended(old(View()), View(), id, Failed, now) && Columns.SlotsBack(old(View()), View(), {id})
    {
      hide ReleaseGroups, ReleaseQueues, Columns.SlotsBack, Columns.BatchTold, Columns.OnlyAdds, Columns.Ended, Settle, Columns.FiresInVain;
      var begun := View();
      if !Fenced(begun, id, w) {
        return true;
      }
      var j := jobs[id];
      GiveBack(id);
      ghost var released := View();
      ok := true;
      if retryAt.Some? {
        jobs := jobs[id := Retried(j, retryAt.value)];
        Endings.SlotsStayBack(begun, released, View(), {id});
      } else {
        jobs := jobs[id := Finalized(j, Failed, now)];
        ghost var ended := View();
        Endings.SlotsStayBack(begun, released, ended, {id});
        if j.batch.Some? {
          ok := SettleTerminal(j.batch.value, DidFail, now);
          if !ok { Restore(begun); }
        } else if Columns.Sequenced(ended) {
          Endings.NothingTold(ended, j.batch, now);
        }
        if ok && Columns.Sequenced(begun) {
          Endings.EndsThenSettles(begun, ended, View(), id, Failed, now);
        }
      }
    }

    /** `cancel`: true exactly when a pending job was cancelled. */
    method CancelPending(id: JobId, now: Time) returns (r: Option<bool>)
      modifies this
      ensures r.None? <==> CancelJob(old(View()), id, now).None?
      ensures View() == Apply(old(View()), Cancel(id, now))
      ensures r == Some(true) ==> id in old(jobs) && old(jobs)[id].state == Pending
      ensures r == Some(false) ==> !(id in old(jobs) && old(jobs)[id].state == Pending)
      ensures Enabled(old(View()), Cancel(id, now))
      ensures r != Some(true) ==> View() == old(View())
      ensures r == Some(true) && old(Columns.Sequenced(View())) ==>
                && Columns.OthersStay(old(View()), View(), {id})
                && jobs[id] == old(jobs)[id].(state := Cancelled, finalizedAt := Some(now))
                && queues == old(queues) && (forall g :: g in old(groups) ==> g in groups && groups[g] == old(groups)[g])
                && Columns.BatchTold(old(View()), View(), old(jobs)[id].batch, 0, 0, 1, now)
    {
      hide Columns.BatchTold, Settle, Columns.FiresInVain;
      var begun := View();
      if id !in jobs || jobs[id].state != Pending {
        return Some(false);
      }
      var j := jobs[id];
      jobs := jobs[id := j.(state := Cancelled, finalizedAt := Some(now))];
      ghost var ended := View();
      if j.batch.None? && Columns.Sequenced(ended) {
        Endings.NothingTold(ended, j.batch, now);
      }
      if Columns.Sequenced(begun) {
        Endings.ToldAlike(begun, ended, j.batch, now);
      }
      if j.batch.Some? {
        var ok := SettleTerminal(j.batch.value, DidCancel, now);
        if !ok {
          Restore(begun);
          return None;
        }
      }
      return Some(true);
    }

    // ---- Recovery ----

    /** The loop after the recovery statement: one callback claim per bumped batch. */
    method FireBumped(bs: seq<BatchId>, now: Time) returns (ok: bool)
      modifies this
      ensures ok == FireAll(old(View()), bs, now).Some?
      ensures ok ==> View() == FireAll(old(View()), bs, now).value
      ensures ok && old(Columns.Sequenced(View())) ==> Endings.FiredSome(old(View()), View(), Endings.Of(bs), now)
    {
      hide Endings.FiredSome, Columns.Fired, Columns.Sequenced, TryFire, Columns.FiresInVain;
      ghost var begun := View();
      if Columns.Sequenced(begun) {
        Endings.NoneFired(begun, now);
      }
      assert Endings.Of(bs[..0]) == {};
      var i := 0;
      assert bs[0..] == bs;
      while i < |bs|
        invariant i <= |bs|
        invariant FireAll(View(), bs[i..], now) == FireAll(old(View()), bs, now)
        invariant Columns.Sequenced(begun) ==>
                    Columns.Sequenced(View()) && Endings.FiredSome(begun, View(), Endings.Of(bs[..i]), now)
      {
        assert bs[i..][1..] == bs[i + 1..];
        ghost var before := View();
        var fired := TryClaimAndFire(bs[i], now);
        if !fired {
          return false;
        }
        Endings.OfOneMore(bs, i);
        if Columns.Sequenced(begun) {
          Endings.FiredOneMore(begun, before, View(), Endings.Of(bs[..i]), bs[i], now);
        }
        i := i + 1;
      }
      assert bs[..i] == bs;
      return true;
    }

    /** `reclaim_in_flight`: returns how many of `ids` were running; None if the sweep rolled back. */
    method Reclaim(ids: set<JobId>, now: Time) returns (r: Option<nat>)
      modifies this
      ensures r.None? <==> Recover(old(View()), ids, now).None?
      ensures View() == Apply(old(View()), Stall(ids, now)) && Enabled(old(View()), Stall(ids, now))
      ensures r.None? ==> View() == old(View())
      ensures r.Some? ==> r.value == |Columns.RunningOf(old(jobs), ids)|
      ensures r.Some? && old(Columns.Sequenced(View())) ==>
                Columns.Recovered(old(View()), View(), Columns.RunningOf(old(jobs), ids), now)
    {
      hide Columns.Recovered, Endings.FiredSome, FireAll;
      var begun := View();
      var swept := Swept(jobs, ids);
      var bumped := Ascending(Bumped(begun, swept));
      groups, queues, batches, jobs :=
        ReleaseGroups(groups, jobs, swept), ReleaseQueues(queues, jobs, swept), BumpedBatches(batches, jobs, swept),
        StalledJobs(jobs, swept, now);
      assert View() == StallRows(begun, swept, now);
      ghost var stalled := View();
      assert swept == Columns.RunningOf(begun.jobs, ids);
      var ok := FireBumped(bumped, now);
      if !ok {
        Restore(begun);
        return None;
      }
      if Columns.Sequenced(begun) {
        assert Endings.Of(bumped) == Bumped(begun, swept);
        Endings.StatementThenFires(begun, stalled, View(), swept, now);
      }
      return Some(|swept|);
    }

    /** `sweep_stale`: the same, over the running rows whose heartbeat is missing or too old. */
    method SweepStale(staleAfter: Time, now: Time) returns (r: Option<nat>)
      modifies this
      ensures View() == Apply(old(View()), Stall(Stale(old(View()), now, staleAfter), now))
      ensures r.None? ==> View() == old(View())
      ensures r.Some? ==> r.value == |Columns.QuietOf(old(jobs), now, staleAfter)|
      ensures r.Some? && old(Columns.Sequenced(View())) ==>
                Columns.Recovered(old(View()), View(), Columns.QuietOf(old(jobs), now, staleAfter), now)
    {
      hide Columns.Recovered;
      var stale := Stale(View(), now, staleAfter);
      assert Swept(jobs, stale) == stale;
      assert stale == Columns.QuietOf(jobs, now, staleAfter) == Columns.RunningOf(jobs, stale);
      r := Reclaim(stale, now);
    }

    // ---- Heartbeats and administration ----

    /** `update_heartbeat_batch`: exactly the running rows among `ids` are stamped, whoever holds them, and
        counted. */
    method Heartbeat(ids: set<JobId>, now: Time) returns (n: nat)
      modifies this`jobs
      ensures jobs.Keys == old(jobs).Keys
      ensures forall id :: id in jobs ==>
                jobs[id] == if id in ids && old(jobs)[id].state == Running then old(jobs)[id].(heartbeat := Some(now)) else old(jobs)[id]
      ensures n == |BeatenAt(jobs, ids, now)|
      ensures View() == Apply(old(View()), Step.Heartbeat(ids, now)) && Enabled(old(View()), Step.Heartbeat(ids, now))
    {
      hide Apply, Beat, Swept, BeatenAt;
      BeatApplies(View(), ids, now);
      BeatStamps(View(), ids, now);
      if ids == {} {
        return 0;
      }
      var beating := Swept(jobs, ids);
      jobs := jobs + map id | id in beating :: jobs[id].(heartbeat := Some(now));
      n := |beating|;
    }

    /** `named_queue::set_concurrency`, `set_paused` and `set_timeout`: insert a row seeded from the live
        count, or on conflict change one column and never the counter. */
    method SetQueue(name: string, e: QueueEdit)
      modifies this`queues
      ensures View() == Apply(old(View()), QueueAdmin(name, e))
      ensures Enabled(old(View()), QueueAdmin(name, e))
      ensures name in queues && queues == old(queues)[name := queues[name]]
      ensures name in old(queues) ==> Columns.QueueSet(old(queues)[name], queues[name], e)
      ensures name !in old(queues) ==>
                Columns.QueueSet(Queue(|Columns.RunningIn(jobs, name)|, 2147483647, false, None), queues[name], e)
    {
      assert RunningOn(jobs, QueueLane(name)) == Columns.RunningIn(jobs, name);
      hide RunningOn, Apply;
      QueueEditApplies(View(), name, e);
      var row := if name in queues then queues[name] else Queue(|RunningOn(jobs, QueueLane(name))|, MAX_I32, false, None);
      match e {
        case QueueCap(max) => row := row.(maxConcurrency := Max(max, 0));
        case QueuePause(paused) => row := row.(paused := paused);
        case QueueTimeout(ms) => row := row.(timeout := if ms.Some? && ms.value > 0 then ms else None);
      }
      queues := queues[name := row];
    }

    /** `group::set_concurrency`, `set_paused`, `set_rate` and `clear_rate`; false when `set_rate` is rejected. */
    method SetGroup(key: string, e: GroupEdit, now: Time) returns (ok: bool)
      modifies this`groups
      ensures View() == Apply(old(View()), GroupAdmin(key, e, now))
      ensures ok <==> !(e.GroupRate? && (e.count <= 0 || e.period <= 0))
      ensures Enabled(old(View()), GroupAdmin(key, e, now))
      ensures !ok || (e.ClearRate? && key !in old(groups)) ==> groups == old(groups)
      ensures ok && !(e.ClearRate? && key !in old(groups)) ==>
                && key in groups && groups == old(groups)[key := groups[key]]
                && Columns.GroupSet(if key in old(groups) then old(groups)[key] else Group(0, 2147483647, false, None, None, 0.0, None),
                                    groups[key], e, now)
    {
      hide Apply;
      GroupEditApplies(View(), key, e, now);
      if e.GroupRate? && (e.count <= 0 || e.period <= 0) {
        return false;
      }
      if key !in groups && e.ClearRate? {
        return true;
      }
      var row := if key in groups then groups[key] else DEFAULT_GROUP;
      match e {
        case GroupCap(max) => row := row.(maxConcurrency := Max(max, 0));
        case GroupPause(paused) => row := row.(paused := paused);
        case GroupRate(count, period) =>
          row := row.(rateCount := Some(count), ratePeriod := Some(period), tokens := count as real, refilledAt := Some(now));
        case ClearRate => row := row.(rateCount := None, ratePeriod := None, tokens := 0.0, refilledAt := None);
      }
      groups := groups[key := row];
      return true;
    }

    /** A change of the group rules touches no row that is there. */
    method SetGroupRules(newRules: map<string, Rule>)
      modifies this`rules
      ensures View() == Apply(old(View()), SetRules(newRules)) && Enabled(old(View()), SetRules(newRules))
      ensures View() == old(View()).(rules := newRules)
    {
      rules := newRules;
    }

    // ---- Counter repair ----

    /** `reconcile_counters`: how many group and queue rows had to be lowered. */
    method ReconcileCounters() returns (groupsFixed: nat, queuesFixed: nat)
      modifies this`groups, this`queues
      ensures View() == Reconcile(old(View())) == Apply(old(View()), Repair) && Enabled(old(View()), Repair)
      ensures groupsFixed == 0 && queuesFixed == 0 <==> View() == old(View())
      ensures Counters.Exact(old(View())) ==> groupsFixed == 0 && queuesFixed == 0
      ensures groups.Keys == old(groups).Keys && queues.Keys == old(queues).Keys
      ensures forall g :: g in groups ==>
                && groups[g] == old(groups)[g].(running := groups[g].running)
                && Columns.Lowered(old(groups)[g].running, |RunningOn(jobs, GroupLane(g))|, groups[g].running)
      ensures forall q :: q in queues ==>
                && queues[q] == old(queues)[q].(running := queues[q].running)
                && Columns.Lowered(old(queues)[q].running, |RunningOn(jobs, QueueLane(q))|, queues[q].running)
    {
      hide RunningOn, Apply, Enabled, ReconciledGroups, ReconciledQueues, Columns.Lowered, Counters.Exact;
      RepairApplies(View());
      RepairLowers(groups, queues, jobs);
      ghost var begun := View();
      var groups', queues' := ReconciledGroups(groups, jobs), ReconciledQueues(queues, jobs);
      groupsFixed, queuesFixed := |Changed(groups, groups')|, |Changed(queues, queues')|;
      ChangedNone(groups, groups');
      ChangedNone(queues, queues');
      groups, queues := groups', queues';
      if Counters.Exact(begun) {
        Counters.RepairIsIdle(begun);
      }
    }
  }
}
