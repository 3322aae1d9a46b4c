/** Ends of executions tied to the columns: slots given back, batches told, stalled rows recovered. */
module Endings {
  import opened Tables
  import opened Lifecycle
  import Columns

  lemma ReleaseGivesBack(db: Db, ids: set<JobId>, jobs': map<JobId, Job>)
    ensures Columns.SlotsBack(db, Release(db, ids, jobs'), ids)
  {
    forall q ensures Among(db.jobs, ids, QueueLane(q)) == set id | id in ids && id in db.jobs && db.jobs[id].queue == q {
    }
    forall g ensures Among(db.jobs, ids, GroupLane(g)) == set id | id in ids && id in db.jobs && db.jobs[id].group == Some(g) {
    }
  }

  /** A claimed callback closes its batch's row and otherwise only adds. */
  lemma FiredTells(before: Db, after: Db, b: BatchId, now: Time)
    requires b in before.batches && Columns.Fired(before, after, b, now) && Columns.Sequenced(before)
    ensures Columns.OnlyAdds(before, after) && after.batches.Keys == before.batches.Keys
    ensures forall x :: x in before.batches && x != b ==> after.batches[x] == before.batches[x]
    ensures var r, r' := before.batches[b], after.batches[b];
            Columns.Closes(r, r', now) && r' == r.(claimed := r'.claimed, complete := r'.complete, finalizedAt := r'.finalizedAt)
  {
    hide Columns.CallsBack, Columns.LiveTwin, Columns.Ruled;
  }

  /** One job's row ends, its slots go back, and then its batch is settled. */
  lemma EndsThenSettles(before: Db, mid: Db, after: Db, id: JobId, s: JobState, now: Time)
    requires id in before.jobs && id in mid.jobs && Columns.Sequenced(before)
    requires mid == before.(jobs := before.jobs[id := mid.jobs[id]], groups := mid.groups, queues := mid.queues)
    requires Columns.Ends(before.jobs[id], mid.jobs[id], s, now) && Columns.SlotsBack(before, mid, {id})
    requires Columns.OnlyAdds(mid, after)
    requires Columns.BatchTold(mid, after, before.jobs[id].batch, if s == Completed then 1 else 0, if s == Failed then 1 else 0,
                               if s == Cancelled then 1 else 0, now)
    ensures Columns.Ended(before, after, id, s, now) && Columns.SlotsBack(before, after, {id})
  {
    hide Columns.Ends, Columns.Closes;
  }

  lemma SlotsStayBack(before: Db, mid: Db, after: Db, ids: set<JobId>)
    requires Columns.SlotsBack(before, mid, ids) && after.queues == mid.queues && after.groups == mid.groups
    ensures Columns.SlotsBack(before, after, ids)
  {
  }

  /** What a batch is told does not depend on the job rows. */
  lemma ToldAlike(before: Db, mid: Db, b: Option<BatchId>, now: Time)
    requires mid.batches == before.batches
    ensures forall after: Db, c: nat, f: nat, x: nat ::
              Columns.BatchTold(mid, after, b, c, f, x, now) ==> Columns.BatchTold(before, after, b, c, f, x, now)
  {
  }

  /** A batch row bumped, and left at that because it does not add up or is claimed. */
  lemma NotVain(r: Batch)
    requires r.claimed || r.Sum() != r.total
    ensures !Columns.FiresInVain(r)
  {
  }

  lemma BumpTells(before: Db, mid: Db, b: BatchId, c: nat, f: nat, x: nat, now: Time)
    requires b in before.batches && Columns.Sequenced(before)
    requires var r := before.batches[b];
             mid == before.(batches := before.batches[b := r.(completed := r.completed + c, failed := r.failed + f, cancelled := r.cancelled + x)])
    requires mid.batches[b].claimed || mid.batches[b].completed + mid.batches[b].failed + mid.batches[b].cancelled != mid.batches[b].total
    ensures Columns.BatchTold(before, mid, Some(b), c, f, x, now) && Columns.OnlyAdds(before, mid)
  {
  }

  /** A batch row bumped, and its callback claimed. */
  lemma BumpThenFires(before: Db, mid: Db, after: Db, b: BatchId, c: nat, f: nat, x: nat, now: Time)
    requires b in before.batches && Columns.Sequenced(before)
    requires var r := before.batches[b];
             mid == before.(batches := before.batches[b := r.(completed := r.completed + c, failed := r.failed + f, cancelled := r.cancelled + x)])
    requires Columns.Fired(mid, after, b, now)
    ensures Columns.BatchTold(before, after, Some(b), c, f, x, now) && Columns.OnlyAdds(before, after)
  {
    FiredTells(mid, after, b, now);
    hide Columns.Fired;
  }

  lemma NothingTold(db: Db, b: Option<BatchId>, now: Time)
    requires (b.None? || b.value !in db.batches) && Columns.Sequenced(db)
    ensures Columns.BatchTold(db, db, b, 0, 0, 0, now) && Columns.OnlyAdds(db, db)
    ensures forall c: nat, f: nat, x: nat :: Columns.BatchTold(db, db, b, c, f, x, now)
  {
  }

  // ---- Recovery ----

  lemma StalledRecovers(j: Job, now: Time)
    ensures Columns.Recovers(j, Stalled(j, now), now)
  {
  }

  /** The recovery statement, before any callback: rows, slots and failure counts. */
  lemma StatementRecovers(db: Db, ids: set<JobId>, now: Time)
    requires forall id :: id in ids ==> id in db.jobs
    ensures var db' := StallRows(db, ids, now);
            && db'.jobs.Keys == db.jobs.Keys && db' == db.(jobs := db'.jobs, groups := db'.groups, queues := db'.queues, batches := db'.batches)
            && (forall id :: id in db.jobs ==>
                  if id in ids then Columns.Recovers(db.jobs[id], db'.jobs[id], now) else db'.jobs[id] == db.jobs[id])
            && Columns.SlotsBack(db, db', ids) && db'.groups.Keys == db.groups.Keys
            && db'.batches.Keys == db.batches.Keys
            && forall b :: b in db.batches ==>
                 db'.batches[b] == db.batches[b].(failed := db.batches[b].failed + |Columns.FailingOf(db.jobs, ids, b)|)
  {
    ReleaseGivesBack(db, ids, StalledJobs(db.jobs, ids, now));
    forall id | id in ids ensures Columns.Recovers(db.jobs[id], Stalled(db.jobs[id], now), now) {
      StalledRecovers(db.jobs[id], now);
    }
    forall b: BatchId ensures FailedOf(db.jobs, ids, b) == Columns.FailingOf(db.jobs, ids, b) {
    }
    hide Stalled, Columns.Recovers, ReleaseGroups, ReleaseQueues, Columns.SlotsBack, FailedOf, Columns.FailingOf;
  }

  /** What firing some batches did to the batch rows. */
  ghost predicate FiredSome(before: Db, after: Db, bs: set<BatchId>, now: Time) {
    && Columns.OnlyAdds(before, after) && after.batches.Keys == before.batches.Keys
    && forall b :: b in before.batches ==>
         if b in bs then
           var r, r' := before.batches[b], after.batches[b];
           Columns.Closes(r, r', now) && r' == r.(claimed := r'.claimed, complete := r'.complete, finalizedAt := r'.finalizedAt)
         else after.batches[b] == before.batches[b]
  }

  lemma NoneFired(db: Db, now: Time)
    requires Columns.Sequenced(db)
    ensures FiredSome(db, db, {}, now)
  {
  }

  lemma FiredOneMore(before: Db, mid: Db, after: Db, bs: set<BatchId>, b: BatchId, now: Time)
    requires FiredSome(before, mid, bs, now) && Columns.Sequenced(before) && Columns.Sequenced(mid)
    requires if b in mid.batches then Columns.Fired(mid, after, b, now) else after == mid
    ensures FiredSome(before, after, bs + {b}, now) && Columns.Sequenced(after)
  {
    if b in mid.batches {
      FiredTells(mid, after, b, now);
      hide Columns.Fired;
      AddsTwice(before, mid, after);
      hide Columns.OnlyAdds;
    }
  }

  lemma AddsTwice(before: Db, mid: Db, after: Db)
    requires Columns.Sequenced(mid) && Columns.OnlyAdds(before, mid) && Columns.OnlyAdds(mid, after)
    ensures Columns.OnlyAdds(before, after) && Columns.Sequenced(after)
  {
  }

  /** The statement, then the callbacks of the batches it touched. */
  lemma StatementThenFires(before: Db, mid: Db, after: Db, ids: set<JobId>, now: Time)
    requires Columns.Sequenced(before) && mid == StallRows(before, ids, now)
    requires forall id :: id in ids ==> id in before.jobs
    requires FiredSome(mid, after, Bumped(before, ids), now)
    ensures Columns.Recovered(before, after, ids, now)
  {
    StatementRecovers(before, ids, now);
    hide StallRows, Bumped, Columns.Recovers, Columns.Closes, Columns.OthersStay, Columns.SlotsBack, Columns.OnlyAdds, Columns.FailingOf;
    hide Columns.FailuresTold;
    RowsThenAdds(before, mid, after, ids, now);
    forall b | b in before.batches ensures b in Bumped(before, ids) <==> mid.batches[b].failed != before.batches[b].failed {
      TouchedIsBumped(before, ids, b, now);
    }
    FailuresThenFires(before, mid, after, Bumped(before, ids), ids, now);
  }

  lemma FailuresThenFires(before: Db, mid: Db, after: Db, bs: set<BatchId>, ids: set<JobId>, now: Time)
    requires mid.batches.Keys == before.batches.Keys && FiredSome(mid, after, bs, now)
    requires forall b :: b in before.batches ==>
               && mid.batches[b] == before.batches[b].(failed := before.batches[b].failed + |Columns.FailingOf(before.jobs, ids, b)|)
               && (b in bs <==> mid.batches[b].failed != before.batches[b].failed)
    ensures Columns.FailuresTold(before, after, ids, now)
  {
    hide Columns.OnlyAdds, Columns.FailingOf;
  }

  lemma RowsThenAdds(before: Db, mid: Db, after: Db, ids: set<JobId>, now: Time)
    requires Columns.Sequenced(before) && mid.jobs.Keys == before.jobs.Keys && mid.nextJob == before.nextJob
    requires forall id :: id in before.jobs ==>
               if id in ids then Columns.Recovers(before.jobs[id], mid.jobs[id], now) else mid.jobs[id] == before.jobs[id]
    requires forall id :: id in ids ==> id in before.jobs
    requires Columns.SlotsBack(before, mid, ids) && mid.groups.Keys == before.groups.Keys && Columns.OnlyAdds(mid, after)
    ensures Columns.OthersStay(before, after, ids) && Columns.SlotsBack(before, after, ids)
    ensures forall id :: id in ids ==> Columns.Recovers(before.jobs[id], after.jobs[id], now)
  {
    hide Columns.Recovers;
  }

  lemma TouchedIsBumped(db: Db, ids: set<JobId>, b: BatchId, now: Time)
    requires b in db.batches
    ensures b in Bumped(db, ids) <==> StallRows(db, ids, now).batches[b].failed != db.batches[b].failed
  {
    hide ReleaseGroups, ReleaseQueues, StalledJobs;
  }

  function Of(bs: seq<BatchId>): set<BatchId> {
    set b | b in bs
  }

  lemma OfOneMore(bs: seq<BatchId>, i: nat)
    requires i < |bs|
    ensures Of(bs[..0]) == {} && Of(bs[..i + 1]) == Of(bs[..i]) + {bs[i]}
  {
  }
}
