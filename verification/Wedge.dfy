/** A batch that can never complete, at work: its callback names an invalid queue, which is
    found out only when its last job ends. That job's completion, its failure, and every sweep
    that would fail it roll back, and the other jobs of such a sweep stay stuck with it. */
module Wedge {
  import opened Tables
  import opened Lifecycle
  import FanIn
  import Sweep

  const ITEM := Request("k", Null, 1, 0, 0, "q", None, None, None, None)
  const BAD_CALLBACK := ITEM.(queue := "")

  function OpenRow(): Batch {
    Batch(false, 1, 0, 0, 0, Some(BAD_CALLBACK), false, 0, None)
  }

  /** The batch's one job and one other; neither may stall even once. */
  const MEMBER := NewJob(ITEM.(batch := Some(0)), 0)
  const OTHER := NewJob(ITEM, 0)
  const TAKE := Take({0, 1}, 7, 0, map[])
  const STEPS := [Batched([ITEM], Some(BAD_CALLBACK), 0), Enqueue(ITEM, 0), TAKE]

  const STORED := EMPTY_DB.(jobs := map[0 := MEMBER], batches := map[0 := OpenRow()], nextJob := 1, nextBatch := 1)
  const WAITING := STORED.(jobs := map[0 := MEMBER, 1 := OTHER], nextJob := 2)

  function Wedged(): Db {
    WAITING.(jobs := map[0 := Started(MEMBER, 7, 0), 1 := Started(OTHER, 7, 0)])
  }

  /** The bad name is stored unchecked. */
  lemma BatchIsStored()
    ensures Apply(EMPTY_DB, STEPS[0]) == STORED
  {
    var reqs := Stamp([ITEM], 0);
    var db1 := OpenBatch(EMPTY_DB, Some(BAD_CALLBACK), 0);
    assert reqs == [ITEM.(batch := Some(0))] && reqs[1..] == [];
    var db2 := AddJob(db1, NewJob(reqs[0], 0));
    assert InsertRows(db1, reqs, 0) == db2 by {
      assert InsertRows(db2, [], 0) == db2;
    }
    assert db2.jobs == map[0 := MEMBER];
    NoRules();
    assert InsertMany(db1, reqs, 0) == Some(db2) by {
      assert forall r :: r in reqs ==> r == reqs[0];
    }
  }

  lemma NoRules()
    ensures forall keys :: Materialize(map[], map[], keys, 0) == map[]
  {
  }

  lemma OtherIsQueued()
    ensures Apply(STORED, STEPS[1]) == WAITING
  {
    NoRules();
    assert STORED.jobs[1 := OTHER] == WAITING.jobs;
  }

  lemma ClaimIs(w: WorkerId)
    ensures Claim(WAITING, {0, 1}, w, 0, map[]) == WAITING.(jobs := map[0 := Started(MEMBER, w, 0), 1 := Started(OTHER, w, 0)])
  {
    assert GroupsOf(WAITING.jobs, {0, 1}) == {};
    assert ClaimedGroups(map[], WAITING.jobs, {0, 1}, map[]) == map[];
    assert ClaimedQueues(map[], WAITING.jobs, {0, 1}) == map[];
    assert ClaimedJobs(WAITING.jobs, {0, 1}, w, 0) == map[0 := Started(MEMBER, w, 0), 1 := Started(OTHER, w, 0)];
  }

  lemma BothAreClaimed()
    ensures Enabled(WAITING, TAKE) && Apply(WAITING, TAKE) == Wedged()
  {
    hide Claim, Started;
    ClaimIs(7);
    ClaimIs(0);
  }

  /** One job of batch `b` is still to end, and the batch's callback cannot be inserted. */
  predicate LastOfMute(db: Db, b: BatchId) {
    && Sweep.Mute(db, b) && !db.batches[b].claimed && db.batches[b].Sum() + 1 == db.batches[b].total
  }

  /** Ending the last job of such a batch in either way rolls back. */
  lemma LastVerdictFails(db: Db, id: JobId, w: WorkerId, b: BatchId, now: Time)
    requires Fenced(db, id, w) && db.jobs[id].batch == Some(b) && LastOfMute(db, b)
    ensures Transaction(db, Complete(id, w, now)).None? && Transaction(db, Fail(id, w, None, now)).None?
  {
    hide Settle, ReleaseGroups, ReleaseQueues, ValidQueueName, Finalized;
    var j := db.jobs[id];
    FanIn.SettleFailsIff(Release(db, {id}, db.jobs[id := Finalized(j, Completed, now)]), b, DidComplete, now);
    FanIn.SettleFailsIff(Release(db, {id}, db.jobs[id := Finalized(j, Failed, now)]), b, DidFail, now);
  }

  lemma RowIsLast()
    ensures OpenRow().onComplete == Some(BAD_CALLBACK) && !OpenRow().claimed && OpenRow().Sum() + 1 == OpenRow().total
  {
  }

  lemma NoSuchQueue(name: string)
    requires name == ""
    ensures !ValidQueueName(name)
  {
  }

  lemma MemberIsLast()
    ensures LastOfMute(Wedged(), 0) && Sweep.Mute(Wedged(), 0)
  {
    assert 0 in Wedged().batches && Wedged().batches[0] == OpenRow();
    hide Wedged, OpenRow, ValidQueueName;
    RowIsLast();
    NoSuchQueue(BAD_CALLBACK.queue);
  }

  lemma MemberIsRunning()
    ensures Fenced(Wedged(), 0, 7) && Wedged().jobs[0].batch == Some(0)
  {
  }

  lemma WedgedIsReady(ids: set<JobId>)
    requires ids <= {0, 1}
    ensures Sweep.Ready(Wedged(), ids)
  {
    FailedHere(ids);
    hide FailedOf;
  }

  lemma OnlyBatchZero(ids: set<JobId>, b: BatchId)
    requires ids <= {0, 1}
    ensures Sweep.Finishes(Wedged(), ids, b) <==> b == 0 && 0 in ids
  {
    FailedHere(ids);
    hide FailedOf;
  }

  /** A sweep that includes it rolls back, whatever else it would have recovered. */
  lemma NoSweepLands(ids: set<JobId>, now: Time)
    requires ids <= {0, 1}
    ensures Recover(Wedged(), ids, now).None? <==> 0 in ids
  {
    assert Swept(Wedged().jobs, ids) == ids;
    hide Wedged, Recover, Swept, LastOfMute, Sweep.Ready, Sweep.Finishes, Sweep.Mute;
    MemberIsLast();
    WedgedIsReady(ids);
    Sweep.SweepGoesThroughIff(Wedged(), ids, now);
    forall b ensures Sweep.Finishes(Wedged(), ids, b) <==> b == 0 && 0 in ids {
      OnlyBatchZero(ids, b);
    }
  }

  lemma FailedHere(ids: set<JobId>)
    requires ids <= {0, 1}
    ensures FailedOf(Wedged().jobs, ids, 0) == if 0 in ids then {0} else {}
  {
  }

  /** A run by honest callers, every transaction of which commits, to a point from which the batched job
      can be neither completed nor failed, by verdict or by sweep, and drags down any sweep it is in:
      the other job alone would be recovered, the two together are not. */
  lemma BadCallbackWedges() returns (dbs: seq<Db>, steps: seq<Step>)
    ensures IsTrace(dbs, steps) && dbs[0] == EMPTY_DB && |steps| == 3
    ensures forall k :: 0 <= k < 3 ==> FanIn.Honest(steps[k]) && Transaction(dbs[k], steps[k]).Some?
    ensures forall now :: Transaction(dbs[3], Complete(0, 7, now)).None? && Transaction(dbs[3], Fail(0, 7, None, now)).None?
    ensures forall now :: Transaction(dbs[3], Stall({0, 1}, now)).None? && Transaction(dbs[3], Stall({1}, now)).Some?
  {
    hide LastOfMute, Fenced, Apply, Recover, MarkCompleted, MarkFailed, EnqueueBatch, InsertDyn, ClaimFits;
    BatchIsStored();
    OtherIsQueued();
    BothAreClaimed();
    dbs, steps := [EMPTY_DB, STORED, WAITING, Wedged()], STEPS;
    AllCommit();
    MemberIsLast();
    MemberIsRunning();
    forall now ensures Transaction(Wedged(), Complete(0, 7, now)).None? && Transaction(Wedged(), Fail(0, 7, None, now)).None? {
      LastVerdictFails(Wedged(), 0, 7, 0, now);
    }
    forall now ensures Transaction(Wedged(), Stall({0, 1}, now)).None? && Transaction(Wedged(), Stall({1}, now)).Some? {
      NoSweepLands({0, 1}, now);
      NoSweepLands({1}, now);
    }
  }

  /** A transaction that changes the tables committed. */
  lemma AllCommit()
    requires Apply(EMPTY_DB, STEPS[0]) == STORED && Apply(STORED, STEPS[1]) == WAITING
    ensures Transaction(EMPTY_DB, STEPS[0]).Some? && Transaction(STORED, STEPS[1]).Some? && Transaction(WAITING, STEPS[2]).Some?
  {
    hide EnqueueBatch, InsertDyn, Claim;
    assert EMPTY_DB.nextJob != STORED.nextJob && STORED.nextJob != WAITING.nextJob;
  }
}
