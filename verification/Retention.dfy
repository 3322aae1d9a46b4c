/** Retention: deleting finished rows that are too old or too many. A table here is the
    finish time of each finished row; `tie` is whatever order the database gives to
    rows that finished at the same instant. */
module Retention {
  import opened Tables
  import opened Lifecycle
  import Columns
  import Store

  type Table = map<nat, Time>

  ghost predicate TieBreak(tie: (nat, nat) -> bool) {
    && (forall a: nat :: !tie(a, a))
    && (forall a: nat, b: nat :: tie(a, b) || a == b || tie(b, a))
    && (forall a: nat, b: nat, c: nat :: tie(a, b) && tie(b, c) ==> tie(a, c))
  }

  predicate Newer(t: Table, tie: (nat, nat) -> bool, x: nat, y: nat)
    requires x in t && y in t
  {
    t[x] > t[y] || (t[x] == t[y] && tie(x, y))
  }

  function NewerThan(t: Table, tie: (nat, nat) -> bool, id: nat): set<nat>
    requires id in t
  {
    set x | x in t && Newer(t, tie, x, id)
  }

  /** `row_number() OVER (ORDER BY finalized_at DESC)`, counting from zero. */
  function Rank(t: Table, tie: (nat, nat) -> bool, id: nat): nat
    requires id in t
  {
    |NewerThan(t, tie, id)|
  }

  /** Rows past the age window; `secs` is in seconds, times in milliseconds. */
  function Expired(t: Table, secs: Option<nat>, now: Time): set<nat> {
    set id | id in t && secs.Some? && t[id] < now - 1000 * secs.value
  }

  /** Rows beyond the newest `count`; a negative count keeps none. */
  function Surplus(t: Table, tie: (nat, nat) -> bool, count: Option<int>): set<nat> {
    set id | id in t && count.Some? && Rank(t, tie, id) >= Max(count.value, 0)
  }

  /** The one statement of the combined case; with one limit or none it is that limit's statement. */
  function Doomed(t: Table, tie: (nat, nat) -> bool, secs: Option<nat>, count: Option<int>, now: Time): set<nat> {
    Expired(t, secs, now) + Surplus(t, tie, count)
  }

  // ---- Removing older rows does not re-rank the rest ----

  /** `gone` holds, with each row, every row older than it. */
  ghost predicate ClosedBelow(t: Table, tie: (nat, nat) -> bool, gone: set<nat>) {
    forall x, y :: x in t && y in t && x in gone && Newer(t, tie, x, y) ==> y in gone
  }

  lemma RankStays(t: Table, tie: (nat, nat) -> bool, gone: set<nat>, id: nat)
    requires ClosedBelow(t, tie, gone) && id in t && id !in gone
    ensures Rank(t - gone, tie, id) == Rank(t, tie, id)
  {
    assert NewerThan(t - gone, tie, id) == NewerThan(t, tie, id);
  }

  lemma RankOrders(t: Table, tie: (nat, nat) -> bool, x: nat, y: nat)
    requires TieBreak(tie) && x in t && y in t && Newer(t, tie, x, y)
    ensures Rank(t, tie, x) < Rank(t, tie, y)
  {
    var a, b := NewerThan(t, tie, x), NewerThan(t, tie, y);
    assert x in b && x !in a && a <= b;
    assert b == a + (b - a) && x in b - a;
  }

  lemma ExpiredIsClosed(t: Table, tie: (nat, nat) -> bool, secs: Option<nat>, now: Time)
    ensures ClosedBelow(t, tie, Expired(t, secs, now))
  {
  }

  lemma SurplusIsClosed(t: Table, tie: (nat, nat) -> bool, count: Option<int>)
    requires TieBreak(tie)
    ensures ClosedBelow(t, tie, Surplus(t, tie, count))
  {
    forall x, y | x in t && y in t && x in Surplus(t, tie, count) && Newer(t, tie, x, y) ensures y in Surplus(t, tie, count) {
      RankOrders(t, tie, x, y);
    }
  }

  // ---- What is kept ----

  /** Every kept row is newer than every deleted one. */
  lemma KeptAreNewest(t: Table, tie: (nat, nat) -> bool, secs: Option<nat>, count: Option<int>, now: Time, kept: nat, gone: nat)
    requires TieBreak(tie) && kept in t && kept !in Doomed(t, tie, secs, count, now) && gone in Doomed(t, tie, secs, count, now)
    ensures Newer(t, tie, kept, gone)
  {
    ExpiredIsClosed(t, tie, secs, now);
    SurplusIsClosed(t, tie, count);
  }

  function Newest(t: Table, tie: (nat, nat) -> bool, n: nat): set<nat> {
    set id | id in t && Rank(t, tie, id) < n
  }

  lemma NewerOrders(t: Table, tie: (nat, nat) -> bool, x: nat, y: nat, z: nat)
    requires TieBreak(tie) && x in t && y in t && z in t
    ensures Newer(t, tie, x, y) && Newer(t, tie, y, z) ==> Newer(t, tie, x, z)
    ensures x == y || Newer(t, tie, x, y) || Newer(t, tie, y, x)
  {
  }

  lemma {:induction false} Oldest(t: Table, tie: (nat, nat) -> bool, ids: set<nat>) returns (o: nat)
    requires TieBreak(tie) && ids != {} && ids <= t.Keys
    ensures o in ids && forall x :: x in ids && x != o ==> Newer(t, tie, x, o)
    decreases |ids|
  {
    hide TieBreak, Newer;
    var r :| r in ids;
    if ids - {r} == {} {
      assert ids == {r};
      return r;
    }
    var m := Oldest(t, tie, ids - {r});
    o := if Newer(t, tie, m, r) then r else m;
    forall x | x in ids && x != o ensures Newer(t, tie, x, o) {
      NewerOrders(t, tie, x, m, r);
      NewerOrders(t, tie, r, m, r);
    }
  }

  /** Exactly `n` rows rank below `n`, or all of them if there are fewer. */
  lemma {:induction false} NewestCount(t: Table, tie: (nat, nat) -> bool, n: nat)
    requires TieBreak(tie)
    ensures |Newest(t, tie, n)| == Min(n, |t|)
    decreases |t|
  {
    if t.Keys == {} {
      assert Newest(t, tie, n) == {};
      assert |t| == |t.Keys|;
    } else {
      var o := Oldest(t, tie, t.Keys);
      OldestRank(t, tie, o);
      var t' := t - {o};
      assert t'.Keys == t.Keys - {o} && |t'| == |t'.Keys| && |t| == |t.Keys|;
      NewestCount(t', tie, n);
      WithoutOldest(t, tie, o, n);
    }
  }

  lemma OldestRank(t: Table, tie: (nat, nat) -> bool, o: nat)
    requires TieBreak(tie) && o in t && forall x :: x in t.Keys && x != o ==> Newer(t, tie, x, o)
    ensures Rank(t, tie, o) == |t.Keys| - 1
  {
    assert NewerThan(t, tie, o) == t.Keys - {o};
  }

  lemma WithoutOldest(t: Table, tie: (nat, nat) -> bool, o: nat, n: nat)
    requires TieBreak(tie) && o in t && forall x :: x in t.Keys && x != o ==> Newer(t, tie, x, o)
    ensures Newest(t, tie, n) == Newest(t - {o}, tie, n) + if Rank(t, tie, o) < n then {o} else {}
    ensures o !in Newest(t - {o}, tie, n)
  {
    assert ClosedBelow(t, tie, {o});
    forall id | id in t && id != o ensures Rank(t - {o}, tie, id) == Rank(t, tie, id) {
      RankStays(t, tie, {o}, id);
    }
  }

  /** The count limit alone keeps exactly the newest `count` rows. */
  lemma CountKeepsNewest(t: Table, tie: (nat, nat) -> bool, count: int)
    requires TieBreak(tie)
    ensures |t.Keys - Surplus(t, tie, Some(count))| == Min(Max(count, 0), |t|)
  {
    NewestCount(t, tie, Max(count, 0));
    assert t.Keys - Surplus(t, tie, Some(count)) == Newest(t, tie, Max(count, 0));
  }

  // ---- Composition ----

  /** The combined delete is age first, then count; and it is count first, then age. */
  lemma EitherOrder(t: Table, tie: (nat, nat) -> bool, secs: Option<nat>, count: Option<int>, now: Time)
    requires TieBreak(tie)
    ensures var e := Expired(t, secs, now); Doomed(t, tie, secs, count, now) == e + Surplus(t - e, tie, count)
    ensures var s := Surplus(t, tie, count); Doomed(t, tie, secs, count, now) == s + Expired(t - s, secs, now)
  {
    var e := Expired(t, secs, now);
    ExpiredIsClosed(t, tie, secs, now);
    forall id | id in t && id !in e ensures id in Surplus(t, tie, count) <==> id in Surplus(t - e, tie, count) {
      RankStays(t, tie, e, id);
    }
  }

  /** At a fixed time a second pass finds nothing. */
  lemma SecondPassIsIdle(t: Table, tie: (nat, nat) -> bool, secs: Option<nat>, count: Option<int>, now: Time)
    requires TieBreak(tie)
    ensures Doomed(t - Doomed(t, tie, secs, count, now), tie, secs, count, now) == {}
  {
    var d := Doomed(t, tie, secs, count, now);
    ExpiredIsClosed(t, tie, secs, now);
    SurplusIsClosed(t, tie, count);
    assert ClosedBelow(t, tie, d);
    forall id | id in t - d ensures id !in Doomed(t - d, tie, secs, count, now) {
      RankStays(t, tie, d, id);
    }
  }

  // ---- The tables ----

  function FinishedJobs(db: Db, s: JobState): Table {
    map id | id in db.jobs && db.jobs[id].state == s && db.jobs[id].finalizedAt.Some? :: db.jobs[id].finalizedAt.value
  }

  function FinishedBatches(db: Db): Table {
    map b | b in db.batches && db.batches[b].complete && db.batches[b].finalizedAt.Some? :: db.batches[b].finalizedAt.value
  }

  datatype Limits = Limits(secs: Option<nat>, count: Option<int>)

  datatype Retention = Retention(completed: Limits, failed: Limits, cancelled: Limits, batches: Limits)

  function DoomedJobs(db: Db, s: JobState, l: Limits, tie: (nat, nat) -> bool, now: Time): set<nat> {
    Doomed(FinishedJobs(db, s), tie, l.secs, l.count, now)
  }

  function DoomedBatches(db: Db, l: Limits, tie: (nat, nat) -> bool, now: Time): set<nat> {
    Doomed(FinishedBatches(db), tie, l.secs, l.count, now)
  }

  function CleanJobs(db: Db, s: JobState, l: Limits, tie: (nat, nat) -> bool, now: Time): Db {
    DeleteJobs(db, DoomedJobs(db, s, l, tie, now))
  }

  /** `cleanup`: the three job states in turn, then the batches. */
  function Clean(db: Db, r: Retention, tie: (nat, nat) -> bool, now: Time): Db {
    var db1 := CleanJobs(db, Completed, r.completed, tie, now);
    var db2 := CleanJobs(db1, Failed, r.failed, tie, now);
    var db3 := CleanJobs(db2, Cancelled, r.cancelled, tie, now);
    DeleteBatches(db3, DoomedBatches(db3, r.batches, tie, now))
  }

  /** Cleanup only ever takes steps the lifecycle allows: it never deletes a live job or a pending batch. */
  lemma CleanupIsAllowed(db: Db, s: JobState, l: Limits, tie: (nat, nat) -> bool, now: Time)
    requires s.Terminal()
    ensures Enabled(db, ReapJobs(DoomedJobs(db, s, l, tie, now)))
    ensures Enabled(db, ReapBatches(DoomedBatches(db, l, tie, now)))
    ensures forall id :: id in DoomedJobs(db, s, l, tie, now) ==> id in db.jobs && db.jobs[id].state == s
  {
  }

  /** Cleaning one state leaves every job of another state where it was. */
  lemma OtherStatesStay(db: Db, s: JobState, l: Limits, tie: (nat, nat) -> bool, now: Time, other: JobState)
    requires s != other
    ensures FinishedJobs(CleanJobs(db, s, l, tie, now), other) == FinishedJobs(db, other)
  {
  }

  lemma OwnStateShrinks(db: Db, s: JobState, l: Limits, tie: (nat, nat) -> bool, now: Time)
    ensures FinishedJobs(CleanJobs(db, s, l, tie, now), s) == FinishedJobs(db, s) - DoomedJobs(db, s, l, tie, now)
  {
  }

  lemma BatchesStay(db: Db, s: JobState, l: Limits, tie: (nat, nat) -> bool, now: Time)
    ensures CleanJobs(db, s, l, tie, now).batches == db.batches
  {
  }

  /** The whole pass, state by state: each table loses exactly its own doomed rows. */
  lemma CleanDeletesTheDoomed(db: Db, r: Retention, tie: (nat, nat) -> bool, now: Time)
    ensures var db' := Clean(db, r, tie, now);
            && FinishedJobs(db', Completed) == FinishedJobs(db, Completed) - DoomedJobs(db, Completed, r.completed, tie, now)
            && FinishedJobs(db', Failed) == FinishedJobs(db, Failed) - DoomedJobs(db, Failed, r.failed, tie, now)
            && FinishedJobs(db', Cancelled) == FinishedJobs(db, Cancelled) - DoomedJobs(db, Cancelled, r.cancelled, tie, now)
            && FinishedBatches(db') == FinishedBatches(db) - DoomedBatches(db, r.batches, tie, now)
            && forall id :: id in db.jobs && !db.jobs[id].state.Terminal() ==>
                 id in db'.jobs && db'.jobs[id] == db.jobs[id].(batch := db'.jobs[id].batch)
  {
    hide Doomed;
    var db1 := CleanJobs(db, Completed, r.completed, tie, now);
    var db2 := CleanJobs(db1, Failed, r.failed, tie, now);
    var db3 := CleanJobs(db2, Cancelled, r.cancelled, tie, now);
    OtherStatesStay(db, Completed, r.completed, tie, now, Failed);
    OtherStatesStay(db, Completed, r.completed, tie, now, Cancelled);
    OtherStatesStay(db1, Failed, r.failed, tie, now, Completed);
    OtherStatesStay(db1, Failed, r.failed, tie, now, Cancelled);
    OtherStatesStay(db2, Cancelled, r.cancelled, tie, now, Completed);
    OtherStatesStay(db2, Cancelled, r.cancelled, tie, now, Failed);
    OwnStateShrinks(db, Completed, r.completed, tie, now);
    OwnStateShrinks(db1, Failed, r.failed, tie, now);
    OwnStateShrinks(db2, Cancelled, r.cancelled, tie, now);
    LiveStay(db, Completed, r.completed, tie, now);
    LiveStay(db1, Failed, r.failed, tie, now);
    LiveStay(db2, Cancelled, r.cancelled, tie, now);
    BatchPass(db3, r.batches, tie, now);
  }

  lemma LiveStay(db: Db, s: JobState, l: Limits, tie: (nat, nat) -> bool, now: Time)
    requires s.Terminal()
    ensures forall id :: id in db.jobs && !db.jobs[id].state.Terminal() ==>
              id in CleanJobs(db, s, l, tie, now).jobs && CleanJobs(db, s, l, tie, now).jobs[id] == db.jobs[id]
    ensures CleanJobs(db, s, l, tie, now).batches == db.batches
  {
  }

  lemma BatchPass(db: Db, l: Limits, tie: (nat, nat) -> bool, now: Time)
    ensures var db' := DeleteBatches(db, DoomedBatches(db, l, tie, now));
            && (forall s :: FinishedJobs(db', s) == FinishedJobs(db, s))
            && FinishedBatches(db') == FinishedBatches(db) - DoomedBatches(db, l, tie, now)
            && db'.jobs.Keys == db.jobs.Keys
            && forall id :: id in db.jobs ==> db'.jobs[id] == db.jobs[id].(batch := db'.jobs[id].batch)
  {
    hide Doomed;
    var db' := DeleteBatches(db, DoomedBatches(db, l, tie, now));
    forall s ensures FinishedJobs(db', s) == FinishedJobs(db, s) {
    }
  }

  /** A second cleanup at the same instant deletes nothing. */
  lemma CleanIsIdempotent(db: Db, r: Retention, tie: (nat, nat) -> bool, now: Time)
    requires TieBreak(tie)
    ensures var db' := Clean(db, r, tie, now);
            && DoomedJobs(db', Completed, r.completed, tie, now) == {}
            && DoomedJobs(db', Failed, r.failed, tie, now) == {}
            && DoomedJobs(db', Cancelled, r.cancelled, tie, now) == {}
            && DoomedBatches(db', r.batches, tie, now) == {}
  {
    hide Doomed, Clean;
    CleanDeletesTheDoomed(db, r, tie, now);
    SecondPassIsIdle(FinishedJobs(db, Completed), tie, r.completed.secs, r.completed.count, now);
    SecondPassIsIdle(FinishedJobs(db, Failed), tie, r.failed.secs, r.failed.count, now);
    SecondPassIsIdle(FinishedJobs(db, Cancelled), tie, r.cancelled.secs, r.cancelled.count, now);
    SecondPassIsIdle(FinishedBatches(db), tie, r.batches.secs, r.batches.count, now);
  }

  // ---- The statements ----

  lemma ReapIsDelete(db: Db, ids: set<JobId>)
    ensures Apply(db, ReapJobs(ids)) == DeleteJobs(db, ids)
  {
  }

  lemma ReapIsDeleteBatches(db: Db, ids: set<BatchId>)
    ensures Apply(db, ReapBatches(ids)) == DeleteBatches(db, ids)
  {
  }

  lemma DoomedIsPast(t: Table, tie: (nat, nat) -> bool, l: Limits, now: Time)
    ensures forall id :: id in t ==> (id in Doomed(t, tie, l.secs, l.count, now) <==> Columns.PastLimits(t, tie, l.secs, l.count, now, id))
    ensures Doomed(t, tie, l.secs, l.count, now) <= t.Keys
  {
    forall id | id in t
      ensures NewerThan(t, tie, id) == set x | x in t && (t[x] > t[id] || (t[x] == t[id] && tie(x, id)))
    {
    }
  }

  /** What each combination of limits has its own statement for. */
  function Victims(t: Table, tie: (nat, nat) -> bool, l: Limits, now: Time): set<nat> {
    match (l.secs, l.count)
    case (None, None) => {}
    case (Some(secs), None) => set id | id in t && t[id] < now - 1000 * secs
    case (None, Some(count)) => set id | id in t && Rank(t, tie, id) >= Max(count, 0)
    case (Some(secs), Some(count)) => set id | id in t && (t[id] < now - 1000 * secs || Rank(t, tie, id) >= Max(count, 0))
  }

  /** The four statements are one rule. */
  lemma FourStatementsAreOne(t: Table, tie: (nat, nat) -> bool, l: Limits, now: Time)
    ensures Victims(t, tie, l, now) == Doomed(t, tie, l.secs, l.count, now)
  {
    hide Rank;
  }

  /** `cleanup_jobs_state`, one statement per combination of limits. */
  method CleanupJobsState(store: Store.Store, s: JobState, l: Limits, tie: (nat, nat) -> bool, now: Time) returns (n: nat)
    modifies store
    ensures store.View() == CleanJobs(old(store.View()), s, l, tie, now)
    ensures n == |DoomedJobs(old(store.View()), s, l, tie, now)|
    ensures forall id :: id in old(store.jobs) ==>
              (id !in store.jobs <==>
                 && old(store.jobs)[id].state == s && old(store.jobs)[id].finalizedAt.Some?
                 && Columns.PastLimits(Columns.FinishTimes(old(store.jobs), s), tie, l.secs, l.count, now, id))
    ensures forall id :: id in store.jobs ==> id in old(store.jobs) && store.jobs[id] == old(store.jobs)[id]
    ensures store.View() == old(store.View()).(jobs := store.jobs) && n == |old(store.jobs).Keys - store.jobs.Keys|
    ensures s.Terminal() ==> exists ids :: Enabled(old(store.View()), ReapJobs(ids)) && store.View() == Apply(old(store.View()), ReapJobs(ids))
  {
    hide Columns.PastLimits, Apply, Enabled;
    DoomedIsPast(FinishedJobs(store.View(), s), tie, l, now);
    assert FinishedJobs(store.View(), s) == Columns.FinishTimes(store.jobs, s);
    if s.Terminal() {
      CleanupIsAllowed(store.View(), s, l, tie, now);
      ReapIsDelete(store.View(), DoomedJobs(store.View(), s, l, tie, now));
    }
    var t := FinishedJobs(store.View(), s);
    hide Doomed, Victims;
    FourStatementsAreOne(t, tie, l, now);
    var victims := Victims(t, tie, l, now);
    n := |victims|;
    store.jobs := store.jobs - victims;
  }

  /** `cleanup_batches`, one statement per combination of limits. Deleting a row sets `batch_id` to NULL
      on the jobs that point at it. */
  method CleanupBatches(store: Store.Store, l: Limits, tie: (nat, nat) -> bool, now: Time) returns (n: nat)
    modifies store
    ensures store.View() == DeleteBatches(old(store.View()), DoomedBatches(old(store.View()), l, tie, now))
    ensures n == |DoomedBatches(old(store.View()), l, tie, now)|
    ensures forall b :: b in old(store.batches) ==>
              (b !in store.batches <==>
                 && old(store.batches)[b].complete && old(store.batches)[b].finalizedAt.Some?
                 && Columns.PastLimits(Columns.CompletionTimes(old(store.batches)), tie, l.secs, l.count, now, b))
    ensures forall b :: b in store.batches ==> b in old(store.batches) && store.batches[b] == old(store.batches)[b]
    ensures store.jobs.Keys == old(store.jobs).Keys
    ensures forall id :: id in store.jobs ==>
              var j := old(store.jobs)[id];
              store.jobs[id] == if j.batch.Some? && j.batch.value in old(store.batches) && j.batch.value !in store.batches
                                then j.(batch := None) else j
    ensures store.View() == old(store.View()).(jobs := store.jobs, batches := store.batches)
    ensures n == |old(store.batches).Keys - store.batches.Keys|
    ensures exists bs :: Enabled(old(store.View()), ReapBatches(bs)) && store.View() == Apply(old(store.View()), ReapBatches(bs))
  {
    hide Columns.PastLimits, Apply, Enabled;
    CleanupIsAllowed(store.View(), Completed, l, tie, now);
    ReapIsDeleteBatches(store.View(), DoomedBatches(store.View(), l, tie, now));
    DoomedIsPast(FinishedBatches(store.View()), tie, l, now);
    assert FinishedBatches(store.View()) == Columns.CompletionTimes(store.batches);
    var t := FinishedBatches(store.View());
    hide Doomed, Victims;
    FourStatementsAreOne(t, tie, l, now);
    var victims := Victims(t, tie, l, now);
    n := |victims|;
    store.jobs := DeleteBatches(store.View(), victims).jobs;
    store.batches := store.batches - victims;
  }

  /** `cleanup`: the loop over the states, then the batches. */
  method Cleanup(store: Store.Store, r: Retention, tie: (nat, nat) -> bool, now: Time) returns (n: seq<nat>)
    modifies store
    ensures store.View() == Clean(old(store.View()), r, tie, now)
    ensures var db := old(store.View());
            n == [|DoomedJobs(db, Completed, r.completed, tie, now)|, |DoomedJobs(db, Failed, r.failed, tie, now)|,
                  |DoomedJobs(db, Cancelled, r.cancelled, tie, now)|, |DoomedBatches(db, r.batches, tie, now)|]
  {
    hide Doomed;
    ghost var db := store.View();
    ghost var db1 := CleanJobs(db, Completed, r.completed, tie, now);
    OtherStatesStay(db, Completed, r.completed, tie, now, Failed);
    OtherStatesStay(db, Completed, r.completed, tie, now, Cancelled);
    OtherStatesStay(db1, Failed, r.failed, tie, now, Cancelled);
    var completed := CleanupJobsState(store, Completed, r.completed, tie, now);
    var failed := CleanupJobsState(store, Failed, r.failed, tie, now);
    var cancelled := CleanupJobsState(store, Cancelled, r.cancelled, tie, now);
    var batches := CleanupBatches(store, r.batches, tie, now);
    n := [completed, failed, cancelled, batches];
  }
}
