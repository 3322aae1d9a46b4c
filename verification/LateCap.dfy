/** Why a cap on an unlimited queue has to wait for the claims in progress: a run in which it does not. */
module LateCap {
  import opened Tables
  import opened Lifecycle
  import opened TokenBucket
  import opened Budgets
  import opened Interleaving
  import opened Caps

  const LATE_JOB := Job("k", "q", None, None, None, Null, 0, 1, 0, 0, Pending, 0, 0, None, None, None)
  const LATE_DB := Db(map[0 := LATE_JOB], map[], map["q" := Queue(0, MAX_I32, false, None)], map[], map[], 1, 0)
  const LATE_EDIT := QueueAdmin("q", QueueCap(0))
  const CAPPED_DB := LATE_DB.(queues := map["q" := Queue(0, 0, false, None)])
  const LATE_CALL := Call({"k"}, {"q"}, 1)
  const LATE_FETCHER := Fetcher(1, Idle, LATE_CALL, 0, 0, map[], {}, map[], {}, {}, {}, {}, 0)

  /** It has chosen the one job of the unlimited queue and is about to commit. */
  const LATE_CHOICE :=
    LATE_FETCHER.(phase := Grouped, budget := map["q" := MAX_I32 - 1], jobLocks := {0}, accepted := {0}, taken := 1)

  const LATE_MOVES := [Begin(LATE_CALL, 0, 0), EnterUngrouped, TakeUngrouped(0), EnterGroups({}), EnterGrouped]

  function LateStage(n: nat): Fetcher {
    if n == 0 then LATE_FETCHER
    else if n == 1 then LATE_FETCHER.(phase := LockingQueues, budget := map["q" := MAX_I32])
    else if n == 2 then LATE_FETCHER.(phase := Ungrouped, budget := map["q" := MAX_I32])
    else if n == 3 then LATE_CHOICE.(phase := Ungrouped)
    else if n == 4 then LATE_CHOICE.(phase := LockingGroups)
    else LATE_CHOICE
  }

  function Alone(db: Db, f: Fetcher): Sys {
    Sys(db, map[0 := f])
  }

  lemma LateMove(n: nat)
    requires n < 5
    ensures Can(Alone(LATE_DB, LateStage(n)), By(0, LATE_MOVES[n]))
    ensures Next(Alone(LATE_DB, LateStage(n)), By(0, LATE_MOVES[n])) == Alone(LATE_DB, LateStage(n + 1))
  {
    var f := LateStage(n);
    if n == 0 {
      assert FirstBudget(LATE_DB, LATE_CALL) == map["q" := MAX_I32];
      assert BindingRows(LATE_DB, LATE_CALL) == {};
    } else if n == 2 {
      assert JobFree(Alone(LATE_DB, f), 0, 0);
      assert f.budget["q" := MAX_I32 - 1] == LATE_CHOICE.budget;
      assert f.jobLocks + {0} == {0} && f.accepted + {0} == {0};
    }
    assert Moved(LATE_DB, f, LATE_MOVES[n]) == LateStage(n + 1);
    assert map[0 := f][0 := LateStage(n + 1)] == map[0 := LateStage(n + 1)];
  }

  lemma LateChoiceIsReached() returns (states: seq<Sys>, labels: seq<Label>)
    ensures IsRun(states, labels) && |labels| == 5 && states[0] == Alone(LATE_DB, LATE_FETCHER)
    ensures states[5] == Alone(LATE_DB, LATE_CHOICE) && forall x :: 0 <= x < 5 ==> labels[x].By?
  {
    hide Can, Next;
    states, labels := [Alone(LATE_DB, LateStage(0))], [];
    var n := 0;
    while n < 5
      invariant 0 <= n <= 5 && IsRun(states, labels) && |labels| == n && forall x :: 0 <= x < n ==> labels[x].By?
      invariant states[0] == Alone(LATE_DB, LATE_FETCHER) && states[n] == Alone(LATE_DB, LateStage(n))
    {
      LateMove(n);
      Extend(states, labels, By(0, LATE_MOVES[n]));
      states, labels := states + [Next(states[n], By(0, LATE_MOVES[n]))], labels + [By(0, LATE_MOVES[n])];
      n := n + 1;
    }
  }

  lemma LateEdit()
    ensures CanHappen(Alone(LATE_DB, LATE_CHOICE), LATE_EDIT) && Apply(LATE_DB, LATE_EDIT) == CAPPED_DB
    ensures Undercuts(Alone(LATE_DB, LATE_CHOICE), Env(LATE_EDIT), QueueLane("q"))
    ensures RunningOn(LATE_DB.jobs, QueueLane("q")) == {}
  {
    assert LATE_DB.queues["q" := Queue(0, 0, false, None)] == CAPPED_DB.queues;
    assert Alone(LATE_DB, LATE_CHOICE).fetchers[0].phase != Idle;
  }

  lemma LateClaim(w: WorkerId, writes: map<string, TokenWrite>)
    ensures var db' := Claim(CAPPED_DB, {0}, w, 0, writes);
            db'.queues == map["q" := Queue(1, 0, false, None)] && db'.groups == map[]
    ensures RunningOn(ClaimedJobs(CAPPED_DB.jobs, {0}, w, 0), QueueLane("q")) == {0}
  {
    assert Among(CAPPED_DB.jobs, {0}, QueueLane("q")) == {0};
    assert GroupsOf(CAPPED_DB.jobs, {0}) == {};
  }

  lemma LateCommit()
    ensures CanMove(Alone(CAPPED_DB, LATE_CHOICE), 0, Commit)
    ensures RunningOn(Committed(CAPPED_DB, LATE_CHOICE).jobs, QueueLane("q")) == {0}
    ensures CounterOf(Committed(CAPPED_DB, LATE_CHOICE), QueueLane("q")) == Some(Counter(1, 0, false))
  {
    hide Among, RunningOn, ClaimedQueues, ClaimedGroups, ClaimedJobs, Writes;
    LateClaim(0, map[]);
    LateClaim(1, Writes(CAPPED_DB, LATE_CHOICE));
  }

  /** Capping an unlimited queue while a claim on it is in progress does break the cap: here the queue's
      new cap is 0, nothing runs when it is set, and one job is running after the next commit. */
  lemma LateCapOverAdmits() returns (states: seq<Sys>, labels: seq<Label>)
    ensures IsRun(states, labels) && |labels| == 7 && Start(states[0]) && WithinCap(states[0].db, QueueLane("q"))
    ensures forall x :: 0 <= x < 7 ==> (Undercuts(states[x], labels[x], QueueLane("q")) <==> x == 5)
    ensures RunningOn(states[5].db.jobs, QueueLane("q")) == {}
    ensures CounterOf(states[7].db, QueueLane("q")).Some? && !WithinCap(states[7].db, QueueLane("q"))
  {
    hide CanMove, CanHappen, Committed, RunningOn, Apply;
    var lane := QueueLane("q");
    states, labels := LateChoiceIsReached();
    LateEdit();
    Extend(states, labels, Env(LATE_EDIT));
    states, labels := states + [Next(states[5], Env(LATE_EDIT))], labels + [Env(LATE_EDIT)];
    LateCommit();
    assert states[6] == Alone(CAPPED_DB, LATE_CHOICE);
    Extend(states, labels, By(0, Commit));
    states, labels := states + [Next(states[6], By(0, Commit))], labels + [By(0, Commit)];
    LateStart();
  }

  lemma LateStart()
    ensures Start(Alone(LATE_DB, LATE_FETCHER)) && WithinCap(LATE_DB, QueueLane("q"))
  {
    forall lane ensures RunningOn(LATE_DB.jobs, lane) == {} {
    }
  }
}
