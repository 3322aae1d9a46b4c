/** Cap safety over interleaved runs, row by row: no queue and no group ever runs more jobs than
    its cap, though full, paused and default rows are never locked. */
module Caps {
  import opened Tables
  import opened Lifecycle
  import opened TokenBucket
  import opened Budgets
  import opened Interleaving
  import Counters
  import Rows

  // ---- Shares ----

  /** What fetcher `f` may still add to a capped queue, and has already chosen, fits beside the running jobs. */
  ghost predicate QueueShare(db: Db, f: Fetcher, q: string)
    requires q in db.queues
  {
    var n, max := |Among(db.jobs, f.accepted, QueueLane(q))|, db.queues[q].maxConcurrency;
    max < MAX_I32 ==>
      if q in f.queueLocks
      then q in f.budget && f.budget[q] >= 0 && n + f.budget[q] + |RunningOn(db.jobs, QueueLane(q))| <= max
      else n == 0 && (f.phase != Idle && q in f.call.queues ==> q in f.budget && f.budget[q] <= 0)
  }

  ghost predicate GroupShare(db: Db, f: Fetcher, g: string)
    requires g in db.groups
  {
    var n, max := |Among(db.jobs, f.accepted, GroupLane(g))|, db.groups[g].maxConcurrency;
    if g in f.slots
    then g in f.groupLocks && f.slots[g].slots >= 0
         && n + f.slots[g].slots + |RunningOn(db.jobs, GroupLane(g))| <= max
    else n == 0
  }

  ghost predicate WithinCap(db: Db, lane: Lane) {
    CounterOf(db, lane).Some? && |RunningOn(db.jobs, lane)| <= CounterOf(db, lane).value.max
  }

  ghost predicate Share(db: Db, f: Fetcher, lane: Lane)
    requires CounterOf(db, lane).Some?
  {
    match lane
    case QueueLane(q) => QueueShare(db, f, q)
    case GroupLane(g) => GroupShare(db, f, g)
  }

  /** One row is within its cap, and every fetcher's share of it fits. */
  ghost predicate Capped(s: Sys, lane: Lane) {
    && WithinCap(s.db, lane)
    && (forall i :: i in s.fetchers ==> Share(s.db, s.fetchers[i], lane))
  }

  lemma StartIsCapped(s: Sys, lane: Lane)
    requires Start(s) && WithinCap(s.db, lane)
    ensures Capped(s, lane)
  {
    forall i | i in s.fetchers ensures Share(s.db, s.fetchers[i], lane) {
      assert s.fetchers[i].accepted == {};
      AmongEmpty(s.db.jobs, lane);
    }
  }

  // ---- Moves that touch no committed row ----

  lemma ReleasedShare(db: Db, f: Fetcher, lane: Lane)
    requires CounterOf(db, lane).Some?
    ensures Share(db, Released(f), lane)
  {
    AmongEmpty(db.jobs, lane);
  }

  lemma AcceptKeepsShareQueue(db: Db, f: Fetcher, id: JobId, q: string)
    requires q in db.queues && QueueShare(db, f, q) && f.phase != Idle
    requires id in db.jobs && db.jobs[id].queue in f.call.queues && BudgetFor(f.budget, db.jobs[id].queue) > 0
    ensures QueueShare(db, Accept(f, id, db.jobs[id].queue), q)
  {
    hide Among, RunningOn;
    AcceptCounts(db.jobs, f.accepted, id, QueueLane(q));
  }

  /** A locked row gives the slots its exact counter leaves. */
  lemma LockKeepsShareQueue(db: Db, f: Fetcher, name: string, q: string)
    requires q in db.queues && name in db.queues && QueueShare(db, f, q) && f.accepted == {}
    requires db.queues[q].running == |RunningOn(db.jobs, QueueLane(q))| <= db.queues[q].maxConcurrency
    ensures QueueShare(db, Moved(db, f, LockQueue(name)), q)
  {
    hide RunningOn;
    AmongEmpty(db.jobs, QueueLane(q));
  }

  lemma LocalMoveShareQueue(s: Sys, i: nat, m: Move, q: string)
    requires Orderly(s) && Capped(s, QueueLane(q)) && i in s.fetchers && CanMove(s, i, m) && !m.Commit?
    ensures QueueShare(s.db, Moved(s.db, s.fetchers[i], m), q)
  {
    var f := s.fetchers[i];
    assert InOrder(s.db, f) && Share(s.db, f, QueueLane(q));
    assert CounterOf(s.db, QueueLane(q)).value.running == |RunningOn(s.db.jobs, QueueLane(q))|;
    hide LocksExclude, SlotOf, Counters.Sound, RunningOn, Among;
    AmongEmpty(s.db.jobs, QueueLane(q));
    if m.TakeUngrouped? || m.TakeGrouped? {
      AcceptKeepsShareQueue(s.db, f, m.id, q);
    } else if m.LockQueue? {
      assert f.accepted == {};
      LockKeepsShareQueue(s.db, f, m.name, q);
    }
  }

  lemma LocalMoveShareGroup(s: Sys, i: nat, m: Move, g: string)
    requires Orderly(s) && Capped(s, GroupLane(g)) && i in s.fetchers && CanMove(s, i, m) && !m.Commit?
    ensures GroupShare(s.db, Moved(s.db, s.fetchers[i], m), g)
  {
    hide LocksExclude, FirstBudget, BindingRows, QueueSlots, Charge;
    var f := s.fetchers[i];
    assert InOrder(s.db, f) && Share(s.db, f, GroupLane(g));
    AmongEmpty(s.db.jobs, GroupLane(g));
    if m.TakeUngrouped? || m.TakeGrouped? {
      AcceptCounts(s.db.jobs, f.accepted, m.id, GroupLane(g));
    } else if m.LockGroup? && m.key == g {
      assert Among(s.db.jobs, f.accepted, GroupLane(g)) == {};
    }
  }

  // ---- Commit ----

  /** The committing fetcher's own share keeps a row it writes within its cap. */
  lemma CommitKeepsCap(db: Db, f: Fetcher, lane: Lane)
    requires Counters.Sound(db) && WithinCap(db, lane) && Share(db, f, lane) && InOrder(db, f) && ClaimFits(db, f.accepted)
    ensures WithinCap(Committed(db, f), lane)
  {
    var writes := Writes(db, f);
    Counters.ClaimKeeps(db, f.accepted, f.worker, f.now, writes);
    Counters.ClaimCounts(db.jobs, f.accepted, f.worker, f.now, lane);
    Counters.ClaimCounter(db, f.accepted, f.worker, f.now, writes, lane);
    FitsBounds(db, f.accepted, f.worker, f.now, writes, lane);
  }

  lemma FitsBounds(db: Db, ids: set<JobId>, w: WorkerId, now: Time, writes: map<string, TokenWrite>, lane: Lane)
    requires ClaimFits(db, ids) && CounterOf(Claim(db, ids, w, now, writes), lane).Some?
    ensures CounterOf(Claim(db, ids, w, now, writes), lane).value.running <= MAX_I32
  {
    Counters.ClaimCounter(db, ids, w, now, writes, lane);
    Counters.ClaimCounter(db, ids, 0, 0, map[], lane);
  }

  /** A row that this commit writes is one the peer has no share in. */
  lemma CommitKeepsShare(db: Db, f: Fetcher, p: Fetcher, lane: Lane)
    requires InOrder(db, f) && InOrder(db, p) && f.queueLocks !! p.queueLocks && f.groupLocks !! p.groupLocks
    requires CounterOf(db, lane).Some? && Share(db, f, lane) && Share(db, p, lane)
    ensures CounterOf(Committed(db, f), lane).Some? && Share(Committed(db, f), p, lane)
  {
    hide RunningOn, ClaimedJobs, Writes;
    CommitFrame(db, f, p, lane);
  }

  // ---- The environment ----

  ghost predicate MidClaimOn(s: Sys, q: string) {
    exists i :: i in s.fetchers && s.fetchers[i].phase != Idle && q in s.fetchers[i].call.queues
  }

  /** The edits a cap does not survive: an operator sets it below what is running, or caps an unlimited
      queue, whose row no claim locks, while a fetcher that serves it is in the middle of a claim. */
  ghost predicate Undercuts(s: Sys, l: Label, lane: Lane) {
    && l.Env? && CounterOf(s.db, lane).Some? && Rows.Lowers(s.db, l.step, lane)
    && (|RunningOn(s.db.jobs, lane)| > Rows.NewCap(l.step, lane).value
        || (lane.QueueLane? && CounterOf(s.db, lane).value.max >= MAX_I32 && MidClaimOn(s, lane.name)))
  }

  /** Freeing slots without lowering the cap leaves a share fitting. */
  lemma FreeingKeepsShare(db: Db, db': Db, f: Fetcher, lane: Lane)
    requires f.accepted <= f.jobLocks && Undisturbed(db, db', f)
    requires CounterOf(db, lane).Some? && CounterOf(db', lane).Some? && Share(db, f, lane)
    requires CounterOf(db, lane).value.max <= CounterOf(db', lane).value.max
    requires |RunningOn(db'.jobs, lane)| <= |RunningOn(db.jobs, lane)|
    ensures Share(db', f, lane)
  {
    hide RunningOn;
    assert Among(db'.jobs, f.accepted, lane) == Among(db.jobs, f.accepted, lane);
  }

  /** Lowering a cap waits for whoever holds the row, so nobody has a share in it. */
  lemma LoweringKeepsShare(db: Db, db': Db, f: Fetcher, lane: Lane)
    requires InOrder(db, f) && Undisturbed(db, db', f)
    requires CounterOf(db, lane).Some? && CounterOf(db', lane).Some? && Share(db, f, lane)
    requires match lane
             case QueueLane(q) => q !in f.queueLocks
                                  && (db.queues[q].maxConcurrency < MAX_I32 || f.phase == Idle || q !in f.call.queues)
             case GroupLane(g) => g !in f.groupLocks
    ensures Share(db', f, lane)
  {
    hide RunningOn;
    assert Among(db'.jobs, f.accepted, lane) == Among(db.jobs, f.accepted, lane);
    if lane.QueueLane? && (f.phase == Idle || lane.name !in f.call.queues) {
      assert Among(db.jobs, f.accepted, lane) == {};
    }
  }

  lemma EnvKeepsCap(s: Sys, e: Step, lane: Lane)
    requires Orderly(s) && Capped(s, lane) && CanHappen(s, e) && !Undercuts(s, Env(e), lane)
    ensures Capped(Next(s, Env(e)), lane)
  {
    hide Apply, Enabled, Share, RunningOn, LocksExclude;
    var db, db' := s.db, Apply(s.db, e);
    Counters.StepKeeps(db, e);
    Rows.CapStays(db, e, lane);
    Counters.Subset(RunningOn(db'.jobs, lane), RunningOn(db.jobs, lane));
    forall i | i in s.fetchers ensures Share(db', s.fetchers[i], lane) {
      var f := s.fetchers[i];
      assert InOrder(db, f) && Undisturbed(db, db', f);
      if Rows.Lowers(db, e, lane) {
        LoweringKeepsShare(db, db', f, lane);
      } else {
        FreeingKeepsShare(db, db', f, lane);
      }
    }
  }

  lemma MoveKeepsCap(s: Sys, i: nat, m: Move, lane: Lane)
    requires Orderly(s) && Capped(s, lane) && i in s.fetchers && CanMove(s, i, m)
    ensures Capped(Next(s, By(i, m)), lane)
  {
    hide Committed, Moved, QueueShare, GroupShare, RunningOn, InOrder, Counters.Sound;
    if m.Commit? {
      CommitStaysCapped(s, i, lane);
    } else {
      match lane
      case QueueLane(q) => LocalMoveShareQueue(s, i, m, q);
      case GroupLane(g) => LocalMoveShareGroup(s, i, m, g);
    }
  }

  lemma CommitStaysCapped(s: Sys, i: nat, lane: Lane)
    requires Orderly(s) && Capped(s, lane) && i in s.fetchers && CanMove(s, i, Commit)
    ensures WithinCap(Committed(s.db, s.fetchers[i]), lane)
    ensures Share(Committed(s.db, s.fetchers[i]), Moved(s.db, s.fetchers[i], Commit), lane)
    ensures forall j :: j in s.fetchers && j != i ==> Share(Committed(s.db, s.fetchers[i]), s.fetchers[j], lane)
  {
    hide Committed, Share, RunningOn, InOrder, Counters.Sound, ClaimFits;
    var f := s.fetchers[i];
    CommitKeepsCap(s.db, f, lane);
    forall j | j in s.fetchers && j != i ensures Share(Committed(s.db, f), s.fetchers[j], lane) {
      CommitKeepsShare(s.db, f, s.fetchers[j], lane);
    }
    ReleasedShare(Committed(s.db, f), f, lane);
  }

  // ---- The theorem ----

  /** Every move of every fetcher and every other transaction keeps a row within its cap, and every
      fetcher's share of it fitting, unless it is an operator undercutting that very cap. */
  lemma StepIsSafe(s: Sys, l: Label, lane: Lane)
    requires Orderly(s) && Capped(s, lane) && Can(s, l) && !Undercuts(s, l, lane)
    ensures Orderly(Next(s, l)) && Capped(Next(s, l), lane)
  {
    hide Orderly, Capped, CanMove, CanHappen, Next, Undercuts;
    StepIsOrderly(s, l);
    match l
    case Env(e) => EnvKeepsCap(s, e, lane);
    case By(i, m) => MoveKeepsCap(s, i, m, lane);
  }

  lemma {:induction false} RunIsSafe(states: seq<Sys>, labels: seq<Label>, k: nat, lane: Lane)
    requires IsRun(states, labels) && Orderly(states[0]) && Capped(states[0], lane) && k < |states|
    requires forall x :: 0 <= x < k ==> !Undercuts(states[x], labels[x], lane)
    ensures Orderly(states[k]) && Capped(states[k], lane)
  {
    hide Orderly, Capped, Can, Next, Undercuts;
    if k > 0 {
      RunIsSafe(states, labels, k - 1, lane);
      StepIsSafe(states[k - 1], labels[k - 1], lane);
    }
  }

  /** Cap safety, row by row: a queue or group whose row is there and within its cap when a run starts is
      there and within its cap in every state of it, so long as no edit undercuts that cap, whatever any
      number of fetchers, every other transaction and every other edit do meanwhile. */
  lemma CapsNeverExceeded(states: seq<Sys>, labels: seq<Label>, k: nat, lane: Lane)
    requires IsRun(states, labels) && Start(states[0]) && WithinCap(states[0].db, lane) && k < |states|
    requires forall x :: 0 <= x < k ==> !Undercuts(states[x], labels[x], lane)
    ensures CounterOf(states[k].db, lane).Some?
    ensures var row := CounterOf(states[k].db, lane).value; |RunningOn(states[k].db.jobs, lane)| == row.running <= row.max
  {
    hide IsRun, Undercuts, Share;
    StartIsOrderly(states[0]);
    StartIsCapped(states[0], lane);
    RunIsSafe(states, labels, k, lane);
  }
}
