/** The claim protocol with any number of fetchers interleaving phase by phase.

    A fetcher's transaction reads, locks and chooses in many small moves; its
    writes land at once when it commits. Row locks exclude other fetchers. The
    model over-approximates what Postgres allows, so safety carries over: a
    locking read may skip any row at any time, rows are locked one by one,
    completions and sweeps may land even between a fetcher's lock and its commit,
    and a fetcher may take candidates in any order and may roll back at any time. */
module Interleaving {
  import opened Tables
  import opened Lifecycle
  import opened TokenBucket
  import opened Budgets
  import Counters

  datatype Phase = Idle | LockingQueues | Ungrouped | LockingGroups | Grouped

  datatype Call = Call(kinds: set<string>, queues: set<string>, batchSize: nat)

  /** One process's fetcher. `taken` is the length of the accepted vector, which counts a job
      twice if a queue name is listed twice; `todo` holds the rows still to be locked or skipped. */
  datatype Fetcher = Fetcher(
    worker: WorkerId,
    phase: Phase,
    call: Call,
    clock: Time,
    now: Time,
    budget: map<string, int>,
    todo: set<string>,
    slots: map<string, Slot>,
    queueLocks: set<string>,
    groupLocks: set<string>,
    jobLocks: set<JobId>,
    accepted: set<JobId>,
    taken: nat)

  datatype Sys = Sys(db: Db, fetchers: map<nat, Fetcher>)

  datatype Move =
    | Begin(call: Call, clock: Time, now: Time)
    | LockQueue(name: string)
    | SkipQueue(name: string)
    | EnterUngrouped
    | TakeUngrouped(id: JobId)
    | EnterGroups(keys: set<string>)
    | LockGroup(key: string)
    | SkipGroup(key: string)
    | AbsentGroup(key: string)
    | EnterGrouped
    | TakeGrouped(id: JobId)
    | DropCandidate(id: JobId)
    | Commit
    | Rollback

  datatype Label = By(i: nat, move: Move) | Env(step: Step)

  // ---- Phase 0 ----

  /** A binding row has no budget until it is locked. */
  function FirstBudget(db: Db, call: Call): map<string, int> {
    map q | q in call.queues && q in db.queues ::
      if QueueNeedsLock(db.queues[q]) then 0 else QueueSlots(db.queues[q])
  }

  function BindingRows(db: Db, call: Call): set<string> {
    set q | q in call.queues && q in db.queues && QueueNeedsLock(db.queues[q])
  }

  // ---- Locks ----

  ghost predicate QueueFree(s: Sys, i: nat, q: string) {
    forall j :: j in s.fetchers && j != i ==> q !in s.fetchers[j].queueLocks
  }

  ghost predicate GroupFree(s: Sys, i: nat, g: string) {
    forall j :: j in s.fetchers && j != i ==> g !in s.fetchers[j].groupLocks
  }

  ghost predicate JobFree(s: Sys, i: nat, id: JobId) {
    forall j :: j in s.fetchers && j != i ==> id !in s.fetchers[j].jobLocks
  }

  // ---- One fetcher's moves ----

  /** The candidate filter shared by both lanes; a job already locked by this transaction passes again. */
  ghost predicate Candidate(s: Sys, i: nat, id: JobId)
    requires i in s.fetchers
  {
    var f := s.fetchers[i];
    && id in s.db.jobs && s.db.jobs[id].state == Pending
    && s.db.jobs[id].scheduledAt <= f.now && s.db.jobs[id].kind in f.call.kinds && s.db.jobs[id].queue in f.call.queues
    && JobFree(s, i, id)
  }

  /** A candidate that may also be accepted: the batch has room and its queue has budget. */
  ghost predicate Acceptable(s: Sys, i: nat, id: JobId)
    requires i in s.fetchers
  {
    Candidate(s, i, id) && s.fetchers[i].taken < s.fetchers[i].call.batchSize
    && BudgetFor(s.fetchers[i].budget, s.db.jobs[id].queue) > 0
  }

  ghost predicate CanMove(s: Sys, i: nat, m: Move)
    requires i in s.fetchers
  {
    var f := s.fetchers[i];
    match m
    case Begin(_, _, _) => f.phase == Idle
    case LockQueue(q) => f.phase == LockingQueues && q in f.todo && q in s.db.queues && QueueFree(s, i, q)
    case SkipQueue(q) => f.phase == LockingQueues && q in f.todo
    case EnterUngrouped => f.phase == LockingQueues && f.todo == {}
    case TakeUngrouped(id) => f.phase == Ungrouped && Acceptable(s, i, id) && s.db.jobs[id].group.None?
    case EnterGroups(_) => f.phase == Ungrouped
    case LockGroup(g) => f.phase == LockingGroups && g in f.todo && g in s.db.groups && GroupFree(s, i, g)
    case SkipGroup(g) => f.phase == LockingGroups && g in f.todo
    case AbsentGroup(g) => f.phase == LockingGroups && g in f.todo && g !in s.db.groups
    case EnterGrouped => f.phase == LockingGroups && f.todo == {}
    case TakeGrouped(id) =>
      && f.phase == Grouped && Acceptable(s, i, id) && s.db.jobs[id].group.Some?
      && s.db.jobs[id].group.value in f.slots && f.slots[s.db.jobs[id].group.value].slots > 0
      && id !in f.accepted
    case DropCandidate(id) => f.phase == Grouped && Candidate(s, i, id)
    case Commit => f.phase == Grouped && f.accepted != {} && ClaimFits(s.db, f.accepted)
    case Rollback => f.phase != Idle
  }

  function Released(f: Fetcher): Fetcher {
    f.(phase := Idle, budget := map[], todo := {}, slots := map[], queueLocks := {}, groupLocks := {},
       jobLocks := {}, accepted := {}, taken := 0)
  }

  function Accept(f: Fetcher, id: JobId, q: string): Fetcher {
    f.(budget := Charge(f.budget, q), jobLocks := f.jobLocks + {id}, accepted := f.accepted + {id}, taken := f.taken + 1)
  }

  function Moved(db: Db, f: Fetcher, m: Move): Fetcher
    requires m.LockQueue? ==> m.name in db.queues
    requires m.TakeUngrouped? ==> m.id in db.jobs
    requires m.LockGroup? ==> m.key in db.groups
    requires m.TakeGrouped? ==> m.id in db.jobs && db.jobs[m.id].group.Some? && db.jobs[m.id].group.value in f.slots
  {
    match m
    case Begin(call, clock, now) =>
      f.(phase := LockingQueues, call := call, clock := clock, now := now,
         budget := FirstBudget(db, call), todo := BindingRows(db, call))
    case LockQueue(q) =>
      f.(todo := f.todo - {q}, queueLocks := f.queueLocks + {q}, budget := f.budget[q := QueueSlots(db.queues[q])])
    case SkipQueue(q) => f.(todo := f.todo - {q})
    case EnterUngrouped => f.(phase := Ungrouped)
    case TakeUngrouped(id) => Accept(f, id, db.jobs[id].queue)
    case EnterGroups(keys) => f.(phase := LockingGroups, todo := keys)
    case LockGroup(g) =>
      f.(todo := f.todo - {g}, groupLocks := f.groupLocks + {g}, slots := f.slots[g := SlotOf(db.groups[g], f.clock)])
    case SkipGroup(g) => f.(todo := f.todo - {g})
    case AbsentGroup(g) => f.(todo := f.todo - {g}, slots := f.slots[g := UNLIMITED])
    case EnterGrouped => f.(phase := Grouped)
    case TakeGrouped(id) =>
      var g := db.jobs[id].group.value;
      Accept(f, id, db.jobs[id].queue).(slots := f.slots[g := f.slots[g].(slots := f.slots[g].slots - 1)])
    case DropCandidate(id) => f.(jobLocks := f.jobLocks + {id})
    case Commit => Released(f)
    case Rollback => Released(f)
  }

  /** Balances written back for the rate-limited groups a claim took from. */
  function Writes(db: Db, f: Fetcher): map<string, TokenWrite> {
    map g | g in f.slots && f.slots[g].limited ::
      TokenWrite(Remaining(f.slots[g].tokens, |Among(db.jobs, f.accepted, GroupLane(g))|), f.clock)
  }

  function Committed(db: Db, f: Fetcher): Db {
    Claim(db, f.accepted, f.worker, f.now, Writes(db, f))
  }

  // ---- The environment: every other transaction ----

  /** Any transaction but a claim: rows may appear, and operators may edit any cap, rate or pause. It waits
      on job rows a fetcher holds, and an operator's edit on a queue or group row a fetcher holds. */
  ghost predicate CanHappen(s: Sys, e: Step) {
    && Enabled(s.db, e) && !e.Take?
    && (forall i :: i in s.fetchers ==>
          && (e.QueueAdmin? ==> e.name !in s.fetchers[i].queueLocks)
          && (e.GroupAdmin? ==> e.key !in s.fetchers[i].groupLocks))
    && (forall i, id :: i in s.fetchers && id in s.fetchers[i].jobLocks && id in s.db.jobs ==>
          id in Apply(s.db, e).jobs && Apply(s.db, e).jobs[id] == s.db.jobs[id])
  }

  // ---- Runs ----

  ghost predicate Can(s: Sys, l: Label) {
    match l
    case By(i, m) => i in s.fetchers && CanMove(s, i, m)
    case Env(e) => CanHappen(s, e)
  }

  ghost function Next(s: Sys, l: Label): Sys
    requires Can(s, l)
  {
    match l
    case Env(e) => s.(db := Apply(s.db, e))
    case By(i, m) =>
      Sys(if m.Commit? then Committed(s.db, s.fetchers[i]) else s.db,
          s.fetchers[i := Moved(s.db, s.fetchers[i], m)])
  }

  /** A run is its states: each follows from the one before by its label. */
  ghost predicate IsRun(states: seq<Sys>, labels: seq<Label>) {
    && |states| == |labels| + 1
    && forall k :: 0 <= k < |labels| ==> Can(states[k], labels[k]) && states[k + 1] == Next(states[k], labels[k])
  }

  // ---- The invariant ----

  ghost predicate InOrder(db: Db, f: Fetcher) {
    && f.accepted <= f.jobLocks
    && (forall id :: id in f.jobLocks ==>
          id in db.jobs && db.jobs[id].state == Pending && db.jobs[id].scheduledAt <= f.now && db.jobs[id].queue in f.call.queues)
    && (f.phase == Idle ==> f.jobLocks == {} && f.queueLocks == {} && f.groupLocks == {} && f.slots == map[])
    && (f.phase == LockingQueues ==> f.jobLocks == {} && f.queueLocks !! f.todo && f.todo <= f.call.queues)
    && (f.phase == LockingQueues || f.phase == Ungrouped ==> f.slots == map[])
    && (f.phase == LockingGroups ==> f.slots.Keys !! f.todo && forall id :: id in f.accepted ==> db.jobs[id].group.None?)
    && (f.phase == Ungrouped ==> forall id :: id in f.accepted ==> db.jobs[id].group.None?)
  }

  ghost predicate LocksExclude(fetchers: map<nat, Fetcher>) {
    forall i, j :: i in fetchers && j in fetchers && i != j ==>
      && fetchers[i].queueLocks !! fetchers[j].queueLocks
      && fetchers[i].groupLocks !! fetchers[j].groupLocks
      && fetchers[i].jobLocks !! fetchers[j].jobLocks
  }

  /** What holds in every state of every run, whatever rows come and whatever operators edit. */
  ghost predicate Orderly(s: Sys) {
    && Counters.Sound(s.db) && LocksExclude(s.fetchers)
    && (forall i :: i in s.fetchers ==> InOrder(s.db, s.fetchers[i]))
  }

  /** Counters exact and no fetcher in progress. */
  ghost predicate Start(s: Sys) {
    && Counters.Sound(s.db)
    && (forall i :: i in s.fetchers ==> s.fetchers[i] == Released(s.fetchers[i]))
  }

  lemma StartIsOrderly(s: Sys)
    requires Start(s)
    ensures Orderly(s)
  {
    forall i | i in s.fetchers ensures InOrder(s.db, s.fetchers[i]) {
      assert s.fetchers[i].accepted == {} && s.fetchers[i].jobLocks == {};
    }
  }

  // ---- Moves that touch no committed row ----

  lemma AcceptCounts(jobs: map<JobId, Job>, ids: set<JobId>, id: JobId, lane: Lane)
    requires id in jobs
    ensures |Among(jobs, ids + {id}, lane)| <= |Among(jobs, ids, lane)| + (if On(jobs[id], lane) then 1 else 0)
    ensures id !in ids ==>
              |Among(jobs, ids + {id}, lane)| == |Among(jobs, ids, lane)| + (if On(jobs[id], lane) then 1 else 0)
    ensures !On(jobs[id], lane) ==> Among(jobs, ids + {id}, lane) == Among(jobs, ids, lane)
  {
    var a := Among(jobs, ids, lane);
    assert Among(jobs, ids + {id}, lane) == if On(jobs[id], lane) then a + {id} else a;
  }

  lemma AmongEmpty(jobs: map<JobId, Job>, lane: Lane)
    ensures Among(jobs, {}, lane) == {}
  {
  }

  lemma LocalMoveInOrder(s: Sys, i: nat, m: Move)
    requires Orderly(s) && i in s.fetchers && CanMove(s, i, m)
    requires !m.Commit?
    ensures InOrder(s.db, Moved(s.db, s.fetchers[i], m))
  {
    hide Counters.Sound, LocksExclude, SlotOf, FirstBudget, Charge;
    assert InOrder(s.db, s.fetchers[i]);
  }

  lemma LocksStayExclusive(s: Sys, i: nat, m: Move)
    requires Orderly(s) && i in s.fetchers && CanMove(s, i, m)
    ensures LocksExclude(s.fetchers[i := Moved(s.db, s.fetchers[i], m)])
  {
    hide Counters.Sound, InOrder, ClaimFits, SlotOf, FirstBudget, BindingRows;
    var f, f' := s.fetchers[i], Moved(s.db, s.fetchers[i], m);
    NewLocksAreFree(s, i, m);
    forall j | j in s.fetchers && j != i
      ensures f'.queueLocks !! s.fetchers[j].queueLocks && f'.groupLocks !! s.fetchers[j].groupLocks
      ensures f'.jobLocks !! s.fetchers[j].jobLocks
    {
    }
  }

  /** Whatever a move locks, nobody else holds. */
  lemma NewLocksAreFree(s: Sys, i: nat, m: Move)
    requires i in s.fetchers && CanMove(s, i, m)
    ensures var f, f' := s.fetchers[i], Moved(s.db, s.fetchers[i], m);
            && (forall q :: q in f'.queueLocks && q !in f.queueLocks ==> QueueFree(s, i, q))
            && (forall g :: g in f'.groupLocks && g !in f.groupLocks ==> GroupFree(s, i, g))
            && (forall id :: id in f'.jobLocks && id !in f.jobLocks ==> JobFree(s, i, id))
  {
    hide QueueFree, GroupFree, JobFree, ClaimFits, SlotOf, FirstBudget, BindingRows;
  }

  // ---- Commit ----

  /** A commit moves no peer's job, and leaves alone every lane it took nothing from. */
  lemma CommitFrame(db: Db, f: Fetcher, p: Fetcher, lane: Lane)
    requires InOrder(db, f) && InOrder(db, p)
    ensures Among(Committed(db, f).jobs, p.accepted, lane) == Among(db.jobs, p.accepted, lane)
    ensures Among(db.jobs, f.accepted, lane) == {} ==>
              RunningOn(Committed(db, f).jobs, lane) == RunningOn(db.jobs, lane)
  {
    hide ClaimedGroups, ClaimedQueues, Writes, RunningOn;
    Counters.ClaimCounts(db.jobs, f.accepted, f.worker, f.now, lane);
  }

  lemma CommitInOrder(db: Db, f: Fetcher, p: Fetcher)
    requires InOrder(db, f) && InOrder(db, p) && f.jobLocks !! p.jobLocks
    ensures InOrder(Committed(db, f), p)
  {
    hide ClaimedGroups, ClaimedQueues, Writes;
  }

  // ---- Orderly runs ----

  lemma MoveIsOrderly(s: Sys, i: nat, m: Move)
    requires Orderly(s) && i in s.fetchers && CanMove(s, i, m)
    ensures Orderly(Next(s, By(i, m)))
  {
    hide CanMove, Moved, Committed, InOrder, Counters.Sound;
    LocksStayExclusive(s, i, m);
    if m.Commit? {
      CommitIsOrderly(s, i);
    } else {
      LocalMoveInOrder(s, i, m);
    }
  }

  lemma CommitIsOrderly(s: Sys, i: nat)
    requires Orderly(s) && i in s.fetchers && CanMove(s, i, Commit)
    ensures Counters.Sound(Committed(s.db, s.fetchers[i]))
    ensures forall j :: j in s.fetchers && j != i ==> InOrder(Committed(s.db, s.fetchers[i]), s.fetchers[j])
    ensures InOrder(Committed(s.db, s.fetchers[i]), Moved(s.db, s.fetchers[i], Commit))
  {
    hide Committed, Counters.Sound, ClaimFits;
    var f := s.fetchers[i];
    CommitIsSound(s.db, f);
    forall j | j in s.fetchers && j != i ensures InOrder(Committed(s.db, f), s.fetchers[j]) {
      CommitInOrder(s.db, f, s.fetchers[j]);
    }
  }

  lemma CommitIsSound(db: Db, f: Fetcher)
    requires Counters.Sound(db) && InOrder(db, f)
    ensures Counters.Sound(Committed(db, f))
  {
    hide Counters.Sound, Writes, Claim;
    Counters.ClaimKeeps(db, f.accepted, f.worker, f.now, Writes(db, f));
  }

  lemma EnvIsOrderly(s: Sys, e: Step)
    requires Orderly(s) && CanHappen(s, e)
    ensures Orderly(Next(s, Env(e)))
  {
    hide Apply, Enabled, Counters.Sound, LocksExclude;
    Counters.StepKeeps(s.db, e);
    forall i | i in s.fetchers ensures InOrder(Apply(s.db, e), s.fetchers[i]) {
      assert InOrder(s.db, s.fetchers[i]);
    }
  }

  lemma StepIsOrderly(s: Sys, l: Label)
    requires Orderly(s) && Can(s, l)
    ensures Orderly(Next(s, l))
  {
    hide Orderly, CanMove, CanHappen, Next;
    match l
    case Env(e) => EnvIsOrderly(s, e);
    case By(i, m) => MoveIsOrderly(s, i, m);
  }

  lemma {:induction false} RunIsOrderly(states: seq<Sys>, labels: seq<Label>, k: nat)
    requires IsRun(states, labels) && Orderly(states[0]) && k < |states|
    ensures Orderly(states[k])
  {
    hide Orderly, Can, Next;
    if k > 0 {
      RunIsOrderly(states, labels, k - 1);
      StepIsOrderly(states[k - 1], labels[k - 1]);
    }
  }

  /** The jobs a fetcher has locked are as they were. */
  ghost predicate Undisturbed(db: Db, db': Db, f: Fetcher) {
    forall id :: id in f.jobLocks ==> id in db.jobs && id in db'.jobs && db'.jobs[id] == db.jobs[id]
  }

  // ---- Runs of whole transactions ----

  lemma Extend(states: seq<Sys>, labels: seq<Label>, l: Label)
    requires IsRun(states, labels) && Can(states[|labels|], l)
    ensures IsRun(states + [Next(states[|labels|], l)], labels + [l])
  {
    hide Can, Next;
    var states', labels' := states + [Next(states[|labels|], l)], labels + [l];
    forall k | 0 <= k < |labels'| ensures Can(states'[k], labels'[k]) && states'[k + 1] == Next(states'[k], labels'[k]) {
      if k < |labels| {
        assert states'[k] == states[k] && states'[k + 1] == states[k + 1] && labels'[k] == labels[k];
      }
    }
  }

  /** The whole transaction that label `l` lands, if any. */
  ghost function TransactionOf(s: Sys, l: Label): Option<Step>
    requires Can(s, l)
  {
    match l
    case Env(e) => Some(e)
    case By(i, m) =>
      var f := s.fetchers[i];
      if m.Commit? then Some(Take(f.accepted, f.worker, f.now, Writes(s.db, f))) else None
  }

  /** Every interleaving is, on the committed tables, a run of whole transactions taken one at a time. */
  lemma MovesRefineTransactions(s: Sys, l: Label)
    requires Orderly(s) && Can(s, l)
    ensures var t := TransactionOf(s, l);
            if t.None? then Next(s, l).db == s.db
            else Enabled(s.db, t.value) && Next(s, l).db == Apply(s.db, t.value)
  {
    hide Claim, ClaimFits, LocksExclude, Moved, Candidate, Acceptable, Counters.Sound;
    if l.By? && l.move.Commit? {
      assert InOrder(s.db, s.fetchers[l.i]);
    }
  }
}
