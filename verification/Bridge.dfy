/** The two levels of the claim protocol meet here: whatever the loops of `claim_batch`
    choose, at any moment of an interleaving and around any locks its peers hold then, is
    a run of phase-by-phase moves of the interleaved model. That covers a claim during
    which no other transaction commits; claims whose phases see different committed
    states are the subject of `Interleaving` itself. */
module Bridge {
  import opened Tables
  import opened Lifecycle
  import opened TokenBucket
  import opened Budgets
  import opened Interleaving
  import opened Caps
  import Counters
  import C = ClaimBatch

  function CallOf(ask: C.Ask): Call {
    Call((set k | k in ask.kinds), (set q | q in ask.queues), ask.batchSize)
  }

  /** The rows that fetchers other than `i` hold locked. */
  ghost function PeersOf(s: Sys, i: nat): C.Peers {
    C.Peers((set j, q | j in s.fetchers && j != i && q in s.fetchers[j].queueLocks :: q),
            (set j, g | j in s.fetchers && j != i && g in s.fetchers[j].groupLocks :: g),
            (set j, id | j in s.fetchers && j != i && id in s.fetchers[j].jobLocks :: id))
  }

  function With(s: Sys, i: nat, f: Fetcher): Sys {
    Sys(s.db, s.fetchers[i := f])
  }

  /** A run from `s` to `t` in which only fetcher `i` moves. */
  ghost predicate Leads(states: seq<Sys>, labels: seq<Label>, i: nat, s: Sys, t: Sys) {
    && IsRun(states, labels) && states[0] == s && states[|labels|] == t
    && forall k :: 0 <= k < |labels| ==> labels[k].By? && labels[k].i == i
  }

  /** The peers' locks do not change while only fetcher `i` moves. */
  lemma FreeMeansNoPeer(s: Sys, i: nat, f: Fetcher)
    ensures forall q :: QueueFree(With(s, i, f), i, q) <==> q !in PeersOf(s, i).queues
    ensures forall g :: GroupFree(With(s, i, f), i, g) <==> g !in PeersOf(s, i).groups
    ensures forall id :: JobFree(With(s, i, f), i, id) <==> id !in PeersOf(s, i).jobs
  {
    forall j | j in s.fetchers && j != i ensures With(s, i, f).fetchers[j] == s.fetchers[j] {
    }
  }

  /** One local move more. */
  lemma Do(states: seq<Sys>, labels: seq<Label>, s: Sys, i: nat, f: Fetcher, m: Move) returns (states': seq<Sys>, labels': seq<Label>)
    requires Leads(states, labels, i, s, With(s, i, f)) && CanMove(With(s, i, f), i, m) && !m.Commit?
    ensures Leads(states', labels', i, s, With(s, i, Moved(s.db, f, m)))
  {
    hide Moved, QueueFree, GroupFree, JobFree, ClaimFits;
    var t := With(s, i, f);
    Extend(states, labels, By(i, m));
    assert t.fetchers[i := Moved(s.db, f, m)] == s.fetchers[i := Moved(s.db, f, m)];
    states', labels' := states + [Next(t, By(i, m))], labels + [By(i, m)];
  }

  // ---- Phase 0 ----

  /** The binding rows are locked one by one, or skipped where a peer holds them. */
  lemma LockBinding(s: Sys, i: nat, ask: C.Ask, states0: seq<Sys>, labels0: seq<Label>, f0: Fetcher)
    returns (states: seq<Sys>, labels: seq<Label>, f: Fetcher)
    requires Leads(states0, labels0, i, s, With(s, i, f0))
    requires f0.phase == LockingQueues && f0.todo == BindingRows(s.db, CallOf(ask)) && f0.budget == FirstBudget(s.db, CallOf(ask))
    ensures Leads(states, labels, i, s, With(s, i, f))
    ensures f == f0.(todo := {}, queueLocks := f.queueLocks, budget := C.Budget0(s.db, ask, PeersOf(s, i)))
  {
    hide Leads, QueueFree, QueueNeedsLock, QueueSlots, PeersOf;
    states, labels, f := states0, labels0, f0;
    var binding, peers := f0.todo, PeersOf(s, i);
    while f.todo != {}
      invariant Leads(states, labels, i, s, With(s, i, f)) && f.todo <= binding
      invariant f == f0.(todo := f.todo, queueLocks := f.queueLocks, budget := f.budget)
      invariant f.budget.Keys == f0.budget.Keys
      invariant forall q :: q in f.budget ==>
                  f.budget[q] == if q in binding - f.todo && q !in peers.queues then QueueSlots(s.db.queues[q]) else f0.budget[q]
      decreases |f.todo|
    {
      var q :| q in f.todo;
      FreeMeansNoPeer(s, i, f);
      if q in peers.queues {
        states, labels := Do(states, labels, s, i, f, SkipQueue(q));
        f := Moved(s.db, f, SkipQueue(q));
      } else {
        states, labels := Do(states, labels, s, i, f, LockQueue(q));
        f := Moved(s.db, f, LockQueue(q));
      }
    }
    assert f.budget == C.Budget0(s.db, ask, peers);
  }

  // ---- Phases 1 and 3 ----

  /** The accounts of a fetcher part way through taking `ids`. */
  ghost predicate Paid(db: Db, budget0: map<string, int>, f: Fetcher) {
    && f.jobLocks == f.accepted && f.taken == |f.accepted|
    && f.budget.Keys == budget0.Keys
    && (forall q :: q in budget0 ==> f.budget[q] == budget0[q] - |Among(db.jobs, f.accepted, QueueLane(q))|)
  }

  /** What the choice of `ids` promises of each of them. */
  ghost predicate Chosen(s: Sys, i: nat, ask: C.Ask, ids: set<JobId>) {
    C.SoundChoice(s.db, ask, PeersOf(s, i), ids)
  }

  lemma Room(jobs: map<JobId, Job>, some: set<JobId>, all: set<JobId>, id: JobId, lane: Lane)
    requires some <= all && id in all && id !in some && id in jobs && On(jobs[id], lane)
    ensures |Among(jobs, some, lane)| + 1 <= |Among(jobs, all, lane)|
  {
    var a, b := Among(jobs, some, lane), Among(jobs, all, lane);
    assert a + {id} <= b && id !in a;
    Counters.Subset(a + {id}, b);
  }

  lemma OneMore(jobs: map<JobId, Job>, some: set<JobId>, id: JobId, lane: Lane)
    requires id in jobs && id !in some
    ensures |Among(jobs, some + {id}, lane)| == |Among(jobs, some, lane)| + if On(jobs[id], lane) then 1 else 0
  {
    C.AmongOneMore(jobs, some, id, lane);
  }

  /** Any job of the choice not taken yet can be taken now. */
  lemma StillAcceptable(s: Sys, i: nat, ask: C.Ask, ids: set<JobId>, f: Fetcher, id: JobId)
    requires Chosen(s, i, ask, ids) && f.call == CallOf(ask) && f.now == ask.now && Paid(s.db, C.Budget0(s.db, ask, PeersOf(s, i)), f)
    requires f.accepted <= ids && id in ids && id !in f.accepted
    ensures Acceptable(With(s, i, f), i, id)
  {
    var peers := PeersOf(s, i);
    var budget0 := C.Budget0(s.db, ask, peers);
    assert C.Due(s.db, ask, peers, id) && s.db.jobs[id].queue in ask.queues;
    FreeMeansNoPeer(s, i, f);
    Counters.Subset(f.accepted + {id}, ids);
    var q := s.db.jobs[id].queue;
    if q in budget0 {
      Room(s.db.jobs, f.accepted, ids, id, QueueLane(q));
    }
  }

  lemma AcceptPays(db: Db, budget0: map<string, int>, f: Fetcher, id: JobId)
    requires Paid(db, budget0, f) && id in db.jobs && id !in f.accepted && BudgetFor(f.budget, db.jobs[id].queue) > 0
    ensures Paid(db, budget0, Accept(f, id, db.jobs[id].queue))
  {
    hide Among;
    var f' := Accept(f, id, db.jobs[id].queue);
    forall q | q in budget0 ensures f'.budget[q] == budget0[q] - |Among(db.jobs, f'.accepted, QueueLane(q))| {
      OneMore(db.jobs, f.accepted, id, QueueLane(q));
    }
  }

  lemma Missing(some: set<JobId>, all: set<JobId>)
    requires some <= all && some != all
    ensures all - some != {}
  {
    var x :| x in all && x !in some;
    assert x in all - some;
  }

  function Lane1(db: Db, ids: set<JobId>): set<JobId> {
    set id | id in ids && id in db.jobs && db.jobs[id].group.None?
  }

  /** Phase 1 takes the ungrouped part of the choice. */
  lemma TakeUngroupedPart(s: Sys, i: nat, ask: C.Ask, ids: set<JobId>, states0: seq<Sys>, labels0: seq<Label>, f0: Fetcher)
    returns (states: seq<Sys>, labels: seq<Label>, f: Fetcher)
    requires Chosen(s, i, ask, ids) && Leads(states0, labels0, i, s, With(s, i, f0)) && f0.phase == Ungrouped && f0.call == CallOf(ask) && f0.now == ask.now
    requires f0.accepted == {} && Paid(s.db, C.Budget0(s.db, ask, PeersOf(s, i)), f0)
    ensures Leads(states, labels, i, s, With(s, i, f)) && Paid(s.db, C.Budget0(s.db, ask, PeersOf(s, i)), f)
    ensures f == f0.(budget := f.budget, jobLocks := f.jobLocks, accepted := Lane1(s.db, ids), taken := f.taken)
  {
    hide Leads, Chosen, Paid, Acceptable;
    states, labels, f := states0, labels0, f0;
    var lane := Lane1(s.db, ids);
    while f.accepted != lane
      invariant Leads(states, labels, i, s, With(s, i, f)) && Paid(s.db, C.Budget0(s.db, ask, PeersOf(s, i)), f)
      invariant f.accepted <= lane
      invariant f == f0.(budget := f.budget, jobLocks := f.jobLocks, accepted := f.accepted, taken := f.taken)
      decreases lane - f.accepted
    {
      Missing(f.accepted, lane);
      var id :| id in lane - f.accepted;
      StillAcceptable(s, i, ask, ids, f, id);
      AcceptableSays(s, i, f, id);
      AcceptPays(s.db, C.Budget0(s.db, ask, PeersOf(s, i)), f, id);
      states, labels := Do(states, labels, s, i, f, TakeUngrouped(id));
      f := Moved(s.db, f, TakeUngrouped(id));
    }
  }

  lemma AcceptableSays(s: Sys, i: nat, f: Fetcher, id: JobId)
    requires Acceptable(With(s, i, f), i, id)
    ensures id in s.db.jobs && BudgetFor(f.budget, s.db.jobs[id].queue) > 0
  {
  }

  // ---- Phase 2 ----

  function ReadSlots(db: Db, keys: set<string>, clock: Time): map<string, Slot> {
    map g | g in keys :: C.SlotAt(db, g, clock)
  }

  /** A group the choice took from has no row, or one that no peer holds. */
  lemma GroupIsFree(s: Sys, i: nat, ask: C.Ask, ids: set<JobId>, g: string)
    requires Chosen(s, i, ask, ids) && g in GroupsOf(s.db.jobs, ids)
    ensures g in s.db.groups ==> g !in PeersOf(s, i).groups
  {
    var id :| id in ids && id in s.db.jobs && s.db.jobs[id].group == Some(g);
    assert id in Among(s.db.jobs, ids, GroupLane(g));
    assert |Among(s.db.jobs, ids, GroupLane(g))| <= C.GroupLimit(s.db, PeersOf(s, i), g, ask.clock);
  }

  lemma LockChosenGroups(s: Sys, i: nat, ask: C.Ask, ids: set<JobId>, states0: seq<Sys>, labels0: seq<Label>, f0: Fetcher)
    returns (states: seq<Sys>, labels: seq<Label>, f: Fetcher)
    requires Chosen(s, i, ask, ids) && Leads(states0, labels0, i, s, With(s, i, f0)) && f0.phase == LockingGroups
    requires f0.todo == GroupsOf(s.db.jobs, ids) && f0.slots == map[] && f0.clock == ask.clock
    ensures Leads(states, labels, i, s, With(s, i, f))
    ensures f == f0.(todo := {}, groupLocks := f.groupLocks, slots := ReadSlots(s.db, GroupsOf(s.db.jobs, ids), ask.clock))
  {
    hide Leads, Chosen, GroupFree, PeersOf, GroupsOf, SlotOf;
    states, labels, f := states0, labels0, f0;
    var keys := f0.todo;
    while f.todo != {}
      invariant Leads(states, labels, i, s, With(s, i, f)) && f.todo <= keys
      invariant f == f0.(todo := f.todo, groupLocks := f.groupLocks, slots := f.slots)
      invariant f.slots.Keys == keys - f.todo && forall g :: g in f.slots ==> f.slots[g] == C.SlotAt(s.db, g, ask.clock)
      decreases |f.todo|
    {
      var g :| g in f.todo;
      FreeMeansNoPeer(s, i, f);
      GroupIsFree(s, i, ask, ids, g);
      var m := if g in s.db.groups then LockGroup(g) else AbsentGroup(g);
      states, labels := Do(states, labels, s, i, f, m);
      f := Moved(s.db, f, m);
    }
    assert f.slots == ReadSlots(s.db, keys, ask.clock);
  }

  // ---- Phase 3 ----

  /** Each group's slots less what was taken from it. */
  ghost predicate Slotted(db: Db, keys: set<string>, clock: Time, f: Fetcher) {
    && f.slots.Keys == keys
    && forall g :: g in keys ==>
         f.slots[g] == C.SlotAt(db, g, clock).(slots := C.SlotAt(db, g, clock).slots - |Among(db.jobs, f.accepted, GroupLane(g))|)
  }

  lemma SlotLeft(s: Sys, i: nat, ask: C.Ask, ids: set<JobId>, f: Fetcher, id: JobId, g: string)
    requires Chosen(s, i, ask, ids) && Slotted(s.db, GroupsOf(s.db.jobs, ids), ask.clock, f) && f.accepted <= ids
    requires id in ids && id !in f.accepted && id in s.db.jobs && s.db.jobs[id].group == Some(g)
    ensures g in f.slots && f.slots[g].slots > 0
  {
    assert g in GroupsOf(s.db.jobs, ids);
    GroupIsFree(s, i, ask, ids, g);
    Room(s.db.jobs, f.accepted, ids, id, GroupLane(g));
    assert |Among(s.db.jobs, ids, GroupLane(g))| <= C.GroupLimit(s.db, PeersOf(s, i), g, ask.clock);
  }

  lemma AcceptSlots(db: Db, keys: set<string>, clock: Time, f: Fetcher, id: JobId, f': Fetcher)
    requires Slotted(db, keys, clock, f) && id in db.jobs && id !in f.accepted && db.jobs[id].group.Some?
    requires db.jobs[id].group.value in keys && f'.accepted == f.accepted + {id}
    requires var g := db.jobs[id].group.value; f'.slots == f.slots[g := f.slots[g].(slots := f.slots[g].slots - 1)]
    ensures Slotted(db, keys, clock, f')
  {
    hide Among, C.SlotAt;
    forall g | g in keys
      ensures f'.slots[g] == C.SlotAt(db, g, clock).(slots := C.SlotAt(db, g, clock).slots - |Among(db.jobs, f'.accepted, GroupLane(g))|)
    {
      OneMore(db.jobs, f.accepted, id, GroupLane(g));
    }
  }

  /** Phase 3 takes the rest. */
  lemma TakeGroupedPart(s: Sys, i: nat, ask: C.Ask, ids: set<JobId>, states0: seq<Sys>, labels0: seq<Label>, f0: Fetcher)
    returns (states: seq<Sys>, labels: seq<Label>, f: Fetcher)
    requires Chosen(s, i, ask, ids) && Leads(states0, labels0, i, s, With(s, i, f0)) && f0.phase == Grouped && f0.call == CallOf(ask) && f0.now == ask.now
    requires f0.accepted == Lane1(s.db, ids) && Paid(s.db, C.Budget0(s.db, ask, PeersOf(s, i)), f0)
    requires Slotted(s.db, GroupsOf(s.db.jobs, ids), ask.clock, f0)
    ensures Leads(states, labels, i, s, With(s, i, f)) && Slotted(s.db, GroupsOf(s.db.jobs, ids), ask.clock, f)
    ensures f.phase == Grouped && f.accepted == ids && f.clock == f0.clock && f.now == f0.now && f.worker == f0.worker
  {
    hide Leads, Chosen, Paid, Acceptable, Slotted, GroupsOf, PeersOf;
    states, labels, f := states0, labels0, f0;
    while f.accepted != ids
      invariant Leads(states, labels, i, s, With(s, i, f)) && Paid(s.db, C.Budget0(s.db, ask, PeersOf(s, i)), f)
      invariant Slotted(s.db, GroupsOf(s.db.jobs, ids), ask.clock, f) && Lane1(s.db, ids) <= f.accepted <= ids
      invariant f.phase == Grouped && f.call == CallOf(ask) && f.clock == f0.clock && f.now == f0.now && f.worker == f0.worker
      decreases ids - f.accepted
    {
      Missing(f.accepted, ids);
      var id :| id in ids - f.accepted;
      StillAcceptable(s, i, ask, ids, f, id);
      AcceptableSays(s, i, f, id);
      var g := s.db.jobs[id].group.value;
      SlotLeft(s, i, ask, ids, f, id, g);
      AcceptPays(s.db, C.Budget0(s.db, ask, PeersOf(s, i)), f, id);
      states, labels := Do(states, labels, s, i, f, TakeGrouped(id));
      var f' := Moved(s.db, f, TakeGrouped(id));
      SlotKeys(s.db, GroupsOf(s.db.jobs, ids), ask.clock, f);
      AcceptSlots(s.db, GroupsOf(s.db.jobs, ids), ask.clock, f, id, f');
      PaidFrame(s.db, C.Budget0(s.db, ask, PeersOf(s, i)), Accept(f, id, s.db.jobs[id].queue), f');
      f := f';
    }
  }

  lemma SlotKeys(db: Db, keys: set<string>, clock: Time, f: Fetcher)
    requires Slotted(db, keys, clock, f)
    ensures f.slots.Keys == keys
  {
  }

  lemma PaidFrame(db: Db, budget0: map<string, int>, f: Fetcher, f': Fetcher)
    requires Paid(db, budget0, f) && f' == f.(slots := f'.slots)
    ensures Paid(db, budget0, f')
  {
  }

  // ---- The whole claim ----

  lemma SameWrites(s: Sys, ids: set<JobId>, clock: Time, f: Fetcher)
    requires Slotted(s.db, GroupsOf(s.db.jobs, ids), clock, f) && f.accepted == ids && f.clock == clock
    ensures Writes(s.db, f) == C.ClaimWrites(s.db, ids, clock)
  {
    hide Among, C.SlotAt, GroupsOf, Remaining;
  }

  lemma StartsPaid(s: Sys, i: nat, ask: C.Ask, f: Fetcher)
    requires f.accepted == {} && f.jobLocks == {} && f.taken == 0 && f.budget == C.Budget0(s.db, ask, PeersOf(s, i))
    ensures Paid(s.db, C.Budget0(s.db, ask, PeersOf(s, i)), f)
  {
    hide PeersOf;
    forall lane ensures Among(s.db.jobs, {}, lane) == {} {
    }
  }

  lemma StartsSlotted(s: Sys, ids: set<JobId>, clock: Time, f: Fetcher)
    requires f.accepted == Lane1(s.db, ids) && f.slots == ReadSlots(s.db, GroupsOf(s.db.jobs, ids), clock)
    ensures Slotted(s.db, GroupsOf(s.db.jobs, ids), clock, f)
  {
    hide GroupsOf, C.SlotAt;
    forall g ensures Among(s.db.jobs, f.accepted, GroupLane(g)) == {} {
    }
  }

  lemma BeginsAlone(s: Sys, i: nat)
    requires i in s.fetchers
    ensures Leads([s], [], i, s, With(s, i, s.fetchers[i]))
  {
    assert s.fetchers[i := s.fetchers[i]] == s.fetchers;
  }

  /** Phases 0 to 3 of the choice, move by move. */
  lemma ChoiceIsARun(s: Sys, i: nat, ask: C.Ask, ids: set<JobId>)
    returns (states: seq<Sys>, labels: seq<Label>, f: Fetcher)
    requires i in s.fetchers && s.fetchers[i] == Released(s.fetchers[i]) && Chosen(s, i, ask, ids)
    ensures Leads(states, labels, i, s, With(s, i, f)) && Slotted(s.db, GroupsOf(s.db.jobs, ids), ask.clock, f)
    ensures f.phase == Grouped && f.accepted == ids && f.clock == ask.clock && f.now == ask.now && f.worker == s.fetchers[i].worker
  {
    hide Leads, Chosen, Paid, Slotted, GroupsOf, PeersOf, FirstBudget, BindingRows;
    f := s.fetchers[i];
    BeginsAlone(s, i);
    states, labels := Do([s], [], s, i, f, Begin(CallOf(ask), ask.clock, ask.now));
    f := Moved(s.db, f, Begin(CallOf(ask), ask.clock, ask.now));
    states, labels, f := LockBinding(s, i, ask, states, labels, f);
    states, labels := Do(states, labels, s, i, f, EnterUngrouped);
    f := Moved(s.db, f, EnterUngrouped);
    StartsPaid(s, i, ask, f);
    states, labels, f := TakeUngroupedPart(s, i, ask, ids, states, labels, f);
    var f1 := f;
    var keys := GroupsOf(s.db.jobs, ids);
    states, labels := Do(states, labels, s, i, f, EnterGroups(keys));
    f := Moved(s.db, f, EnterGroups(keys));
    states, labels, f := LockChosenGroups(s, i, ask, ids, states, labels, f);
    states, labels := Do(states, labels, s, i, f, EnterGrouped);
    f := Moved(s.db, f, EnterGrouped);
    StartsSlotted(s, ids, ask.clock, f);
    PaidThrough(s.db, C.Budget0(s.db, ask, PeersOf(s, i)), f1, f);
    states, labels, f := TakeGroupedPart(s, i, ask, ids, states, labels, f);
  }

  lemma PaidThrough(db: Db, budget0: map<string, int>, f: Fetcher, f': Fetcher)
    requires Paid(db, budget0, f) && f'.budget == f.budget && f'.accepted == f.accepted && f'.jobLocks == f.jobLocks && f'.taken == f.taken
    ensures Paid(db, budget0, f')
  {
  }

  /** Every claim that `claim_batch` can make, at any moment of any interleaving, around any locks held
      by peers and with no other commit between its phases, is a run of moves of that one fetcher
      ending in the very same commit. */
  lemma ClaimIsARun(s: Sys, i: nat, ask: C.Ask, ids: set<JobId>)
    returns (states: seq<Sys>, labels: seq<Label>)
    requires i in s.fetchers && s.fetchers[i] == Released(s.fetchers[i]) && s.fetchers[i].worker == ask.worker
    requires C.SoundChoice(s.db, ask, PeersOf(s, i), ids) && ids != {} && ClaimFits(s.db, ids)
    ensures IsRun(states, labels) && states[0] == s && forall k :: 0 <= k < |labels| ==> labels[k].By? && labels[k].i == i
    ensures i in states[|labels|].fetchers && states[|labels|].fetchers[i].phase == Idle
    ensures states[|labels|].db == Apply(s.db, Take(ids, ask.worker, ask.now, C.ClaimWrites(s.db, ids, ask.clock)))
  {
    hide ClaimFits, Claim, C.ClaimWrites, Writes, Slotted, C.SoundChoice, GroupsOf;
    var f;
    states, labels, f := ChoiceIsARun(s, i, ask, ids);
    SameWrites(s, ids, ask.clock, f);
    var t := With(s, i, f);
    Extend(states, labels, By(i, Commit));
    states, labels := states + [Next(t, By(i, Commit))], labels + [By(i, Commit)];
  }

  /** So such a claim, made at any moment of any interleaving, leaves every row that was within its cap
      within it, whatever the other fetchers have already chosen. */
  lemma ClaimBatchKeepsCaps(s: Sys, i: nat, ask: C.Ask, ids: set<JobId>, lane: Lane, db': Db)
    requires Orderly(s) && Capped(s, lane)
    requires i in s.fetchers && s.fetchers[i] == Released(s.fetchers[i]) && s.fetchers[i].worker == ask.worker
    requires C.SoundChoice(s.db, ask, PeersOf(s, i), ids) && ids != {} && ClaimFits(s.db, ids)
    requires db' == Apply(s.db, Take(ids, ask.worker, ask.now, C.ClaimWrites(s.db, ids, ask.clock)))
    ensures CounterOf(db', lane).Some?
    ensures |RunningOn(db'.jobs, lane)| == CounterOf(db', lane).value.running <= CounterOf(db', lane).value.max
  {
    hide C.SoundChoice, C.ClaimWrites, ClaimFits, Apply, InOrder, LocksExclude, Share;
    var states, labels := ClaimIsARun(s, i, ask, ids);
    RunIsSafe(states, labels, |labels|, lane);
  }
}
