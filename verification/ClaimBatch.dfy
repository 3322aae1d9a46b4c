/** `claim_batch` as one fetcher runs it: the loops and maps as written, against one
    database state, with the rows that peers hold locked given as sets. */
module ClaimBatch {
  import opened Tables
  import opened Lifecycle
  import opened TokenBucket
  import opened Budgets
  import Columns
  import Counters
  import Walk
  import Store

  datatype Ask = Ask(worker: WorkerId, batchSize: nat, kinds: seq<string>, queues: seq<string>, clock: Time, now: Time)

  /** Rows locked by peers: `FOR UPDATE SKIP LOCKED` does not return them. */
  datatype Peers = Peers(queues: set<string>, groups: set<string>, jobs: set<JobId>)

  // ---- Ranked selection ----

  /** ORDER BY priority DESC, scheduled_at ASC, id ASC. */
  predicate Outranks(jobs: map<JobId, Job>, a: JobId, b: JobId)
    requires a in jobs && b in jobs
  {
    var x, y := jobs[a], jobs[b];
    x.priority > y.priority
    || (x.priority == y.priority && (x.scheduledAt < y.scheduledAt || (x.scheduledAt == y.scheduledAt && a < b)))
  }

  function Set(s: seq<JobId>): set<JobId> {
    set id | id in s
  }

  predicate NoRepeats<T(==)>(s: seq<T>) {
    forall i, j :: 0 <= i < j < |s| ==> s[i] != s[j]
  }

  lemma OutranksTotal(jobs: map<JobId, Job>, a: JobId, b: JobId)
    requires a in jobs && b in jobs && a != b
    ensures Outranks(jobs, a, b) || Outranks(jobs, b, a)
  {
  }

  lemma OutranksTransitive(jobs: map<JobId, Job>, a: JobId, b: JobId, c: JobId)
    requires a in jobs && b in jobs && c in jobs && Outranks(jobs, a, b) && Outranks(jobs, b, c)
    ensures Outranks(jobs, a, c)
  {
  }

  predicate Best(jobs: map<JobId, Job>, cands: set<JobId>, b: JobId)
    requires cands <= jobs.Keys
  {
    b in cands && forall x :: x in cands && x != b ==> Outranks(jobs, b, x)
  }

  lemma BetterBest(jobs: map<JobId, Job>, cands: set<JobId>, r: JobId, m: JobId)
    requires cands <= jobs.Keys && r in cands && Best(jobs, cands - {r}, m)
    ensures Best(jobs, cands, if Outranks(jobs, r, m) then r else m)
  {
    hide Outranks;
    OutranksTotal(jobs, r, m);
    var best := if Outranks(jobs, r, m) then r else m;
    forall x | x in cands && x != best ensures Outranks(jobs, best, x) {
      if x != r && x != m && best == r {
        assert x in cands - {r};
        OutranksTransitive(jobs, r, m, x);
      }
    }
  }

  lemma {:induction false} HasBest(jobs: map<JobId, Job>, cands: set<JobId>)
    requires cands != {} && cands <= jobs.Keys
    ensures exists b :: Best(jobs, cands, b)
    decreases |cands|
  {
    hide Outranks;
    var r :| r in cands;
    if cands == {r} {
      assert Best(jobs, cands, r);
    } else {
      var rest := cands - {r};
      assert rest != {} && |rest| < |cands|;
      HasBest(jobs, rest);
      var m :| Best(jobs, rest, m);
      BetterBest(jobs, cands, r, m);
    }
  }

  /** The best `n` of `cands`, in rank order. */
  function Top(jobs: map<JobId, Job>, cands: set<JobId>, n: nat): (s: seq<JobId>)
    requires cands <= jobs.Keys
    ensures |s| <= n && Set(s) <= cands && NoRepeats(s)
    ensures s == [] <==> n == 0 || cands == {}
    ensures forall a, x :: a in s && x in cands && x !in s ==> Outranks(jobs, a, x)
    ensures forall i, j :: 0 <= i < j < |s| ==> Outranks(jobs, s[i], s[j])
  {
    if n == 0 || cands == {} then []
    else
      HasBest(jobs, cands);
      var b :| b in cands && Best(jobs, cands, b);
      var rest := Top(jobs, cands - {b}, n - 1);
      assert forall x :: x in rest ==> x in Set(rest);
      assert forall j :: 0 <= j < |rest| ==> rest[j] in rest;
      [b] + rest
  }

  // ---- Candidates ----

  predicate Due(db: Db, ask: Ask, peers: Peers, id: JobId) {
    id in db.jobs && db.jobs[id].state == Pending && db.jobs[id].scheduledAt <= ask.now
    && db.jobs[id].kind in ask.kinds && id !in peers.jobs
  }

  function UngroupedIn(db: Db, ask: Ask, peers: Peers, q: string): set<JobId> {
    set id | id in db.jobs && Due(db, ask, peers, id) && db.jobs[id].group.None? && db.jobs[id].queue == q
  }

  function GroupedIn(db: Db, ask: Ask, peers: Peers, g: string, open: seq<string>): set<JobId> {
    set id | id in db.jobs && Due(db, ask, peers, id) && db.jobs[id].group == Some(g) && db.jobs[id].queue in open
  }

  // ---- Phase 0 ----

  /** What each subscribed queue row may give: its slots, or nothing if it binds and a peer holds it. */
  function BudgetOf(db: Db, peers: Peers, q: string): int
    requires q in db.queues
  {
    if QueueNeedsLock(db.queues[q]) && q in peers.queues then 0 else QueueSlots(db.queues[q])
  }

  function Budget0(db: Db, ask: Ask, peers: Peers): map<string, int> {
    map q | q in ask.queues && q in db.queues :: BudgetOf(db, peers, q)
  }

  /** The handler timeouts of the subscribed queues that set one. */
  ghost predicate TimeoutsRead(db: Db, ask: Ask, timeouts: map<string, int>) {
    forall q :: (q in timeouts <==> q in ask.queues && q in db.queues && db.queues[q].timeout.Some? && db.queues[q].timeout.value > 0)
             && (q in timeouts ==> db.queues[q].timeout == Some(timeouts[q]))
  }

  /** The unlocked read, then the locking re-read of the rows that bind. */
  method ReadBudgets(db: Db, ask: Ask, peers: Peers) returns (budget: map<string, int>, timeouts: map<string, int>)
    ensures budget == Budget0(db, ask, peers)
    ensures TimeoutsRead(db, ask, timeouts)
    ensures forall q :: q in budget <==> q in ask.queues && q in db.queues
    ensures forall q :: q in budget ==> budget[q] == Columns.QueueRoom(db.queues[q], q in peers.queues)
  {
    hide Columns.QueueRoom;
    BudgetsAreRooms(db, ask, peers);
    var rows := set q | q in ask.queues && q in db.queues;
    var binding := set q | q in rows && QueueNeedsLock(db.queues[q]);
    budget, timeouts := map[], map[];
    var todo := rows;
    while todo != {}
      invariant todo <= rows && budget.Keys == rows - todo
      invariant forall q :: q in budget ==> budget[q] == QueueSlots(db.queues[q])
      invariant forall q :: q in timeouts <==> q in rows - todo && db.queues[q].timeout.Some? && db.queues[q].timeout.value > 0
      invariant forall q :: q in timeouts ==> db.queues[q].timeout == Some(timeouts[q])
    {
      var q :| q in todo;
      budget := budget[q := QueueSlots(db.queues[q])];
      if db.queues[q].timeout.Some? && db.queues[q].timeout.value > 0 {
        timeouts := timeouts[q := db.queues[q].timeout.value];
      }
      todo := todo - {q};
    }
    if binding != {} {
      todo := binding;
      while todo != {}
        invariant todo <= binding && budget.Keys == rows
        invariant forall q :: q in rows ==> budget[q] == if q in binding - todo then 0 else QueueSlots(db.queues[q])
      {
        var q :| q in todo;
        budget := budget[q := 0];
        todo := todo - {q};
      }
      var locked := binding - peers.queues;
      todo := locked;
      while todo != {}
        invariant todo <= locked && budget.Keys == rows
        invariant forall q :: q in rows ==>
                    budget[q] == if q in binding - (locked - todo) then 0 else QueueSlots(db.queues[q])
      {
        var q :| q in todo;
        budget := budget[q := QueueSlots(db.queues[q])];
        todo := todo - {q};
      }
    }
    assert forall q :: q in rows ==> (q in binding <==> QueueNeedsLock(db.queues[q]));
    assert budget == Budget0(db, ask, peers);
  }

  // ---- Accounting ----

  /** What was taken from each queue row and what is left fit its first budget. */
  ghost predicate Spent(db: Db, taken: set<JobId>, budget0: map<string, int>, budget: map<string, int>) {
    && budget.Keys == budget0.Keys
    && (forall q :: q in budget0 ==> 0 <= budget[q] && |Among(db.jobs, taken, QueueLane(q))| + budget[q] <= budget0[q])
  }

  /** With no job taken twice, nothing is lost either. */
  ghost predicate SpentExactly(db: Db, acc: seq<JobId>, budget0: map<string, int>, budget: map<string, int>) {
    NoRepeats(acc) ==>
      forall q :: q in budget0 && q in budget ==> |Among(db.jobs, Set(acc), QueueLane(q))| + budget[q] == budget0[q]
  }

  lemma {:induction false} TakenExactly(jobs: map<JobId, Job>, acc: seq<JobId>, rows: seq<JobId>, lane: Lane)
    requires NoRepeats(acc + rows) && forall x :: x in rows ==> x in jobs && On(jobs[x], lane)
    ensures |Among(jobs, Set(acc + rows), lane)| == |Among(jobs, Set(acc), lane)| + |rows|
    decreases |rows|
  {
    if rows == [] {
      assert acc + rows == acc;
    } else {
      var n := |rows| - 1;
      var x, init := rows[n], acc + rows[..n];
      assert acc + rows == init + [x];
      assert forall i :: 0 <= i < |init| ==> (acc + rows)[i] == init[i];
      TakenExactly(jobs, acc, rows[..n], lane);
      assert forall i :: 0 <= i < |init| ==> init[i] != (acc + rows)[|init|];
      assert x in rows && x !in init;
      assert Among(jobs, Set(acc + rows), lane) == Among(jobs, Set(init), lane) + {x};
    }
  }

  lemma SpendExactly(db: Db, acc: seq<JobId>, budget0: map<string, int>, budget: map<string, int>, q: string, rows: seq<JobId>)
    requires SpentExactly(db, acc, budget0, budget) && |rows| <= BudgetFor(budget, q)
    requires forall a :: a in rows ==> a in db.jobs && db.jobs[a].queue == q
    ensures SpentExactly(db, acc + rows, budget0, Charged(budget, q, |rows|))
  {
    if NoRepeats(acc + rows) {
      assert forall i :: 0 <= i < |acc| ==> (acc + rows)[i] == acc[i];
      assert NoRepeats(acc);
      assert Set(rows) <= db.jobs.Keys;
      var budget' := Charged(budget, q, |rows|);
      forall p | p in budget0 && p in budget' ensures |Among(db.jobs, Set(acc + rows), QueueLane(p))| + budget'[p] == budget0[p] {
        if p == q {
          TakenExactly(db.jobs, acc, rows, QueueLane(p));
        } else {
          TakenElsewhere(db.jobs, acc, rows, QueueLane(p));
        }
      }
    }
  }

  lemma TakenElsewhere(jobs: map<JobId, Job>, acc: seq<JobId>, rows: seq<JobId>, lane: Lane)
    requires forall x :: x in rows ==> x in jobs && !On(jobs[x], lane)
    ensures Among(jobs, Set(acc + rows), lane) == Among(jobs, Set(acc), lane)
  {
  }

  lemma TakenGrows(jobs: map<JobId, Job>, acc: seq<JobId>, rows: seq<JobId>, lane: Lane)
    ensures |Among(jobs, Set(acc + rows), lane)| <= |Among(jobs, Set(acc), lane)| + |rows|
  {
    var a, r := Among(jobs, Set(acc), lane), Set(rows);
    SetSize(rows);
    UnionSize(a, r, Among(jobs, Set(acc + rows), lane));
  }

  lemma UnionSize(a: set<JobId>, b: set<JobId>, c: set<JobId>)
    requires c <= a + b
    ensures |c| <= |a| + |b|
  {
    Counters.Subset(c, a + b);
  }

  // ---- Phase 1 ----

  ghost predicate FromLane(db: Db, ask: Ask, peers: Peers, id: JobId) {
    id in db.jobs && db.jobs[id].queue in ask.queues && id in UngroupedIn(db, ask, peers, db.jobs[id].queue)
  }

  /** No unclaimed ungrouped candidate outranks a claimed one of its queue. */
  ghost predicate RankClosed(db: Db, ask: Ask, peers: Peers, acc: seq<JobId>) {
    forall a, x :: a in acc && FromLane(db, ask, peers, a) && x in UngroupedIn(db, ask, peers, db.jobs[a].queue) && x !in acc ==>
      Outranks(db.jobs, a, x)
  }

  /** The accounts after the first `i` queues. */
  ghost predicate LaneOk(db: Db, ask: Ask, peers: Peers, budget0: map<string, int>, i: nat, acc: seq<JobId>, budget: map<string, int>)
    requires i <= |ask.queues|
  {
    && |acc| <= ask.batchSize
    && (forall a :: a in acc ==> FromLane(db, ask, peers, a) && db.jobs[a].queue in ask.queues[..i])
    && RankClosed(db, ask, peers, acc)
    && Spent(db, Set(acc), budget0, budget) && SpentExactly(db, acc, budget0, budget)
    && (NoRepeats(ask.queues) ==> NoRepeats(acc))
    && (acc == [] ==> budget == budget0)
    && (acc == [] && ask.batchSize > 0 ==>
          forall q :: q in ask.queues[..i] && BudgetFor(budget0, q) > 0 ==> UngroupedIn(db, ask, peers, q) == {})
  }

  lemma LaneStarts(db: Db, ask: Ask, peers: Peers, budget0: map<string, int>)
    requires forall q :: q in budget0 ==> 0 <= budget0[q]
    ensures LaneOk(db, ask, peers, budget0, 0, [], budget0)
  {
    assert Set([]) == {};
    assert forall q :: Among(db.jobs, {}, QueueLane(q)) == {};
  }

  lemma LaneSkips(db: Db, ask: Ask, peers: Peers, budget0: map<string, int>, i: nat, acc: seq<JobId>, budget: map<string, int>)
    requires i < |ask.queues| && LaneOk(db, ask, peers, budget0, i, acc, budget) && BudgetFor(budget, ask.queues[i]) <= 0
    ensures LaneOk(db, ask, peers, budget0, i + 1, acc, budget)
  {
    hide RankClosed, Spent, SpentExactly, NoRepeats, UngroupedIn, FromLane;
    assert ask.queues[..i + 1] == ask.queues[..i] + [ask.queues[i]];
  }

  lemma LaneBreaks(db: Db, ask: Ask, peers: Peers, budget0: map<string, int>, i: nat, acc: seq<JobId>, budget: map<string, int>)
    requires i <= |ask.queues| && LaneOk(db, ask, peers, budget0, i, acc, budget) && |acc| >= ask.batchSize
    ensures LaneOk(db, ask, peers, budget0, |ask.queues|, acc, budget)
  {
    hide RankClosed, Spent, SpentExactly, NoRepeats, UngroupedIn, FromLane;
    assert forall q :: q in ask.queues[..i] ==> q in ask.queues[..|ask.queues|];
  }

  /** Phase 1: per queue, the best ungrouped candidates that budget and batch size leave room for. */
  method TakeUngrouped(db: Db, ask: Ask, peers: Peers, budget0: map<string, int>)
    returns (acc: seq<JobId>, budget: map<string, int>)
    requires forall q :: q in budget0 ==> 0 <= budget0[q]
    ensures LaneOk(db, ask, peers, budget0, |ask.queues|, acc, budget)
  {
    hide LaneOk;
    acc, budget := [], budget0;
    LaneStarts(db, ask, peers, budget0);
    for i := 0 to |ask.queues|
      invariant LaneOk(db, ask, peers, budget0, i, acc, budget)
    {
      if |acc| >= ask.batchSize {
        LaneBreaks(db, ask, peers, budget0, i, acc, budget);
        return;
      }
      var q := ask.queues[i];
      var slots := BudgetFor(budget, q);
      if slots <= 0 {
        LaneSkips(db, ask, peers, budget0, i, acc, budget);
        continue;
      }
      var take := Min(slots, ask.batchSize - |acc|);
      var rows := Top(db.jobs, UngroupedIn(db, ask, peers, q), take);
      LaneTakes(db, ask, peers, budget0, i, acc, budget, rows);
      acc := acc + rows;
      budget := Charged(budget, q, |rows|);
    }
  }

  function Charged(budget: map<string, int>, q: string, n: nat): map<string, int> {
    if q in budget then budget[q := Max(budget[q] - n, 0)] else budget
  }

  /** One queue's rows keep all the accounts. */
  lemma LaneTakes(db: Db, ask: Ask, peers: Peers, budget0: map<string, int>, i: nat, acc: seq<JobId>, budget: map<string, int>,
                  rows: seq<JobId>)
    requires i < |ask.queues| && LaneOk(db, ask, peers, budget0, i, acc, budget) && |acc| < ask.batchSize
    requires var q := ask.queues[i];
             && BudgetFor(budget, q) > 0
             && rows == Top(db.jobs, UngroupedIn(db, ask, peers, q), Min(BudgetFor(budget, q), ask.batchSize - |acc|))
    ensures LaneOk(db, ask, peers, budget0, i + 1, acc + rows, Charged(budget, ask.queues[i], |rows|))
  {
    hide RankClosed, Spent, SpentExactly, NoRepeats, UngroupedIn, Outranks;
    var q := ask.queues[i];
    assert ask.queues[..i + 1] == ask.queues[..i] + [q];
    RowsAreOfLane(db, ask, peers, q, rows);
    SpendRows(db, acc, budget0, budget, q, rows);
    SpendExactly(db, acc, budget0, budget, q, rows);
    RankStays(db, ask, peers, acc, q, rows);
    NoNewRepeats(db, ask, i, acc, rows);
    if acc + rows == [] {
      assert acc == [] && rows == [];
      if q in budget {
        SpentKnows(db, Set(acc), budget0, budget, q);
        assert Charged(budget, q, 0) == budget;
      }
    }
  }

  lemma SpentKnows(db: Db, taken: set<JobId>, budget0: map<string, int>, budget: map<string, int>, q: string)
    requires Spent(db, taken, budget0, budget) && q in budget
    ensures q in budget0 && 0 <= budget[q] <= budget0[q]
  {
  }

  lemma RowsAreOfLane(db: Db, ask: Ask, peers: Peers, q: string, rows: seq<JobId>)
    requires Set(rows) <= UngroupedIn(db, ask, peers, q) && q in ask.queues
    ensures forall a :: a in rows ==> FromLane(db, ask, peers, a) && db.jobs[a].queue == q
    ensures Set(rows) <= db.jobs.Keys
  {
    forall a | a in rows ensures FromLane(db, ask, peers, a) && db.jobs[a].queue == q {
      assert a in Set(rows);
    }
  }

  lemma RankStays(db: Db, ask: Ask, peers: Peers, acc: seq<JobId>, q: string, rows: seq<JobId>)
    requires RankClosed(db, ask, peers, acc) && forall a :: a in rows ==> FromLane(db, ask, peers, a) && db.jobs[a].queue == q
    requires forall a, x :: a in rows && a in db.jobs && x in UngroupedIn(db, ask, peers, q) && x in db.jobs && x !in rows ==>
               Outranks(db.jobs, a, x)
    ensures RankClosed(db, ask, peers, acc + rows)
  {
    hide Outranks;
  }

  lemma NoNewRepeats(db: Db, ask: Ask, i: nat, acc: seq<JobId>, rows: seq<JobId>)
    requires i < |ask.queues| && (NoRepeats(ask.queues) ==> NoRepeats(acc)) && NoRepeats(rows)
    requires forall a :: a in acc ==> a in db.jobs && db.jobs[a].queue in ask.queues[..i]
    requires forall a :: a in rows ==> a in db.jobs && db.jobs[a].queue == ask.queues[i]
    ensures NoRepeats(ask.queues) ==> NoRepeats(acc + rows)
  {
    if NoRepeats(ask.queues) {
      assert ask.queues[i] !in ask.queues[..i];
      forall j, k | 0 <= j < k < |acc + rows| ensures (acc + rows)[j] != (acc + rows)[k] {
        if j < |acc| <= k {
          assert acc[j] in acc && rows[k - |acc|] in rows;
        }
      }
    }
  }

  lemma SpendRows(db: Db, acc: seq<JobId>, budget0: map<string, int>, budget: map<string, int>, q: string, rows: seq<JobId>)
    requires Spent(db, Set(acc), budget0, budget) && Set(rows) <= db.jobs.Keys && |rows| <= BudgetFor(budget, q)
    requires forall a :: a in rows ==> a in db.jobs && db.jobs[a].queue == q
    ensures Spent(db, Set(acc + rows), budget0, Charged(budget, q, |rows|))
  {
    var budget' := Charged(budget, q, |rows|);
    forall p | p in budget0
      ensures 0 <= budget'[p] && |Among(db.jobs, Set(acc + rows), QueueLane(p))| + budget'[p] <= budget0[p]
    {
      if p == q {
        TakenGrows(db.jobs, acc, rows, QueueLane(p));
      } else {
        TakenElsewhere(db.jobs, acc, rows, QueueLane(p));
      }
    }
  }

  // ---- Phase 2 ----

  function SlotAt(db: Db, g: string, clock: Time): Slot {
    if g in db.groups then SlotOf(db.groups[g], clock) else UNLIMITED
  }

  /** The groups this fetcher may take from: every key but those whose row a peer holds. */
  function Slots0(db: Db, peers: Peers, keys: set<string>, clock: Time): map<string, Slot> {
    map g | g in keys && !(g in db.groups && g in peers.groups) :: SlotAt(db, g, clock)
  }

  /** Lock the rows that are free, then tell absent rows from locked ones by a second read. */
  method LockGroups(db: Db, peers: Peers, keys: set<string>, clock: Time) returns (slots: map<string, Slot>)
    ensures slots == Slots0(db, peers, keys, clock)
    ensures forall g :: g in slots <==> g in keys && !(g in db.groups && g in peers.groups)
    ensures forall g :: g in slots && g in db.groups ==>
              && slots[g].slots == Columns.GroupRoom(db.groups[g], clock) && slots[g].limited == Columns.HasRate(db.groups[g])
              && (Columns.HasRate(db.groups[g]) ==> slots[g].tokens == Columns.Balance(db.groups[g], clock))
    ensures forall g :: g in slots && g !in db.groups ==> slots[g] == Slot(2147483647, 0.0, false)
  {
    forall g | g in db.groups
      ensures var s := SlotAt(db, g, clock);
              && s.slots == Columns.GroupRoom(db.groups[g], clock) && s.limited == Columns.HasRate(db.groups[g])
              && (Columns.HasRate(db.groups[g]) ==> s.tokens == Columns.Balance(db.groups[g], clock))
    {
      SlotIsRoom(db.groups[g], clock);
    }
    hide SlotOf, Columns.GroupRoom, Columns.HasRate, Columns.Balance;
    var locked := set g | g in keys && g in db.groups && g !in peers.groups;
    slots := map[];
    var todo := locked;
    while todo != {}
      invariant todo <= locked && slots.Keys == locked - todo
      invariant forall g :: g in slots ==> slots[g] == SlotAt(db, g, clock)
    {
      var g :| g in todo;
      slots := slots[g := SlotOf(db.groups[g], clock)];
      todo := todo - {g};
    }
    var existing := set g | g in keys && g in db.groups;
    todo := keys;
    while todo != {}
      invariant todo <= keys && slots.Keys == locked + (keys - todo - existing)
      invariant forall g :: g in slots ==> slots[g] == SlotAt(db, g, clock)
    {
      var g :| g in todo;
      if g !in existing {
        slots := slots[g := UNLIMITED];
      }
      todo := todo - {g};
    }
  }

  // ---- Phase 3 ----

  /** What phase 3 starts from. */
  datatype Ctx = Ctx(db: Db, ask: Ask, peers: Peers, open: seq<string>, budget0: map<string, int>, budget1: map<string, int>,
                     acc1: seq<JobId>, slots0: map<string, Slot>)

  ghost predicate FromGroup(c: Ctx, done: set<string>, id: JobId) {
    id in c.db.jobs && c.db.jobs[id].group.Some? && c.db.jobs[id].group.value in done
    && id in GroupedIn(c.db, c.ask, c.peers, c.db.jobs[id].group.value, c.open)
  }

  /** What was taken from group `g` and what is left fit its first slots. */
  ghost predicate Slotted(c: Ctx, acc: seq<JobId>, slots: map<string, Slot>, g: string)
    requires g in slots && g in c.slots0
  {
    && 0 <= slots[g].slots && |Among(c.db.jobs, Set(acc), GroupLane(g))| + slots[g].slots <= c.slots0[g].slots
    && slots[g] == c.slots0[g].(slots := slots[g].slots)
  }

  ghost predicate Lower(b: map<string, int>, a: map<string, int>) {
    b.Keys == a.Keys && forall q :: q in a ==> b[q] <= a[q]
  }

  /** Candidate `x` was passed over rightly: every claimed job of its group outranks it, or its queue ran out. */
  ghost predicate PassedOver(c: Ctx, acc: seq<JobId>, budget: map<string, int>, x: JobId)
    requires x in c.db.jobs
  {
    || BudgetFor(budget, c.db.jobs[x].queue) <= 0
    || (forall a :: a in acc && a in c.db.jobs && c.db.jobs[a].group == c.db.jobs[x].group ==> Outranks(c.db.jobs, a, x))
  }

  ghost predicate Fair(c: Ctx, done: set<string>, acc: seq<JobId>, budget: map<string, int>) {
    forall g, x :: g in done && x in GroupedIn(c.db, c.ask, c.peers, g, c.open) && x !in acc ==> PassedOver(c, acc, budget, x)
  }

  /** The accounts once only the groups in `done` have been served. */
  ghost predicate GroupOk(c: Ctx, done: set<string>, acc: seq<JobId>, budget: map<string, int>, slots: map<string, Slot>) {
    && |c.acc1| <= |acc| <= c.ask.batchSize && acc[..|c.acc1|] == c.acc1
    && (forall k :: |c.acc1| <= k < |acc| ==> FromGroup(c, done, acc[k]))
    && Spent(c.db, Set(acc), c.budget0, budget) && SpentExactly(c.db, acc, c.budget0, budget) && Lower(budget, c.budget1)
    && slots.Keys == c.slots0.Keys && (forall g :: g in slots ==> Slotted(c, acc, slots, g))
    && (forall g :: g in slots && g !in done ==> slots[g] == c.slots0[g])
    && (NoRepeats(c.acc1) ==> NoRepeats(acc))
    && (acc == [] ==> budget == c.budget1)
  }

  ghost predicate CtxOk(c: Ctx) {
    && c.ask.batchSize > 0 && |c.acc1| <= c.ask.batchSize
    && (forall a :: a in c.acc1 ==> FromLane(c.db, c.ask, c.peers, a))
    && Spent(c.db, Set(c.acc1), c.budget0, c.budget1) && SpentExactly(c.db, c.acc1, c.budget0, c.budget1)
    && (forall q :: q in c.open ==> BudgetFor(c.budget1, q) > 0)
    && (forall g :: g in c.slots0 ==> 0 <= c.slots0[g].slots)
  }

  /** Nothing could be taken from the groups in `done`. */
  ghost predicate Starved(c: Ctx, done: set<string>) {
    forall g :: g in done && g in c.slots0 ==> c.slots0[g].slots <= 0 || GroupedIn(c.db, c.ask, c.peers, g, c.open) == {}
  }

  lemma GroupStarts(c: Ctx)
    requires CtxOk(c)
    ensures GroupOk(c, {}, c.acc1, c.budget1, c.slots0)
  {
    forall g | g in c.slots0 ensures Slotted(c, c.acc1, c.slots0, g) {
      assert Among(c.db.jobs, Set(c.acc1), GroupLane(g)) == {};
    }
  }

  /** Serving one more group, nothing taken from it yet. */
  lemma GroupOpens(c: Ctx, done: set<string>, key: string, acc: seq<JobId>, budget: map<string, int>, slots: map<string, Slot>)
    requires GroupOk(c, done, acc, budget, slots)
    ensures GroupOk(c, done + {key}, acc, budget, slots)
  {
    hide Spent, SpentExactly, Lower, Slotted, NoRepeats, GroupedIn;
  }

  lemma AcceptKeepsSlots(c: Ctx, acc: seq<JobId>, slots: map<string, Slot>, id: JobId, key: string, g: string)
    requires g in slots && g in c.slots0 && key in slots && key in c.slots0 && Slotted(c, acc, slots, g)
    requires id in c.db.jobs && c.db.jobs[id].group == Some(key) && slots[key].slots > 0
    ensures Slotted(c, acc + [id], slots[key := slots[key].(slots := slots[key].slots - 1)], g)
  {
    assert Set([id]) == {id};
    if g == key {
      TakenGrows(c.db.jobs, acc, [id], GroupLane(g));
    } else {
      TakenElsewhere(c.db.jobs, acc, [id], GroupLane(g));
    }
  }

  /** Accepting one candidate of the group being served. */
  lemma GroupAccepts(c: Ctx, done: set<string>, key: string, acc: seq<JobId>, budget: map<string, int>, slots: map<string, Slot>,
                     id: JobId)
    requires GroupOk(c, done, acc, budget, slots) && key in done && key in slots && slots[key].slots > 0 && |acc| < c.ask.batchSize
    requires id in GroupedIn(c.db, c.ask, c.peers, key, c.open) && id !in acc
    requires BudgetFor(budget, c.db.jobs[id].queue) > 0
    ensures GroupOk(c, done, acc + [id], Charge(budget, c.db.jobs[id].queue), slots[key := slots[key].(slots := slots[key].slots - 1)])
  {
    var q, acc', slots' := c.db.jobs[id].queue, acc + [id], slots[key := slots[key].(slots := slots[key].slots - 1)];
    forall g | g in slots' ensures Slotted(c, acc', slots', g) {
      AcceptKeepsSlots(c, acc, slots, id, key, g);
    }
    AcceptSpends(c, acc, budget, id);
    AcceptLowers(c, budget, c.db.jobs[id].queue);
    AcceptKeepsOrigin(c, done, key, acc, id);
    hide Spent, SpentExactly, Lower, Slotted, GroupedIn, FromGroup;
  }

  lemma AcceptSpends(c: Ctx, acc: seq<JobId>, budget: map<string, int>, id: JobId)
    requires Spent(c.db, Set(acc), c.budget0, budget) && id in c.db.jobs && BudgetFor(budget, c.db.jobs[id].queue) > 0
    requires SpentExactly(c.db, acc, c.budget0, budget)
    ensures Spent(c.db, Set(acc + [id]), c.budget0, Charge(budget, c.db.jobs[id].queue))
    ensures SpentExactly(c.db, acc + [id], c.budget0, Charge(budget, c.db.jobs[id].queue))
  {
    hide SpentExactly;
    assert Set([id]) == {id};
    SpendRows(c.db, acc, c.budget0, budget, c.db.jobs[id].queue, [id]);
    SpendExactly(c.db, acc, c.budget0, budget, c.db.jobs[id].queue, [id]);
  }

  lemma AcceptLowers(c: Ctx, budget: map<string, int>, q: string)
    requires Lower(budget, c.budget1) && BudgetFor(budget, q) > 0
    ensures Lower(Charge(budget, q), c.budget1)
  {
  }

  lemma AcceptKeepsOrigin(c: Ctx, done: set<string>, key: string, acc: seq<JobId>, id: JobId)
    requires |c.acc1| <= |acc| && (forall k :: |c.acc1| <= k < |acc| ==> FromGroup(c, done, acc[k]))
    requires key in done && id in GroupedIn(c.db, c.ask, c.peers, key, c.open)
    ensures forall k :: |c.acc1| <= k < |acc + [id]| ==> FromGroup(c, done, (acc + [id])[k])
  {
  }

  /** The rows of the group being served, read so far, are the only ones of it taken. */
  ghost predicate OnlySeen(c: Ctx, key: string, acc: seq<JobId>, seen: seq<JobId>) {
    forall a :: a in acc && a in c.db.jobs && c.db.jobs[a].group == Some(key) ==> a in seen
  }

  lemma UngroupedHasNoGroup(db: Db, ask: Ask, peers: Peers, id: JobId)
    requires FromLane(db, ask, peers, id)
    ensures db.jobs[id].group.None?
  {
  }

  lemma NoneSeen(c: Ctx, done: set<string>, key: string, acc: seq<JobId>, budget: map<string, int>, slots: map<string, Slot>)
    requires CtxOk(c) && GroupOk(c, done, acc, budget, slots) && key !in done
    ensures OnlySeen(c, key, acc, [])
  {
    hide Spent, SpentExactly, Lower, Slotted, NoRepeats, GroupedIn;
    forall a | a in acc && a in c.db.jobs ensures c.db.jobs[a].group != Some(key) {
      var k :| 0 <= k < |acc| && acc[k] == a;
      if k < |c.acc1| {
        assert acc[..|c.acc1|][k] in c.acc1;
        UngroupedHasNoGroup(c.db, c.ask, c.peers, a);
      } else {
        assert FromGroup(c, done, a);
      }
    }
  }

  lemma FairStarts(c: Ctx)
    ensures Fair(c, {}, c.acc1, c.budget1)
  {
  }

  /** The rows read so far and not accepted were dropped because their queue had run out. */
  ghost predicate Dropped(c: Ctx, seen: seq<JobId>, acc: seq<JobId>, budget: map<string, int>) {
    forall x :: x in seen && x !in acc && x in c.db.jobs ==> BudgetFor(budget, c.db.jobs[x].queue) <= 0
  }

  lemma AcceptKeepsFair(c: Ctx, done: set<string>, key: string, seen: seq<JobId>, acc: seq<JobId>, budget: map<string, int>, id: JobId)
    requires Fair(c, done, acc, budget) && Dropped(c, seen, acc, budget) && OnlySeen(c, key, acc, seen) && key !in done
    requires id in c.db.jobs && c.db.jobs[id].group == Some(key) && BudgetFor(budget, c.db.jobs[id].queue) > 0
    ensures Fair(c, done, acc + [id], Charge(budget, c.db.jobs[id].queue))
    ensures Dropped(c, seen + [id], acc + [id], Charge(budget, c.db.jobs[id].queue)) && OnlySeen(c, key, acc + [id], seen + [id])
  {
    hide Outranks;
    var acc', budget' := acc + [id], Charge(budget, c.db.jobs[id].queue);
    forall g, x | g in done && x in GroupedIn(c.db, c.ask, c.peers, g, c.open) && x !in acc' ensures PassedOver(c, acc', budget', x) {
      assert x !in acc && PassedOver(c, acc, budget, x);
    }
  }

  /** Serving a group in rank order passes nobody over wrongly. */
  lemma GroupIsFair(c: Ctx, done: set<string>, key: string, n: nat, rows: seq<JobId>, i: nat, acc: seq<JobId>, budget: map<string, int>)
    requires Fair(c, done, acc, budget) && rows == Top(c.db.jobs, GroupedIn(c.db, c.ask, c.peers, key, c.open), n) && i <= |rows|
    requires OnlySeen(c, key, acc, rows[..i]) && Dropped(c, rows[..i], acc, budget)
    ensures Fair(c, done + {key}, acc, budget)
  {
    hide Outranks;
    forall x | x in GroupedIn(c.db, c.ask, c.peers, key, c.open) && x !in acc ensures PassedOver(c, acc, budget, x) {
      if x !in rows[..i] {
        forall a | a in acc && a in c.db.jobs && c.db.jobs[a].group == Some(key) ensures Outranks(c.db.jobs, a, x) {
          var k :| 0 <= k < i && rows[k] == a;
          if x in rows {
            var m :| 0 <= m < |rows| && rows[m] == x;
          }
        }
      }
    }
  }

  lemma UnservedIsFair(c: Ctx, done: set<string>, keys: set<string>, acc: seq<JobId>, budget: map<string, int>, slots: map<string, Slot>)
    requires CtxOk(c) && GroupOk(c, done, acc, budget, slots) && Fair(c, done, acc, budget)
    ensures Fair(c, done + keys, acc, budget)
  {
    hide GroupOk, CtxOk, Outranks;
    forall g, x | g in keys && g !in done && x in GroupedIn(c.db, c.ask, c.peers, g, c.open) && x !in acc
      ensures PassedOver(c, acc, budget, x)
    {
      NoneSeen(c, done, g, acc, budget, slots);
    }
  }

  /** One group of phase 3: take its best candidates, dropping those whose queue ran out. */
  method TakeFromGroup(c: Ctx, ghost done: set<string>, key: string, acc0: seq<JobId>, budget0: map<string, int>, slots0: map<string, Slot>)
    returns (acc: seq<JobId>, budget: map<string, int>, slots: map<string, Slot>)
    requires CtxOk(c) && GroupOk(c, done, acc0, budget0, slots0) && key !in done && key in slots0
    requires slots0[key].slots > 0 && |acc0| < c.ask.batchSize && Fair(c, done, acc0, budget0)
    ensures GroupOk(c, done + {key}, acc, budget, slots) && Fair(c, done + {key}, acc, budget)
    ensures acc0 != [] || GroupedIn(c.db, c.ask, c.peers, key, c.open) != {} ==> acc != []
  {
    hide GroupOk, CtxOk, NoRepeats, Fair, Outranks, OnlySeen, Dropped, Due;
    acc, budget, slots := acc0, budget0, slots0;
    var cands := GroupedIn(c.db, c.ask, c.peers, key, c.open);
    var take := Min(slots[key].slots, c.ask.batchSize - |acc|);
    var rows := Top(c.db.jobs, cands, take);
    NoneSeen(c, done, key, acc, budget, slots);
    GroupOpens(c, done, key, acc, budget, slots);
    NoneDropped(c, acc, budget);
    assert rows[..0] == [];
    var i := 0;
    while i < |rows|
      invariant i <= |rows| && GroupOk(c, done + {key}, acc, budget, slots) && key in slots
      invariant OnlySeen(c, key, acc, rows[..i]) && Dropped(c, rows[..i], acc, budget) && Fair(c, done, acc, budget)
      invariant i > 0 || acc0 != [] ==> acc != []
      invariant acc == [] ==> slots[key].slots > 0 && |acc| < c.ask.batchSize
    {
      if |acc| >= c.ask.batchSize || slots[key].slots <= 0 {
        break;
      }
      var id := rows[i];
      assert id in Set(rows);
      var q := c.db.jobs[id].queue;
      NotTaken(c, key, rows, i, acc);
      assert rows[..i + 1] == rows[..i] + [id];
      i := i + 1;
      if BudgetFor(budget, q) <= 0 {
        FirstIsAffordable(c, done + {key}, acc, budget, slots, q);
        DropKeeps(c, key, rows[..i - 1], acc, budget, id);
        continue;
      }
      GroupAccepts(c, done + {key}, key, acc, budget, slots, id);
      AcceptKeepsFair(c, done, key, rows[..i - 1], acc, budget, id);
      acc := acc + [id];
      slots := slots[key := slots[key].(slots := slots[key].slots - 1)];
      budget := Charge(budget, q);
    }
    GroupIsFair(c, done, key, take, rows, i, acc, budget);
  }

  /** The next row has not been taken yet: only earlier rows of its group have. */
  lemma NotTaken(c: Ctx, key: string, rows: seq<JobId>, i: nat, acc: seq<JobId>)
    requires NoRepeats(rows) && i < |rows| && OnlySeen(c, key, acc, rows[..i])
    requires rows[i] in c.db.jobs && c.db.jobs[rows[i]].group == Some(key)
    ensures rows[i] !in acc
  {
    assert rows[i] !in rows[..i];
  }

  lemma NoneDropped(c: Ctx, acc: seq<JobId>, budget: map<string, int>)
    ensures Dropped(c, [], acc, budget)
  {
  }

  lemma DropKeeps(c: Ctx, key: string, seen: seq<JobId>, acc: seq<JobId>, budget: map<string, int>, id: JobId)
    requires OnlySeen(c, key, acc, seen) && Dropped(c, seen, acc, budget)
    requires id in c.db.jobs && BudgetFor(budget, c.db.jobs[id].queue) <= 0
    ensures OnlySeen(c, key, acc, seen + [id]) && Dropped(c, seen + [id], acc, budget)
  {
  }

  /** While nothing has been accepted, no open queue has run out. */
  lemma FirstIsAffordable(c: Ctx, done: set<string>, acc: seq<JobId>, budget: map<string, int>, slots: map<string, Slot>, q: string)
    requires CtxOk(c) && GroupOk(c, done, acc, budget, slots) && q in c.open && BudgetFor(budget, q) <= 0
    ensures acc != []
  {
  }

  /** Phase 3: serve the groups in any order until the batch is full. */
  method TakeGrouped(c: Ctx) returns (acc: seq<JobId>, budget: map<string, int>, slots: map<string, Slot>)
    requires CtxOk(c)
    ensures GroupOk(c, c.slots0.Keys, acc, budget, slots) && Fair(c, c.slots0.Keys, acc, budget)
    ensures acc == [] ==> Starved(c, c.slots0.Keys)
  {
    hide GroupOk, CtxOk, NoRepeats, Spent, SpentExactly, Fair;
    acc, budget, slots := c.acc1, c.budget1, c.slots0;
    GroupStarts(c);
    FairStarts(c);
    var todo := c.slots0.Keys;
    assert c.slots0.Keys - todo == {};
    while todo != {}
      invariant todo <= c.slots0.Keys && GroupOk(c, c.slots0.Keys - todo, acc, budget, slots)
      invariant Fair(c, c.slots0.Keys - todo, acc, budget)
      invariant acc == [] ==> Starved(c, c.slots0.Keys - todo)
    {
      var key :| key in todo;
      ghost var done := c.slots0.Keys - todo;
      assert done + {key} == c.slots0.Keys - (todo - {key});
      KeysKnown(c, done, acc, budget, slots);
      if |acc| >= c.ask.batchSize {
        GroupBreaks(c, done, acc, budget, slots);
        UnservedIsFair(c, done, c.slots0.Keys, acc, budget, slots);
        assert done + c.slots0.Keys == c.slots0.Keys;
        return;
      }
      GroupOpens(c, done, key, acc, budget, slots);
      todo := todo - {key};
      if slots[key].slots <= 0 {
        UnservedIsFair(c, done, {key}, acc, budget, slots);
        continue;
      }
      acc, budget, slots := TakeFromGroup(c, done, key, acc, budget, slots);
    }
    assert c.slots0.Keys - todo == c.slots0.Keys;
  }

  lemma KeysKnown(c: Ctx, done: set<string>, acc: seq<JobId>, budget: map<string, int>, slots: map<string, Slot>)
    requires GroupOk(c, done, acc, budget, slots)
    ensures slots.Keys == c.slots0.Keys && forall g :: g in slots && g !in done ==> slots[g] == c.slots0[g]
  {
  }

  lemma GroupBreaks(c: Ctx, done: set<string>, acc: seq<JobId>, budget: map<string, int>, slots: map<string, Slot>)
    requires CtxOk(c) && GroupOk(c, done, acc, budget, slots) && done <= c.slots0.Keys && |acc| >= c.ask.batchSize
    ensures GroupOk(c, c.slots0.Keys, acc, budget, slots) && acc != []
  {
    hide Spent, SpentExactly, Lower, Slotted, NoRepeats, GroupedIn;
  }

  // ---- Choosing: phases 0 to 3 ----

  /** The most a claim may take from group `g`. */
  function GroupLimit(db: Db, peers: Peers, g: string, clock: Time): int {
    if g in db.groups && g in peers.groups then 0 else SlotAt(db, g, clock).slots
  }

  /** Every claimed job is a due candidate of a subscribed queue that no peer holds; queue budgets and
      group slots are respected; and within a queue no unclaimed ungrouped candidate outranks a claimed one. */
  ghost predicate SoundChoice(db: Db, ask: Ask, peers: Peers, ids: set<JobId>) {
    && |ids| <= ask.batchSize
    && (forall id :: id in ids ==> Due(db, ask, peers, id) && db.jobs[id].queue in ask.queues)
    && (forall q :: q in ask.queues && q in db.queues ==> |Among(db.jobs, ids, QueueLane(q))| <= BudgetOf(db, peers, q))
    && (forall g :: |Among(db.jobs, ids, GroupLane(g))| <= GroupLimit(db, peers, g, ask.clock))
    && (forall a, x :: (a in ids && Due(db, ask, peers, a) && db.jobs[a].group.None?
                        && x in UngroupedIn(db, ask, peers, db.jobs[a].queue) && x !in ids) ==> Outranks(db.jobs, a, x))
  }

  /** Within a group, a candidate passed over is outranked by every claimed job of that group, or its
      queue's whole budget went to others. */
  ghost predicate FairChoice(db: Db, ask: Ask, peers: Peers, ids: set<JobId>) {
    forall a, x :: (a in ids && a in db.jobs && Due(db, ask, peers, x) && db.jobs[x].queue in ask.queues
                    && db.jobs[x].group.Some? && db.jobs[a].group == db.jobs[x].group && x !in ids) ==>
      || Outranks(db.jobs, a, x)
      || (db.jobs[x].queue in db.queues
          && |Among(db.jobs, ids, QueueLane(db.jobs[x].queue))| == BudgetOf(db, peers, db.jobs[x].queue))
  }

  lemma ChoiceIsFair(c: Ctx, keys: set<string>, acc: seq<JobId>, budget: map<string, int>, slots: map<string, Slot>)
    requires c.budget0 == Budget0(c.db, c.ask, c.peers) && c.slots0 == Slots0(c.db, c.peers, keys, c.ask.clock)
    requires c.open == Open(c.ask.queues, c.budget1) && NoRepeats(acc) && Spent(c.db, Set(c.acc1), c.budget0, c.budget1)
    requires forall a :: a in c.acc1 ==> FromLane(c.db, c.ask, c.peers, a)
    requires GroupOk(c, c.slots0.Keys, acc, budget, slots) && Fair(c, c.slots0.Keys, acc, budget)
    ensures FairChoice(c.db, c.ask, c.peers, Set(acc))
  {
    hide Outranks, SlotAt, NoRepeats, Slotted, Fair, BudgetOf;
    forall a, x | a in acc && a in c.db.jobs && Due(c.db, c.ask, c.peers, x) && c.db.jobs[x].queue in c.ask.queues
                  && c.db.jobs[x].group.Some? && c.db.jobs[a].group == c.db.jobs[x].group && x !in acc
      ensures Outranks(c.db.jobs, a, x)
              || (c.db.jobs[x].queue in c.db.queues
                  && |Among(c.db.jobs, Set(acc), QueueLane(c.db.jobs[x].queue))| == BudgetOf(c.db, c.peers, c.db.jobs[x].queue))
    {
      OriginOf(c, acc, budget, slots, a);
      var q, g := c.db.jobs[x].queue, c.db.jobs[x].group.value;
      if q in c.open {
        assert x in GroupedIn(c.db, c.ask, c.peers, g, c.open);
        FairSays(c, c.slots0.Keys, acc, budget, g, x);
      }
      if BudgetFor(budget, q) <= 0 {
        ExhaustedQueue(c, acc, budget, q);
      }
    }
  }

  lemma FairSays(c: Ctx, done: set<string>, acc: seq<JobId>, budget: map<string, int>, g: string, x: JobId)
    requires Fair(c, done, acc, budget) && g in done && x in GroupedIn(c.db, c.ask, c.peers, g, c.open) && x !in acc
    ensures PassedOver(c, acc, budget, x)
  {
  }

  /** A queue left without budget gave all it had. */
  lemma ExhaustedQueue(c: Ctx, acc: seq<JobId>, budget: map<string, int>, q: string)
    requires c.budget0 == Budget0(c.db, c.ask, c.peers) && NoRepeats(acc) && q in c.ask.queues && BudgetFor(budget, q) <= 0
    requires Spent(c.db, Set(acc), c.budget0, budget) && SpentExactly(c.db, acc, c.budget0, budget)
    ensures q in c.db.queues && |Among(c.db.jobs, Set(acc), QueueLane(q))| == BudgetOf(c.db, c.peers, q)
  {
    assert q in c.budget0;
  }

  /** Some due job could be started: its queue has room, and it is ungrouped or its group has room. */
  ghost predicate HasWork(db: Db, ask: Ask, peers: Peers) {
    exists id :: Columns.MayStart(db, id, ask.kinds, ask.queues, ask.now, ask.clock, peers.queues, peers.groups, peers.jobs)
  }

  // ---- The same in the columns ----

  lemma BudgetIsRoom(db: Db, peers: Peers, q: string)
    requires q in db.queues
    ensures BudgetOf(db, peers, q) == Columns.QueueRoom(db.queues[q], q in peers.queues)
  {
  }

  lemma LimitIsRoom(db: Db, peers: Peers, g: string, clock: Time)
    ensures GroupLimit(db, peers, g, clock)
         == if g in db.groups then if g in peers.groups then 0 else Columns.GroupRoom(db.groups[g], clock) else 2147483647
  {
    if g in db.groups {
      SlotIsRoom(db.groups[g], clock);
    }
  }

  lemma BudgetsAreRooms(db: Db, ask: Ask, peers: Peers)
    ensures forall q :: q in Budget0(db, ask, peers) <==> q in ask.queues && q in db.queues
    ensures forall q :: q in Budget0(db, ask, peers) ==> Budget0(db, ask, peers)[q] == Columns.QueueRoom(db.queues[q], q in peers.queues)
  {
  }

  /** A job that may start is a candidate with budget and slots, as the phases see it. */
  lemma WorkIsSeen(db: Db, ask: Ask, peers: Peers, id: JobId)
    requires Columns.MayStart(db, id, ask.kinds, ask.queues, ask.now, ask.clock, peers.queues, peers.groups, peers.jobs)
    ensures Due(db, ask, peers, id) && db.jobs[id].queue in ask.queues
    ensures BudgetFor(Budget0(db, ask, peers), db.jobs[id].queue) > 0
    ensures db.jobs[id].group.Some? ==> GroupLimit(db, peers, db.jobs[id].group.value, ask.clock) > 0
  {
    var j := db.jobs[id];
    if j.queue in db.queues {
      BudgetIsRoom(db, peers, j.queue);
    }
    if j.group.Some? {
      LimitIsRoom(db, peers, j.group.value, ask.clock);
    }
  }

  /** The claimed jobs are eligible and free, within every row's room, and the best of their queues. */
  ghost predicate ByColumns(db: Db, ask: Ask, peers: Peers, ids: set<JobId>) {
    && |ids| <= ask.batchSize
    && (forall id :: id in ids ==> id in db.jobs && id !in peers.jobs && Columns.Eligible(db.jobs[id], ask.kinds, ask.queues, ask.now))
    && (forall q :: q in ask.queues && q in db.queues ==>
          |Columns.OnQueue(db.jobs, ids, q)| <= Columns.QueueRoom(db.queues[q], q in peers.queues))
    && (forall g :: g in db.groups ==>
          |Columns.InGroup(db.jobs, ids, g)| <= if g in peers.groups then 0 else Columns.GroupRoom(db.groups[g], ask.clock))
    && (forall a, x :: a in ids && a in db.jobs && PassedInQueue(db, ask, peers, ids, db.jobs[a], x) ==>
          Columns.RanksBefore(a, db.jobs[a], x, db.jobs[x]))
  }

  /** An eligible, free, ungrouped job of the same queue as the ungrouped job `j` was not claimed. */
  ghost predicate PassedInQueue(db: Db, ask: Ask, peers: Peers, ids: set<JobId>, j: Job, x: JobId) {
    && x in db.jobs && x !in ids && x !in peers.jobs && Columns.Eligible(db.jobs[x], ask.kinds, ask.queues, ask.now)
    && j.group.None? && db.jobs[x].group.None? && db.jobs[x].queue == j.queue
  }

  lemma OnIsAmong(jobs: map<JobId, Job>, ids: set<JobId>)
    ensures forall q :: Columns.OnQueue(jobs, ids, q) == Among(jobs, ids, QueueLane(q))
    ensures forall g :: Columns.InGroup(jobs, ids, g) == Among(jobs, ids, GroupLane(g))
  {
  }

  lemma RankIsRank(jobs: map<JobId, Job>, a: JobId, x: JobId)
    requires a in jobs && x in jobs
    ensures Outranks(jobs, a, x) <==> Columns.RanksBefore(a, jobs[a], x, jobs[x])
  {
  }

  lemma SoundByColumns(db: Db, ask: Ask, peers: Peers, ids: set<JobId>)
    requires SoundChoice(db, ask, peers, ids)
    ensures ByColumns(db, ask, peers, ids)
  {
    OnIsAmong(db.jobs, ids);
    hide Among, Columns.OnQueue, Columns.InGroup, Columns.QueueRoom, Columns.GroupRoom, BudgetOf, GroupLimit, Outranks, Columns.RanksBefore;
    forall q | q in ask.queues && q in db.queues
      ensures |Columns.OnQueue(db.jobs, ids, q)| <= Columns.QueueRoom(db.queues[q], q in peers.queues)
    {
      BudgetIsRoom(db, peers, q);
    }
    forall g | g in db.groups
      ensures |Columns.InGroup(db.jobs, ids, g)| <= if g in peers.groups then 0 else Columns.GroupRoom(db.groups[g], ask.clock)
    {
      LimitIsRoom(db, peers, g, ask.clock);
      assert |Among(db.jobs, ids, GroupLane(g))| <= GroupLimit(db, peers, g, ask.clock);
    }
    forall a, x | a in ids && a in db.jobs && PassedInQueue(db, ask, peers, ids, db.jobs[a], x)
      ensures Columns.RanksBefore(a, db.jobs[a], x, db.jobs[x])
    {
      RankIsRank(db.jobs, a, x);
      assert x in UngroupedIn(db, ask, peers, db.jobs[a].queue);
    }
  }

  /** Job `x` of group `g` is eligible and free and was not claimed. */
  ghost predicate PassedInGroup(db: Db, ask: Ask, peers: Peers, ids: set<JobId>, g: Option<string>, x: JobId) {
    && x in db.jobs && x !in ids && x !in peers.jobs && Columns.Eligible(db.jobs[x], ask.kinds, ask.queues, ask.now)
    && g.Some? && db.jobs[x].group == g
  }

  /** Within a group, a job passed over ranks after every claimed one, or its queue gave all it had to others. */
  ghost predicate FairByColumns(db: Db, ask: Ask, peers: Peers, ids: set<JobId>) {
    forall a, x :: a in ids && a in db.jobs && PassedInGroup(db, ask, peers, ids, db.jobs[a].group, x) ==>
      || Columns.RanksBefore(a, db.jobs[a], x, db.jobs[x])
      || (var q := db.jobs[x].queue;
          q in db.queues && |Columns.OnQueue(db.jobs, ids, q)| == Columns.QueueRoom(db.queues[q], q in peers.queues))
  }

  lemma FairIsFair(db: Db, ask: Ask, peers: Peers, ids: set<JobId>)
    requires FairChoice(db, ask, peers, ids)
    ensures FairByColumns(db, ask, peers, ids)
  {
    OnIsAmong(db.jobs, ids);
    hide Among, Columns.OnQueue, Columns.QueueRoom, BudgetOf, Outranks, Columns.RanksBefore;
    forall a, x | a in ids && a in db.jobs && PassedInGroup(db, ask, peers, ids, db.jobs[a].group, x)
      ensures var q := db.jobs[x].queue;
              || Columns.RanksBefore(a, db.jobs[a], x, db.jobs[x])
              || (q in db.queues && |Columns.OnQueue(db.jobs, ids, q)| == Columns.QueueRoom(db.queues[q], q in peers.queues))
    {
      RankIsRank(db.jobs, a, x);
      if db.jobs[x].queue in db.queues {
        BudgetIsRoom(db, peers, db.jobs[x].queue);
      }
    }
  }

  /** Balances written back with the claim: the refilled balance of each rate-limited group less its starts. */
  function ClaimWrites(db: Db, ids: set<JobId>, clock: Time): map<string, TokenWrite> {
    map g | g in GroupsOf(db.jobs, ids) && SlotAt(db, g, clock).limited ::
      TokenWrite(Remaining(SlotAt(db, g, clock).tokens, |Among(db.jobs, ids, GroupLane(g))|), clock)
  }

  lemma BudgetsAreNonNegative(db: Db, ask: Ask, peers: Peers)
    ensures forall q :: q in Budget0(db, ask, peers) ==> 0 <= Budget0(db, ask, peers)[q]
  {
  }

  lemma SlotsAreNonNegative(db: Db, peers: Peers, keys: set<string>, clock: Time)
    ensures forall g :: g in Slots0(db, peers, keys, clock) ==> 0 <= Slots0(db, peers, keys, clock)[g].slots
  {
  }

  lemma {:induction false} SetSize(s: seq<JobId>)
    ensures |Set(s)| <= |s|
    decreases |s|
  {
    if s == [] {
      assert Set(s) == {};
    } else {
      var n := |s| - 1;
      SetSize(s[..n]);
      assert Set(s) == Set(s[..n]) + {s[n]};
    }
  }

  /** What the accounts of phases 1 to 3 add up to. */
  lemma ChoiceIsSound(c: Ctx, keys: set<string>, acc: seq<JobId>, budget: map<string, int>, slots: map<string, Slot>)
    requires c.budget0 == Budget0(c.db, c.ask, c.peers) && c.slots0 == Slots0(c.db, c.peers, keys, c.ask.clock)
    requires forall q :: q in c.open ==> q in c.ask.queues
    requires (forall a :: a in c.acc1 ==> FromLane(c.db, c.ask, c.peers, a)) && RankClosed(c.db, c.ask, c.peers, c.acc1)
    requires GroupOk(c, c.slots0.Keys, acc, budget, slots)
    ensures SoundChoice(c.db, c.ask, c.peers, Set(acc))
  {
    SetSize(acc);
    forall id | id in acc ensures Due(c.db, c.ask, c.peers, id) && c.db.jobs[id].queue in c.ask.queues {
      OriginOf(c, acc, budget, slots, id);
    }
    forall q | q in c.ask.queues && q in c.db.queues ensures |Among(c.db.jobs, Set(acc), QueueLane(q))| <= BudgetOf(c.db, c.peers, q) {
      assert q in c.budget0;
    }
    forall g ensures |Among(c.db.jobs, Set(acc), GroupLane(g))| <= GroupLimit(c.db, c.peers, g, c.ask.clock) {
      ChoiceFitsGroup(c, keys, acc, budget, slots, g);
    }
    forall a, x | a in acc && Due(c.db, c.ask, c.peers, a) && c.db.jobs[a].group.None?
                  && x in UngroupedIn(c.db, c.ask, c.peers, c.db.jobs[a].queue) && x !in acc
      ensures Outranks(c.db.jobs, a, x)
    {
      OriginOf(c, acc, budget, slots, a);
      assert a in c.acc1 && x !in c.acc1 by {
        assert forall y :: y in c.acc1 ==> y in acc[..|c.acc1|];
      }
    }
  }

  /** An accepted job came from phase 1 or from a group served in phase 3. */
  lemma OriginOf(c: Ctx, acc: seq<JobId>, budget: map<string, int>, slots: map<string, Slot>, id: JobId)
    requires GroupOk(c, c.slots0.Keys, acc, budget, slots) && id in acc
    ensures id in c.acc1 || FromGroup(c, c.slots0.Keys, id)
  {
    var k :| 0 <= k < |acc| && acc[k] == id;
    if k < |c.acc1| {
      assert acc[..|c.acc1|][k] in c.acc1;
    }
  }

  lemma ChoiceFitsGroup(c: Ctx, keys: set<string>, acc: seq<JobId>, budget: map<string, int>, slots: map<string, Slot>, g: string)
    requires c.slots0 == Slots0(c.db, c.peers, keys, c.ask.clock) && GroupOk(c, c.slots0.Keys, acc, budget, slots)
    requires forall a :: a in c.acc1 ==> FromLane(c.db, c.ask, c.peers, a)
    ensures |Among(c.db.jobs, Set(acc), GroupLane(g))| <= GroupLimit(c.db, c.peers, g, c.ask.clock)
  {
    if g in c.slots0 {
      assert Slotted(c, acc, slots, g);
    } else {
      forall id | id in acc && id in c.db.jobs ensures c.db.jobs[id].group != Some(g) {
        OriginOf(c, acc, budget, slots, id);
      }
      assert Among(c.db.jobs, Set(acc), GroupLane(g)) == {};
    }
  }

  /** `open_queues`: the subscribed queues that still have budget. */
  function Open(queues: seq<string>, budget: map<string, int>): (r: seq<string>)
    ensures forall q :: q in r <==> q in queues && BudgetFor(budget, q) > 0
  {
    if queues == [] then []
    else if BudgetFor(budget, queues[0]) > 0 then [queues[0]] + Open(queues[1..], budget)
    else Open(queues[1..], budget)
  }

  lemma NothingIsSound(db: Db, ask: Ask, peers: Peers)
    ensures SoundChoice(db, ask, peers, Set([])) && FairChoice(db, ask, peers, Set([])) && NoRepeats<JobId>([])
  {
    assert Set([]) == {};
    forall lane ensures Among(db.jobs, {}, lane) == {} {
    }
  }

  lemma NothingToDo(db: Db, ask: Ask, peers: Peers)
    requires ask.kinds == [] || ask.queues == [] || forall q :: q in ask.queues ==> BudgetFor(Budget0(db, ask, peers), q) <= 0
    ensures !HasWork(db, ask, peers)
  {
    hide Columns.MayStart, GroupLimit;
    forall id | Columns.MayStart(db, id, ask.kinds, ask.queues, ask.now, ask.clock, peers.queues, peers.groups, peers.jobs) ensures false {
      WorkIsSeen(db, ask, peers, id);
    }
  }

  /** If every phase came up empty, there was nothing to start. */
  lemma EmptyMeansIdle(c: Ctx, keys: set<string>)
    requires c.ask.batchSize > 0 && c.acc1 == [] && c.budget0 == Budget0(c.db, c.ask, c.peers)
    requires LaneOk(c.db, c.ask, c.peers, c.budget0, |c.ask.queues|, c.acc1, c.budget1)
    requires c.open == Open(c.ask.queues, c.budget1) && c.slots0 == Slots0(c.db, c.peers, keys, c.ask.clock)
    requires c.open != [] ==> keys == Walk.DueKeys(c.db.jobs, c.ask.kinds, c.open, c.ask.now)
    requires Starved(c, c.slots0.Keys)
    ensures !HasWork(c.db, c.ask, c.peers)
  {
    hide RankClosed, Spent, SlotAt;
    forall id | Due(c.db, c.ask, c.peers, id) && c.db.jobs[id].queue in c.ask.queues && BudgetFor(c.budget0, c.db.jobs[id].queue) > 0
      ensures c.db.jobs[id].group.Some? && GroupLimit(c.db, c.peers, c.db.jobs[id].group.value, c.ask.clock) <= 0
    {
      var j := c.db.jobs[id];
      assert c.ask.queues[..|c.ask.queues|] == c.ask.queues;
      assert j.group.None? ==> id in UngroupedIn(c.db, c.ask, c.peers, j.queue);
      var g := j.group.value;
      assert j.queue in c.open;
      assert id in Walk.DueGrouped(c.db.jobs, c.ask.kinds, c.open, c.ask.now);
      assert g in keys;
      assert id in GroupedIn(c.db, c.ask, c.peers, g, c.open);
    }
    NothingMayStart(c.db, c.ask, c.peers);
  }

  lemma NothingMayStart(db: Db, ask: Ask, peers: Peers)
    requires forall id :: Due(db, ask, peers, id) && db.jobs[id].queue in ask.queues && BudgetFor(Budget0(db, ask, peers), db.jobs[id].queue) > 0 ==>
               db.jobs[id].group.Some? && GroupLimit(db, peers, db.jobs[id].group.value, ask.clock) <= 0
    ensures !HasWork(db, ask, peers)
  {
    hide Columns.MayStart, GroupLimit, Due, Budget0;
    forall id | Columns.MayStart(db, id, ask.kinds, ask.queues, ask.now, ask.clock, peers.queues, peers.groups, peers.jobs) ensures false {
      WorkIsSeen(db, ask, peers, id);
    }
  }

  lemma LaneFacts(db: Db, ask: Ask, peers: Peers, budget0: map<string, int>, acc: seq<JobId>, budget: map<string, int>)
    requires LaneOk(db, ask, peers, budget0, |ask.queues|, acc, budget)
    ensures |acc| <= ask.batchSize && Spent(db, Set(acc), budget0, budget) && SpentExactly(db, acc, budget0, budget)
    ensures RankClosed(db, ask, peers, acc)
    ensures forall a :: a in acc ==> FromLane(db, ask, peers, a)
    ensures NoRepeats(ask.queues) ==> NoRepeats(acc)
  {
  }

  lemma GroupFacts(c: Ctx, acc: seq<JobId>, budget: map<string, int>, slots: map<string, Slot>)
    requires GroupOk(c, c.slots0.Keys, acc, budget, slots)
    ensures (NoRepeats(c.acc1) ==> NoRepeats(acc)) && (acc == [] ==> c.acc1 == [])
    ensures slots.Keys == c.slots0.Keys && forall g :: g in slots ==> slots[g] == c.slots0[g].(slots := slots[g].slots)
  {
    hide NoRepeats, Spent;
    forall g | g in slots ensures slots[g] == c.slots0[g].(slots := slots[g].slots) {
      assert Slotted(c, acc, slots, g);
    }
  }

  /** Phases 0 to 3: the jobs to claim, and the group slots that were read. */
  method Choose(db: Db, ask: Ask, peers: Peers) returns (acc: seq<JobId>, slots: map<string, Slot>, timeouts: map<string, int>)
    ensures SoundChoice(db, ask, peers, Set(acc)) && ByColumns(db, ask, peers, Set(acc))
    ensures NoRepeats(ask.queues) ==> NoRepeats(acc) && FairChoice(db, ask, peers, Set(acc)) && FairByColumns(db, ask, peers, Set(acc))
    ensures forall g :: g in slots ==> slots[g] == SlotAt(db, g, ask.clock).(slots := slots[g].slots)
    ensures forall id :: id in acc && id in db.jobs && db.jobs[id].group.Some? ==> db.jobs[id].group.value in slots
    ensures acc != [] ==> TimeoutsRead(db, ask, timeouts)
    ensures ask.batchSize > 0 && HasWork(db, ask, peers) ==> acc != []
  {
    hide TimeoutsRead, LaneOk, GroupOk, HasWork, SoundChoice, FairChoice, ByColumns, FairByColumns, NoRepeats, Spent, SpentExactly, RankClosed, FromLane, Starved, Fair;
    acc, slots, timeouts := [], map[], map[];
    NothingIsSound(db, ask, peers);
    SoundByColumns(db, ask, peers, Set(acc));
    FairIsFair(db, ask, peers, Set(acc));
    if ask.batchSize == 0 || ask.kinds == [] || ask.queues == [] {
      if ask.batchSize > 0 { NothingToDo(db, ask, peers); }
      return;
    }
    var budget0;
    budget0, timeouts := ReadBudgets(db, ask, peers);
    if forall q :: q in ask.queues ==> BudgetFor(budget0, q) <= 0 {
      NothingToDo(db, ask, peers);
      return;
    }
    BudgetsAreNonNegative(db, ask, peers);
    var acc1, budget1 := TakeUngrouped(db, ask, peers, budget0);
    LaneFacts(db, ask, peers, budget0, acc1, budget1);
    var open := Open(ask.queues, budget1);
    var keys: set<string> := {};
    if ask.batchSize - |acc1| > 0 && open != [] {
      keys := Walk.DueKeys(db.jobs, ask.kinds, open, ask.now);
    }
    var slots0 := LockGroups(db, peers, keys, ask.clock);
    SlotsAreNonNegative(db, peers, keys, ask.clock);
    var c := Ctx(db, ask, peers, open, budget0, budget1, acc1, slots0);
    var budget;
    acc, budget, slots := TakeGrouped(c);
    GroupFacts(c, acc, budget, slots);
    ChoiceIsSound(c, keys, acc, budget, slots);
    SoundByColumns(db, ask, peers, Set(acc));
    GroupsOfChoice(c, acc, budget, slots);
    if NoRepeats(ask.queues) {
      ChoiceIsFair(c, keys, acc, budget, slots);
      FairIsFair(db, ask, peers, Set(acc));
    }
    if acc == [] {
      EmptyMeansIdle(c, keys);
    }
  }

  lemma GroupsOfChoice(c: Ctx, acc: seq<JobId>, budget: map<string, int>, slots: map<string, Slot>)
    requires GroupOk(c, c.slots0.Keys, acc, budget, slots) && forall a :: a in c.acc1 ==> FromLane(c.db, c.ask, c.peers, a)
    ensures forall id :: id in acc && id in c.db.jobs && c.db.jobs[id].group.Some? ==> c.db.jobs[id].group.value in c.slots0
  {
    forall id | id in acc && id in c.db.jobs && c.db.jobs[id].group.Some? ensures c.db.jobs[id].group.value in c.slots0 {
      OriginOf(c, acc, budget, slots, id);
    }
  }

  // ---- Step 4: writing the claim ----

  /** How many of the rows the UPDATE returned are in each group. */
  ghost predicate GroupsCounted(jobs: map<JobId, Job>, ids: set<JobId>, d: map<string, nat>) {
    && (forall g :: g in d <==> Among(jobs, ids, GroupLane(g)) != {})
    && (forall g :: g in d ==> d[g] == |Among(jobs, ids, GroupLane(g))|)
  }

  /** How many of them are in each queue. */
  ghost predicate QueuesCounted(jobs: map<JobId, Job>, ids: set<JobId>, d: map<string, nat>) {
    && (forall q :: q in d <==> Among(jobs, ids, QueueLane(q)) != {})
    && (forall q :: q in d ==> d[q] == |Among(jobs, ids, QueueLane(q))|)
  }

  lemma AmongOneMore(jobs: map<JobId, Job>, ids: set<JobId>, id: JobId, lane: Lane)
    requires id in jobs && id !in ids
    ensures Among(jobs, ids + {id}, lane) == Among(jobs, ids, lane) + if On(jobs[id], lane) then {id} else {}
    ensures |Among(jobs, ids + {id}, lane)| == |Among(jobs, ids, lane)| + if On(jobs[id], lane) then 1 else 0
  {
    var a := Among(jobs, ids, lane);
    assert Among(jobs, ids + {id}, lane) == a + if On(jobs[id], lane) then {id} else {};
  }

  lemma CountGroup(jobs: map<JobId, Job>, ids: set<JobId>, d: map<string, nat>, id: JobId)
    requires GroupsCounted(jobs, ids, d) && id in jobs && id !in ids
    ensures GroupsCounted(jobs, ids + {id}, if jobs[id].group.Some? then Plus(d, jobs[id].group.value) else d)
  {
    hide Among;
    var d' := if jobs[id].group.Some? then Plus(d, jobs[id].group.value) else d;
    forall g
      ensures g in d' <==> Among(jobs, ids + {id}, GroupLane(g)) != {}
      ensures g in d' ==> d'[g] == |Among(jobs, ids + {id}, GroupLane(g))|
    {
      AmongOneMore(jobs, ids, id, GroupLane(g));
      assert g !in d ==> |Among(jobs, ids, GroupLane(g))| == 0;
    }
  }

  lemma CountQueue(jobs: map<JobId, Job>, ids: set<JobId>, d: map<string, nat>, id: JobId)
    requires QueuesCounted(jobs, ids, d) && id in jobs && id !in ids
    ensures QueuesCounted(jobs, ids + {id}, Plus(d, jobs[id].queue))
  {
    hide Among;
    var d' := Plus(d, jobs[id].queue);
    forall q
      ensures q in d' <==> Among(jobs, ids + {id}, QueueLane(q)) != {}
      ensures q in d' ==> d'[q] == |Among(jobs, ids + {id}, QueueLane(q))|
    {
      AmongOneMore(jobs, ids, id, QueueLane(q));
      assert q !in d ==> |Among(jobs, ids, QueueLane(q))| == 0;
    }
  }

  /** `*entry(k).or_insert(0) += 1`. */
  function Plus(m: map<string, nat>, k: string): map<string, nat> {
    m[k := (if k in m then m[k] else 0) + 1]
  }

  /** The deltas come from the rows returned, each once, whatever the accepted vector repeated. */
  method CountDeltas(jobs: map<JobId, Job>, ids: set<JobId>) returns (groupDeltas: map<string, nat>, queueDeltas: map<string, nat>)
    requires ids <= jobs.Keys
    ensures GroupsCounted(jobs, ids, groupDeltas) && QueuesCounted(jobs, ids, queueDeltas)
  {
    hide GroupsCounted, QueuesCounted;
    groupDeltas, queueDeltas := map[], map[];
    var todo := ids;
    NothingCounted(jobs);
    assert ids - todo == {};
    while todo != {}
      invariant todo <= ids && GroupsCounted(jobs, ids - todo, groupDeltas) && QueuesCounted(jobs, ids - todo, queueDeltas)
    {
      var id :| id in todo;
      CountGroup(jobs, ids - todo, groupDeltas, id);
      CountQueue(jobs, ids - todo, queueDeltas, id);
      assert ids - todo + {id} == ids - (todo - {id});
      if jobs[id].group.Some? {
        groupDeltas := Plus(groupDeltas, jobs[id].group.value);
      }
      queueDeltas := Plus(queueDeltas, jobs[id].queue);
      todo := todo - {id};
    }
    assert ids - todo == ids;
  }

  lemma NothingCounted(jobs: map<JobId, Job>)
    ensures GroupsCounted(jobs, {}, map[]) && QueuesCounted(jobs, {}, map[])
  {
    forall lane ensures Among(jobs, {}, lane) == {} {
    }
  }

  method UpsertGroups(groups0: map<string, Group>, deltas: map<string, nat>, slots: map<string, Slot>, clock: Time)
    returns (groups: map<string, Group>)
    ensures groups.Keys == groups0.Keys + deltas.Keys
    ensures forall g :: g in groups && g !in deltas ==> groups[g] == groups0[g]
    ensures forall g :: g in deltas ==> groups[g] == Upserted(groups0, deltas, slots, clock, g)
  {
    groups := groups0;
    var todo := deltas.Keys;
    while todo != {}
      invariant todo <= deltas.Keys && groups.Keys == groups0.Keys + (deltas.Keys - todo)
      invariant forall g :: g in groups && (g in todo || g !in deltas) ==> groups[g] == groups0[g]
      invariant forall g :: g in deltas && g !in todo ==> groups[g] == Upserted(groups0, deltas, slots, clock, g)
    {
      var key :| key in todo;
      var row := if key in groups then groups[key] else DEFAULT_GROUP;
      if key in slots && slots[key].limited {
        groups := groups[key := row.(running := row.running + deltas[key],
                                     tokens := Remaining(slots[key].tokens, deltas[key]), refilledAt := Some(clock))];
      } else {
        groups := groups[key := row.(running := row.running + deltas[key])];
      }
      todo := todo - {key};
    }
  }

  function Upserted(groups: map<string, Group>, deltas: map<string, nat>, slots: map<string, Slot>, clock: Time, g: string): Group
    requires g in deltas
  {
    var row := if g in groups then groups[g] else DEFAULT_GROUP;
    if g in slots && slots[g].limited
    then row.(running := row.running + deltas[g], tokens := Remaining(slots[g].tokens, deltas[g]), refilledAt := Some(clock))
    else row.(running := row.running + deltas[g])
  }

  method BumpQueues(queues0: map<string, Queue>, deltas: map<string, nat>) returns (queues: map<string, Queue>)
    ensures queues.Keys == queues0.Keys
    ensures forall q :: q in queues ==>
              queues[q] == queues0[q].(running := queues0[q].running + if q in deltas then deltas[q] else 0)
  {
    queues := queues0;
    var todo := deltas.Keys;
    while todo != {}
      invariant todo <= deltas.Keys && queues.Keys == queues0.Keys
      invariant forall q :: q in queues ==>
                  queues[q] == queues0[q].(running := queues0[q].running + if q in deltas && q !in todo then deltas[q] else 0)
    {
      var q :| q in todo;
      if q in queues {
        queues := queues[q := queues[q].(running := queues[q].running + deltas[q])];
      }
      todo := todo - {q};
    }
  }

  lemma DeltaKeys(jobs: map<JobId, Job>, ids: set<JobId>, gd: map<string, nat>)
    requires GroupsCounted(jobs, ids, gd)
    ensures gd.Keys == GroupsOf(jobs, ids)
  {
    forall g ensures g in gd <==> g in GroupsOf(jobs, ids) {
      if g in gd {
        var id :| id in Among(jobs, ids, GroupLane(g));
      }
      if g in GroupsOf(jobs, ids) {
        var id :| id in ids && id in jobs && jobs[id].group == Some(g);
        assert id in Among(jobs, ids, GroupLane(g));
      }
    }
  }

  /** The upsert of one group row is the bump its specification states. */
  lemma GroupWritten(db: Db, ids: set<JobId>, gd: map<string, nat>, slots: map<string, Slot>, clock: Time, g: string)
    requires GroupsCounted(db.jobs, ids, gd) && g in gd && g in slots && g in GroupsOf(db.jobs, ids)
    requires slots[g] == SlotAt(db, g, clock).(slots := slots[g].slots)
    ensures ClaimedGroups(db.groups, db.jobs, ids, ClaimWrites(db, ids, clock))[g] == Upserted(db.groups, gd, slots, clock, g)
  {
    hide Remaining, SlotAt, Among, GroupsOf;
    assert gd[g] == |Among(db.jobs, ids, GroupLane(g))| && gd[g] > 0;
  }

  lemma GroupsWritten(db: Db, ids: set<JobId>, gd: map<string, nat>, groups: map<string, Group>, slots: map<string, Slot>, clock: Time)
    requires GroupsCounted(db.jobs, ids, gd) && groups.Keys == db.groups.Keys + gd.Keys
    requires forall g :: g in groups && g !in gd ==> groups[g] == db.groups[g]
    requires forall g :: g in gd ==> groups[g] == Upserted(db.groups, gd, slots, clock, g)
    requires forall g :: g in slots ==> slots[g] == SlotAt(db, g, clock).(slots := slots[g].slots)
    requires forall g :: g in GroupsOf(db.jobs, ids) ==> g in slots
    ensures groups == ClaimedGroups(db.groups, db.jobs, ids, ClaimWrites(db, ids, clock))
  {
    hide Remaining, SlotAt, Among, GroupsOf, Upserted, ClaimWrites;
    var target := ClaimedGroups(db.groups, db.jobs, ids, ClaimWrites(db, ids, clock));
    DeltaKeys(db.jobs, ids, gd);
    forall g | g in target ensures groups[g] == target[g] {
      if g in gd {
        GroupWritten(db, ids, gd, slots, clock, g);
      }
    }
  }

  lemma QueuesWritten(jobs: map<JobId, Job>, ids: set<JobId>, qd: map<string, nat>, queues0: map<string, Queue>, queues: map<string, Queue>)
    requires QueuesCounted(jobs, ids, qd) && queues.Keys == queues0.Keys
    requires forall q :: q in queues ==> queues[q] == queues0[q].(running := queues0[q].running + if q in qd then qd[q] else 0)
    ensures queues == ClaimedQueues(queues0, jobs, ids)
  {
    hide Among;
    forall q | q in queues ensures queues[q] == ClaimedQueues(queues0, jobs, ids)[q] {
      assert q !in qd ==> |Among(jobs, ids, QueueLane(q))| == 0;
    }
  }

  /** The columns are INTEGERs. */
  predicate IntegerRows(db: Db) {
    && (forall q :: q in db.queues ==> db.queues[q].running <= MAX_I32 && db.queues[q].maxConcurrency <= MAX_I32)
    && (forall g :: g in db.groups ==> db.groups[g].running <= MAX_I32 && db.groups[g].maxConcurrency <= MAX_I32)
  }

  /** What a claim chooses never takes a counter out of the INTEGER range. */
  lemma ChoiceFits(db: Db, ask: Ask, peers: Peers, ids: set<JobId>)
    requires SoundChoice(db, ask, peers, ids) && IntegerRows(db)
    ensures ClaimFits(db, ids)
  {
    var db' := Claim(db, ids, 0, 0, map[]);
    forall q | q in db'.queues ensures db'.queues[q].running <= MAX_I32 {
      if q !in ask.queues {
        assert Among(db.jobs, ids, QueueLane(q)) == {};
      }
    }
    forall g | g in db'.groups ensures db'.groups[g].running <= MAX_I32 {
      assert |Among(db.jobs, ids, GroupLane(g))| <= GroupLimit(db, peers, g, ask.clock);
      SlotsAreBounded(db, g, ask.clock);
    }
  }

  lemma SlotsAreBounded(db: Db, g: string, clock: Time)
    ensures SlotAt(db, g, clock).slots <= if g in db.groups then Max(db.groups[g].maxConcurrency - db.groups[g].running, 0) else MAX_I32
  {
  }

  /** `ClaimedJob`: what a worker is handed. */
  datatype ClaimedJob = ClaimedJob(
    kind: string,
    payload: Json,
    attempt: int,
    maxAttempts: int,
    stalled: int,
    maxStalled: int,
    group: Option<string>,
    queue: string,
    worker: WorkerId,
    timeout: Option<int>)

  /** A worker is handed each job as its row now stands, with its queue's timeout if one is set. */
  ghost predicate HandsOut(db: Db, jobs': map<JobId, Job>, w: WorkerId, handed: map<JobId, ClaimedJob>) {
    forall id :: id in handed ==>
      && id in jobs' && handed[id].kind == jobs'[id].kind && handed[id].payload == jobs'[id].payload
      && handed[id].attempt == jobs'[id].attempt && handed[id].maxAttempts == jobs'[id].maxAttempts
      && handed[id].stalled == jobs'[id].stalled && handed[id].maxStalled == jobs'[id].maxStalled
      && handed[id].group == jobs'[id].group && handed[id].queue == jobs'[id].queue
      && handed[id].worker == w && jobs'[id].worker == Some(w)
      && handed[id].timeout ==
           (if jobs'[id].queue in db.queues && db.queues[jobs'[id].queue].timeout.Some?
               && db.queues[jobs'[id].queue].timeout.value > 0
            then db.queues[jobs'[id].queue].timeout else None)
  }

  /** The rows returned by the UPDATE, each with the timeout of its queue. */
  method HandOut(ghost db: Db, ask: Ask, jobs': map<JobId, Job>, ids: set<JobId>, timeouts: map<string, int>) returns (handed: map<JobId, ClaimedJob>)
    requires ids <= jobs'.Keys && TimeoutsRead(db, ask, timeouts)
    requires forall id :: id in ids ==> jobs'[id].worker == Some(ask.worker) && jobs'[id].queue in ask.queues
    ensures handed.Keys == ids && HandsOut(db, jobs', ask.worker, handed)
  {
    handed := map[];
    var todo := ids;
    while todo != {}
      invariant todo <= ids && handed.Keys == ids - todo && HandsOut(db, jobs', ask.worker, handed)
    {
      var id :| id in todo;
      var j := jobs'[id];
      handed := handed[id := ClaimedJob(j.kind, j.payload, j.attempt, j.maxAttempts, j.stalled, j.maxStalled, j.group, j.queue,
                                        ask.worker, if j.queue in timeouts then Some(timeouts[j.queue]) else None)];
      todo := todo - {id};
    }
  }

  /** `claim_batch`. None: a counter left the INTEGER range and the transaction rolled back, which
      cannot happen while the rows are INTEGERs to begin with. */
  method ClaimBatch(store: Store.Store, ask: Ask, peers: Peers) returns (r: Option<map<JobId, ClaimedJob>>)
    modifies store
    ensures r.Some? ==> SoundChoice(old(store.View()), ask, peers, r.value.Keys) && ByColumns(old(store.View()), ask, peers, r.value.Keys)
    ensures r.Some? && NoRepeats(ask.queues) ==>
              FairChoice(old(store.View()), ask, peers, r.value.Keys) && FairByColumns(old(store.View()), ask, peers, r.value.Keys)
    ensures r.Some? && r.value != map[] ==>
              Columns.Claimed(old(store.View()), store.View(), r.value.Keys, ask.worker, ask.now, ask.clock)
    ensures r.None? || r.value == map[] ==> store.View() == old(store.View())
    ensures r.Some? && r.value != map[] ==>
              var step := Take(r.value.Keys, ask.worker, ask.now, ClaimWrites(old(store.View()), r.value.Keys, ask.clock));
              Enabled(old(store.View()), step) && store.View() == Apply(old(store.View()), step)
    ensures r.Some? ==> HandsOut(old(store.View()), store.jobs, ask.worker, r.value)
    ensures IntegerRows(old(store.View())) ==> r.Some?
    ensures ask.batchSize > 0 && HasWork(old(store.View()), ask, peers) ==> r != Some(map[])
  {
    hide IntegerRows, Enabled, Apply, ClaimedGroups, ClaimedQueues, ClaimWrites, HandsOut, TimeoutsRead;
    hide SoundChoice, FairChoice, ByColumns, FairByColumns, Columns.Claimed, HasWork, SlotAt, ClaimFits, Upserted, GroupsCounted, QueuesCounted;
    ghost var begun := store.View();
    var acc, slots, timeouts := Choose(store.View(), ask, peers);
    if acc == [] {
      var none: map<JobId, ClaimedJob> := map[];
      NothingToHandOut(begun, ask.worker, none);
      return Some(none);
    }
    var ids := Set(acc);
    assert acc[0] in ids;
    SoundIsKnown(begun, ask, peers, ids);
    if IntegerRows(begun) {
      ChoiceFits(begun, ask, peers, ids);
    }
    if !ClaimFits(store.View(), ids) {
      return None;
    }
    var gd, qd := CountDeltas(store.jobs, ids);
    var groups := UpsertGroups(store.groups, gd, slots, ask.clock);
    GroupsWritten(begun, ids, gd, groups, slots, ask.clock);
    var queues := BumpQueues(store.queues, qd);
    QueuesWritten(store.jobs, ids, qd, store.queues, queues);
    store.groups, store.queues := groups, queues;
    store.jobs := ClaimedJobs(store.jobs, ids, ask.worker, ask.now);
    TakeApplies(begun, ids, ask.worker, ask.now, ClaimWrites(begun, ids, ask.clock));
    ClaimByColumns(begun, ids, ask.worker, ask.now, ask.clock);
    var handed := HandOut(begun, ask, store.jobs, ids, timeouts);
    return Some(handed);
  }

  lemma NothingToHandOut(db: Db, w: WorkerId, none: map<JobId, ClaimedJob>)
    requires none == map[]
    ensures Set([]) == none.Keys && HandsOut(db, db.jobs, w, none)
  {
  }

  /** The UPDATE and the upserts, column by column. */
  lemma ClaimByColumns(db: Db, ids: set<JobId>, w: WorkerId, now: Time, clock: Time)
    requires ids <= db.jobs.Keys
    ensures Columns.Claimed(db, Claim(db, ids, w, now, ClaimWrites(db, ids, clock)), ids, w, now, clock)
  {
    OnIsAmong(db.jobs, ids);
    var after := Claim(db, ids, w, now, ClaimWrites(db, ids, clock));
    forall g ensures g in after.groups <==> g in db.groups || Columns.InGroup(db.jobs, ids, g) != {} {
      InGroupHasRow(db.jobs, ids, g);
    }
    forall g | g in after.groups
      ensures Columns.PaidFor(if g in db.groups then Some(db.groups[g]) else None, after.groups[g], |Columns.InGroup(db.jobs, ids, g)|, clock)
    {
      GroupPays(db, ids, w, now, clock, g);
    }
    hide Among, Columns.OnQueue, Columns.InGroup, Columns.PaidFor, ClaimedGroups, ClaimWrites;
  }

  lemma InGroupHasRow(jobs: map<JobId, Job>, ids: set<JobId>, g: string)
    ensures g in GroupsOf(jobs, ids) <==> Columns.InGroup(jobs, ids, g) != {}
  {
    if g in GroupsOf(jobs, ids) {
      var id :| id in ids && id in jobs && jobs[id].group == Some(g);
      assert id in Columns.InGroup(jobs, ids, g);
    }
    if Columns.InGroup(jobs, ids, g) != {} {
      var id :| id in Columns.InGroup(jobs, ids, g);
    }
  }

  lemma GroupPays(db: Db, ids: set<JobId>, w: WorkerId, now: Time, clock: Time, g: string)
    requires g in Claim(db, ids, w, now, ClaimWrites(db, ids, clock)).groups
    ensures Columns.PaidFor(if g in db.groups then Some(db.groups[g]) else None,
                            Claim(db, ids, w, now, ClaimWrites(db, ids, clock)).groups[g], |Columns.InGroup(db.jobs, ids, g)|, clock)
  {
    OnIsAmong(db.jobs, ids);
    InGroupHasRow(db.jobs, ids, g);
    if g in db.groups {
      SlotIsRoom(db.groups[g], clock);
    }
    hide Among, Columns.OnQueue, Columns.InGroup, SlotOf, Columns.GroupRoom, Columns.Balance, Columns.HasRate, GroupsOf;
  }

  lemma TakeApplies(db: Db, ids: set<JobId>, w: WorkerId, now: Time, writes: map<string, TokenWrite>)
    requires ClaimFits(db, ids) && forall id :: id in ids ==> id in db.jobs && db.jobs[id].state == Pending && db.jobs[id].scheduledAt <= now
    ensures Enabled(db, Take(ids, w, now, writes)) && Apply(db, Take(ids, w, now, writes)) == Claim(db, ids, w, now, writes)
  {
    hide ClaimFits, Claim;
  }

  lemma SoundIsKnown(db: Db, ask: Ask, peers: Peers, ids: set<JobId>)
    requires SoundChoice(db, ask, peers, ids)
    ensures ids <= db.jobs.Keys
    ensures forall id :: id in ids ==> db.jobs[id].state == Pending && db.jobs[id].scheduledAt <= ask.now && db.jobs[id].queue in ask.queues
  {
  }
}
