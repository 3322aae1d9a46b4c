/** Rate limits over interleaved runs: each commit that takes from a rate-limited group is one grant of
    its token bucket, so the rate bound holds of any stretch of any run. */
module RateLimits {
  import opened Tables
  import opened Lifecycle
  import opened TokenBucket
  import opened Budgets
  import opened Interleaving
  import Counters
  import Rows

  // ---- Shares ----

  /** The balance a fetcher works from is the row's, and its choices fit the whole tokens in it. */
  ghost predicate TokenShare(db: Db, f: Fetcher, g: string)
    requires g in db.groups
  {
    var n, row := |Among(db.jobs, f.accepted, GroupLane(g))|, db.groups[g];
    RateLimited(row) ==>
      if g in f.slots
      then && g in f.groupLocks && f.slots[g].slots >= 0 && f.slots[g].limited
           && f.slots[g].tokens == Refill(row.tokens, row.refilledAt, f.clock, row.rateCount.value, row.ratePeriod.value)
           && n + f.slots[g].slots <= f.slots[g].tokens.Floor
      else n == 0
  }

  /** A group's row is there, nobody works from it without its lock, and nobody has chosen more than its
      whole tokens. */
  ghost predicate Metered(s: Sys, g: string) {
    && g in s.db.groups
    && (forall i :: i in s.fetchers ==> Holds(s.db, s.fetchers[i], g) && TokenShare(s.db, s.fetchers[i], g))
  }

  ghost predicate Holds(db: Db, f: Fetcher, g: string) {
    if g in f.slots then g in f.groupLocks else Among(db.jobs, f.accepted, GroupLane(g)) == {}
  }

  lemma StartIsMetered(s: Sys, g: string)
    requires Start(s) && g in s.db.groups
    ensures Metered(s, g)
  {
    forall i | i in s.fetchers ensures Holds(s.db, s.fetchers[i], g) && TokenShare(s.db, s.fetchers[i], g) {
      assert s.fetchers[i].accepted == {};
      AmongEmpty(s.db.jobs, GroupLane(g));
    }
  }

  lemma LocalMoveShareTokens(s: Sys, i: nat, m: Move, g: string)
    requires Orderly(s) && Metered(s, g) && i in s.fetchers && CanMove(s, i, m) && !m.Commit?
    ensures Holds(s.db, Moved(s.db, s.fetchers[i], m), g) && TokenShare(s.db, Moved(s.db, s.fetchers[i], m), g)
  {
    hide LocksExclude, FirstBudget, BindingRows, QueueSlots, Charge, Counters.Sound;
    var f := s.fetchers[i];
    assert InOrder(s.db, f) && Holds(s.db, f, g) && TokenShare(s.db, f, g);
    AmongEmpty(s.db.jobs, GroupLane(g));
    if m.TakeUngrouped? || m.TakeGrouped? {
      AcceptCounts(s.db.jobs, f.accepted, m.id, GroupLane(g));
    } else if m.LockGroup? && m.key == g {
      assert Among(s.db.jobs, f.accepted, GroupLane(g)) == {};
    }
  }

  lemma CommitKeepsTokens(db: Db, f: Fetcher, p: Fetcher, g: string)
    requires InOrder(db, f) && InOrder(db, p) && f.groupLocks !! p.groupLocks && g in db.groups
    requires Holds(db, f, g) && Holds(db, p, g) && TokenShare(db, p, g)
    ensures g in Committed(db, f).groups
    ensures Holds(Committed(db, f), p, g) && TokenShare(Committed(db, f), p, g)
  {
    hide RunningOn, ClaimedJobs, Writes;
    CommitFrame(db, f, p, GroupLane(g));
  }

  // ---- Grants ----

  /** What label `l` starts in group `g`, if it is a commit that takes from it. */
  ghost function GrantOf(s: Sys, l: Label, g: string): seq<Grant>
    requires Can(s, l)
  {
    if l.By? && l.move.Commit? then
      var f := s.fetchers[l.i];
      var n := |Among(s.db.jobs, f.accepted, GroupLane(g))|;
      if n == 0 then [] else [Grant(f.clock, n)]
    else []
  }

  /** What the labels from `j` up to `k` start in group `g`. */
  ghost function Grants(states: seq<Sys>, labels: seq<Label>, g: string, j: nat, k: nat): seq<Grant>
    requires IsRun(states, labels) && j <= k <= |labels|
  {
    if k == j then [] else Grants(states, labels, g, j, k - 1) + GrantOf(states[k - 1], labels[k - 1], g)
  }

  function BucketOf(row: Group): Bucket {
    Bucket(row.tokens, row.refilledAt)
  }

  /** Label `l` is an operator setting or clearing the rate of `g`. */
  ghost predicate EditsRate(l: Label, g: string) {
    l.Env? && Rows.EditsRate(l.step, g)
  }

  // ---- Every step keeps the shares ----

  /** Editing a rate waits for whoever works from the row. */
  lemma EditKeepsTokens(db: Db, db': Db, f: Fetcher, g: string)
    requires f.accepted <= f.jobLocks && Undisturbed(db, db', f)
    requires g in db.groups && g in db'.groups && Holds(db, f, g) && TokenShare(db, f, g)
    requires g in f.groupLocks ==> db'.groups[g] == db.groups[g].(running := db'.groups[g].running)
    ensures Holds(db', f, g) && TokenShare(db', f, g)
  {
    assert Among(db'.jobs, f.accepted, GroupLane(g)) == Among(db.jobs, f.accepted, GroupLane(g));
  }

  lemma EnvKeepsTokens(s: Sys, e: Step, g: string)
    requires Orderly(s) && Metered(s, g) && CanHappen(s, e)
    ensures Metered(Next(s, Env(e)), g)
  {
    hide Apply, Enabled, Counters.Sound, LocksExclude, TokenShare, Holds;
    var db' := Apply(s.db, e);
    Rows.GroupStays(s.db, e, g);
    forall i | i in s.fetchers ensures Holds(db', s.fetchers[i], g) && TokenShare(db', s.fetchers[i], g) {
      assert InOrder(s.db, s.fetchers[i]) && Undisturbed(s.db, db', s.fetchers[i]);
      EditKeepsTokens(s.db, db', s.fetchers[i], g);
    }
  }

  lemma MoveKeepsTokens(s: Sys, i: nat, m: Move, g: string)
    requires Orderly(s) && Metered(s, g) && i in s.fetchers && CanMove(s, i, m)
    ensures Metered(Next(s, By(i, m)), g)
  {
    hide Committed, TokenShare, Holds, InOrder, Counters.Sound;
    var f := s.fetchers[i];
    if m.Commit? {
      forall j | j in s.fetchers && j != i
        ensures g in Committed(s.db, f).groups
        ensures Holds(Committed(s.db, f), s.fetchers[j], g) && TokenShare(Committed(s.db, f), s.fetchers[j], g)
      {
        CommitKeepsTokens(s.db, f, s.fetchers[j], g);
      }
      CommitKeepsGroup(s.db, f, g);
      ReleasedTokens(Committed(s.db, f), f, g);
    } else {
      LocalMoveShareTokens(s, i, m, g);
    }
  }

  lemma CommitKeepsGroup(db: Db, f: Fetcher, g: string)
    requires g in db.groups
    ensures g in Committed(db, f).groups
    ensures var row, row' := db.groups[g], Committed(db, f).groups[g];
            row'.rateCount == row.rateCount && row'.ratePeriod == row.ratePeriod
  {
    hide ClaimedJobs, ClaimedQueues, Writes;
  }

  lemma ReleasedTokens(db: Db, f: Fetcher, g: string)
    requires g in db.groups
    ensures Holds(db, Released(f), g) && TokenShare(db, Released(f), g)
  {
    AmongEmpty(db.jobs, GroupLane(g));
  }

  lemma {:induction false} RunIsMetered(states: seq<Sys>, labels: seq<Label>, g: string, k: nat)
    requires IsRun(states, labels) && Start(states[0]) && g in states[0].db.groups && k < |states|
    ensures Orderly(states[k]) && Metered(states[k], g)
  {
    hide Orderly, Start, Metered, CanMove, CanHappen, Next;
    if k == 0 {
      StartIsOrderly(states[0]);
      StartIsMetered(states[0], g);
    } else {
      RunIsMetered(states, labels, g, k - 1);
      StepIsOrderly(states[k - 1], labels[k - 1]);
      match labels[k - 1]
      case Env(e) => EnvKeepsTokens(states[k - 1], e, g);
      case By(i, m) => MoveKeepsTokens(states[k - 1], i, m, g);
    }
  }

  // ---- Each commit is one grant ----

  /** What one label does to a rate-limited row: nothing but at most one grant, spent as the bucket says. */
  ghost predicate Spends(row: Group, row': Group, gs: seq<Grant>)
    requires RateLimited(row)
  {
    && row'.rateCount == row.rateCount && row'.ratePeriod == row.ratePeriod
    && AllAdmissible(BucketOf(row), gs, row.rateCount.value, row.ratePeriod.value)
    && BucketOf(row') == After(BucketOf(row), gs, row.rateCount.value, row.ratePeriod.value)
  }

  lemma NoGrant(row: Group)
    requires RateLimited(row)
    ensures Spends(row, row, [])
  {
  }

  lemma OneGrant(row: Group, row': Group, grant: Grant)
    requires RateLimited(row) && row'.rateCount == row.rateCount && row'.ratePeriod == row.ratePeriod
    requires Admissible(BucketOf(row), grant, row.rateCount.value, row.ratePeriod.value)
    requires BucketOf(row') == Spend(BucketOf(row), grant, row.rateCount.value, row.ratePeriod.value)
    ensures Spends(row, row', [grant])
  {
    var gs := [grant];
    assert gs[..0] == [];
    assert After(BucketOf(row), [], row.rateCount.value, row.ratePeriod.value) == BucketOf(row);
  }

  lemma CommitSpends(db: Db, f: Fetcher, g: string)
    requires g in db.groups && RateLimited(db.groups[g]) && TokenShare(db, f, g)
    ensures g in Committed(db, f).groups
    ensures var n := |Among(db.jobs, f.accepted, GroupLane(g))|;
            Spends(db.groups[g], Committed(db, f).groups[g], if n == 0 then [] else [Grant(f.clock, n)])
  {
    hide ClaimedJobs, ClaimedQueues, RunningOn, Spends;
    var n := |Among(db.jobs, f.accepted, GroupLane(g))|;
    if n == 0 {
      NoGrant(db.groups[g]);
    } else {
      OneGrant(db.groups[g], Committed(db, f).groups[g], Grant(f.clock, n));
    }
  }

  /** Each commit that takes from a rate-limited row is one admissible grant, and nothing else, short of
      an operator editing that rate, touches its balance. */
  lemma StepSpends(s: Sys, l: Label, g: string)
    requires Metered(s, g) && RateLimited(s.db.groups[g]) && Can(s, l) && !EditsRate(l, g)
    ensures g in Next(s, l).db.groups && Spends(s.db.groups[g], Next(s, l).db.groups[g], GrantOf(s, l, g))
    ensures |GrantOf(s, l, g)| <= 1
  {
    hide Apply, Enabled, Committed, TokenShare, Holds, ClaimFits;
    match l
    case Env(e) => Rows.GroupStays(s.db, e, g);
    case By(i, m) => if m.Commit? { CommitSpends(s.db, s.fetchers[i], g); }
  }

  lemma {:induction false} RunSpends(states: seq<Sys>, labels: seq<Label>, g: string, j: nat, k: nat)
    requires IsRun(states, labels) && Start(states[0]) && g in states[0].db.groups && j <= k <= |labels|
    requires g in states[j].db.groups && RateLimited(states[j].db.groups[g])
    requires forall x :: j <= x < k ==> !EditsRate(labels[x], g)
    ensures g in states[k].db.groups
    ensures Spends(states[j].db.groups[g], states[k].db.groups[g], Grants(states, labels, g, j, k))
  {
    hide Orderly, Start, TokenShare, Can, Next, EditsRate, GrantOf;
    if k > j {
      RunSpends(states, labels, g, j, k - 1);
      RunIsMetered(states, labels, g, k - 1);
      StepSpends(states[k - 1], labels[k - 1], g);
      var before, grant := Grants(states, labels, g, j, k - 1), GrantOf(states[k - 1], labels[k - 1], g);
      SpendsOn(states[j].db.groups[g], states[k - 1].db.groups[g], states[k].db.groups[g], before, grant);
    }
  }

  lemma SpendsOn(row: Group, row1: Group, row2: Group, before: seq<Grant>, grant: seq<Grant>)
    requires RateLimited(row) && Spends(row, row1, before) && Spends(row1, row2, grant) && |grant| <= 1
    ensures Spends(row, row2, before + grant)
  {
    if grant == [] {
      assert before + grant == before;
    } else {
      assert (before + grant)[..|before|] == before;
      assert grant[..0] == [];
      assert After(BucketOf(row1), [], row.rateCount.value, row.ratePeriod.value) == BucketOf(row1);
    }
  }

  /** The rate bound holds for the starts of a group over any stretch of any run, from label `j` to label
      `k`, in which nobody edits that group's rate, whatever was edited before. */
  lemma StartsAreRateBounded(states: seq<Sys>, labels: seq<Label>, g: string, j: nat, k: nat)
    requires IsRun(states, labels) && Start(states[0]) && g in states[0].db.groups && j <= k <= |labels|
    requires g in states[j].db.groups && RateLimited(states[j].db.groups[g])
    requires forall x :: j <= x < k ==> !EditsRate(labels[x], g)
    requires Grants(states, labels, g, j, k) != []
    ensures var row := states[j].db.groups[g];
            WithinRate(Grants(states, labels, g, j, k), row.rateCount.value, row.ratePeriod.value)
  {
    hide Start, Can, Next, EditsRate, WithinRate, Grants;
    RunSpends(states, labels, g, j, k);
    var row := states[j].db.groups[g];
    RateBound(BucketOf(row), Grants(states, labels, g, j, k), row.rateCount.value, row.ratePeriod.value);
  }

  // ---- Balances ----

  ghost predicate InRange(row: Group) {
    RateLimited(row) ==> 0.0 <= row.tokens <= row.rateCount.value as real
  }

  lemma SpendingStaysInRange(row: Group, row': Group, gs: seq<Grant>)
    requires RateLimited(row) && InRange(row) && Spends(row, row', gs) && |gs| <= 1
    ensures InRange(row')
  {
    if gs != [] {
      assert gs[..0] == [];
      TokensStayInRange(After(BucketOf(row), [], row.rateCount.value, row.ratePeriod.value), gs[0],
                        row.rateCount.value, row.ratePeriod.value);
    }
  }

  /** Setting a rate fills the bucket; clearing it, or editing anything else, leaves nothing out of range. */
  lemma EditIsInRange(row: Group, e: GroupEdit, now: Time)
    requires InRange(row) && (e.GroupRate? ==> e.count > 0)
    ensures InRange(EditedGroup(row, e, now))
  {
  }

  lemma StepStaysInRange(s: Sys, l: Label, g: string)
    requires Metered(s, g) && InRange(s.db.groups[g]) && Can(s, l)
    ensures g in Next(s, l).db.groups && InRange(Next(s, l).db.groups[g])
  {
    hide Spends, Apply, Enabled, Committed, TokenShare, Holds, ClaimFits;
    var row := s.db.groups[g];
    match l
    case Env(e) =>
      Rows.GroupStays(s.db, e, g);
      if e.GroupAdmin? && (e.groupEdit.GroupRate? ==> e.groupEdit.count > 0) {
        EditIsInRange(row, e.groupEdit, e.at);
      }
    case By(i, m) =>
      if m.Commit? {
        CommitKeepsGroup(s.db, s.fetchers[i], g);
        if RateLimited(row) {
          CommitSpends(s.db, s.fetchers[i], g);
          SpendingStaysInRange(row, Next(s, l).db.groups[g], GrantOf(s, l, g));
        }
      }
  }

  /** A rate-limited row's balance never leaves [0, rate_count], operators setting, clearing and setting
      its rate again included. */
  lemma {:induction false} TokensAlwaysInRange(states: seq<Sys>, labels: seq<Label>, g: string, k: nat)
    requires IsRun(states, labels) && Start(states[0]) && k < |states|
    requires g in states[0].db.groups && InRange(states[0].db.groups[g])
    ensures g in states[k].db.groups && InRange(states[k].db.groups[g])
  {
    hide Orderly, Start, Metered, Can, Next, InRange;
    if k > 0 {
      TokensAlwaysInRange(states, labels, g, k - 1);
      RunIsMetered(states, labels, g, k - 1);
      StepStaysInRange(states[k - 1], labels[k - 1], g);
    }
  }

  /** A limit starts with a full bucket, whether a rule or an operator sets it: the first poll may start
      `rate_count` jobs at once, concurrency permitting, and never more. */
  lemma NewLimitStartsFull(g: Group, r: Rule, count: int, period: int, now: Time)
    requires count > 0 && period > 0 && r.rateCount == Some(count) && r.ratePeriod == Some(period)
    ensures var edited, ruled := EditedGroup(g, GroupRate(count, period), now), FromRule(r, now);
            && RateLimited(edited) && InRange(edited) && RateLimited(ruled) && InRange(ruled)
            && SlotOf(edited, now).slots == Min(ConcurrencySlots(g.running, g.maxConcurrency, g.paused), Min(count, MAX_I32))
            && SlotOf(ruled, now).slots == Min(Max(ruled.maxConcurrency, 0), Min(count, MAX_I32))
  {
    assert 0 as real * Rate(count, period) == 0.0;
    assert (count as real).Floor == count;
  }
}
