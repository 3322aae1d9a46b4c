/** The cached histogram of finished jobs: any number of callers reading, checking and
    refreshing it, interleaved statement by statement. A transaction's writes to the
    cache become visible when it commits. */
module StatsCache {
  import opened Tables

  type Hist = map<(string, JobState), nat>

  function InCell(jobs: map<JobId, Job>, cell: (string, JobState)): set<JobId> {
    set id | id in jobs && jobs[id].state.Terminal() && (jobs[id].queue, jobs[id].state) == cell
  }

  /** SELECT queue, state, COUNT(*) ... GROUP BY queue, state over the terminal states. */
  function Histogram(jobs: map<JobId, Job>): Hist {
    map cell | cell in (set id | id in jobs && jobs[id].state.Terminal() :: (jobs[id].queue, jobs[id].state)) :: |InCell(jobs, cell)|
  }

  /** `hist` has one cell per queue and terminal state that some job is in, with the number of those jobs. */
  ghost predicate Counts(jobs: map<JobId, Job>, hist: Hist) {
    forall q: string, s: JobState ::
      && ((q, s) in hist <==> s.Terminal() && exists id :: id in jobs && jobs[id].queue == q && jobs[id].state == s)
      && ((q, s) in hist ==> hist[(q, s)] == |set id | id in jobs && jobs[id].queue == q && jobs[id].state == s|)
  }

  lemma HistogramCounts(jobs: map<JobId, Job>)
    ensures Counts(jobs, Histogram(jobs))
  {
    forall q: string, s: JobState | s.Terminal()
      ensures InCell(jobs, (q, s)) == set id | id in jobs && jobs[id].queue == q && jobs[id].state == s
    {
    }
    forall q: string, s: JobState
      ensures (q, s) in Histogram(jobs) <==> s.Terminal() && exists id :: id in jobs && jobs[id].queue == q && jobs[id].state == s
    {
    }
  }

  datatype Snapshot = Snapshot(hist: Hist, computedAt: Time)

  /** Where a caller is. `start` is its transaction's `now()`. */
  datatype Phase =
    | Idle
    | Begun(start: Time)
    | Stale(start: Time)
    | Waiting(start: Time)
    | Locked(start: Time)
    | Deleted(start: Time)
    | Filled(start: Time, hist: Hist)
    | Stamped(start: Time, hist: Hist)
    | Reading(start: Time)

  datatype Sys = Sys(now: Time, jobs: map<JobId, Job>, cache: Option<Snapshot>, lock: Option<nat>, callers: map<nat, Phase>)

  datatype Act = Begin | CheckFresh | TryLock | WaitLock | Recheck | Fill | Stamp | ReadAndCommit | Abort

  datatype Label = World(now: Time, jobs: map<JobId, Job>) | By(i: nat, act: Act)

  /** `snapshot_fresh`: None without a snapshot, else whether it is younger than the TTL by the current clock. */
  function Fresh(s: Sys, ttl: nat): Option<bool> {
    if s.cache.None? then None else Some(s.cache.value.computedAt > s.now - ttl)
  }

  predicate Can(s: Sys, l: Label) {
    match l
    case World(now, _) => s.now <= now
    case By(i, act) =>
      i in s.callers &&
      var p := s.callers[i];
      match act
      case Begin => p.Idle?
      case CheckFresh => p.Begun?
      case TryLock => p.Stale?
      case WaitLock => p.Waiting? && s.lock.None?
      case Recheck => p.Locked?
      case Fill => p.Deleted?
      case Stamp => p.Filled?
      case ReadAndCommit => p.Stamped? || (p.Reading? && s.cache.Some?)
      case Abort => !p.Idle?
  }

  function Unlocked(lock: Option<nat>, i: nat): Option<nat> {
    if lock == Some(i) then None else lock
  }

  function Next(s: Sys, l: Label, ttl: nat): Sys
    requires Can(s, l)
  {
    match l
    case World(now, jobs) => s.(now := now, jobs := jobs)
    case By(i, act) =>
      var p := s.callers[i];
      match act
      case Begin => s.(callers := s.callers[i := Begun(s.now)])
      case CheckFresh =>
        s.(callers := s.callers[i := if Fresh(s, ttl).None? then Waiting(p.start)
                                     else if Fresh(s, ttl) == Some(true) then Reading(p.start) else Stale(p.start)])
      case TryLock =>
        if s.lock.None? then s.(lock := Some(i), callers := s.callers[i := Locked(p.start)])
        else s.(callers := s.callers[i := Reading(p.start)])
      case WaitLock => s.(lock := Some(i), callers := s.callers[i := Locked(p.start)])
      case Recheck => s.(callers := s.callers[i := if Fresh(s, ttl) == Some(true) then Reading(p.start) else Deleted(p.start)])
      case Fill => s.(callers := s.callers[i := Filled(p.start, Histogram(s.jobs))])
      case Stamp => s.(callers := s.callers[i := Stamped(p.start, p.hist)])
      case ReadAndCommit =>
        s.(callers := s.callers[i := Idle], lock := Unlocked(s.lock, i),
           cache := if p.Stamped? then Some(Snapshot(p.hist, p.start)) else s.cache)
      case Abort => s.(callers := s.callers[i := Idle], lock := Unlocked(s.lock, i))
  }

  /** What a committing caller returns, with the stamp that goes with it. */
  function Returned(s: Sys, i: nat): Snapshot
    requires Can(s, By(i, ReadAndCommit))
  {
    if s.callers[i].Stamped? then Snapshot(s.callers[i].hist, s.callers[i].start) else s.cache.value
  }

  ghost predicate IsRun(states: seq<Sys>, labels: seq<Label>, ttl: nat) {
    && |states| == |labels| + 1
    && states[0].cache.None? && states[0].lock.None? && (forall i :: i in states[0].callers ==> states[0].callers[i] == Idle)
    && forall k :: 0 <= k < |labels| ==> Can(states[k], labels[k]) && states[k + 1] == Next(states[k], labels[k], ttl)
  }

  // ---- The invariant ----

  /** `snap` is the true histogram of some state up to `k`, at an instant no earlier than its stamp. */
  ghost predicate Genuine(states: seq<Sys>, k: nat, snap: Snapshot)
    requires k < |states|
  {
    exists x: nat :: x <= k && Counts(states[x].jobs, snap.hist) && snap.computedAt <= states[x].now <= states[k].now
  }

  predicate Refreshing(p: Phase) {
    p.Locked? || p.Deleted? || p.Filled? || p.Stamped?
  }

  /** A refresher in progress holds the lock, saw a missing or expired snapshot under it, and nobody has replaced it since. */
  ghost predicate CallerOk(states: seq<Sys>, k: nat, i: nat, ttl: nat)
    requires k < |states| && i in states[k].callers
  {
    var s, p := states[k], states[k].callers[i];
    && (!p.Idle? ==> p.start <= s.now)
    && (Refreshing(p) ==> s.lock == Some(i))
    && (p.Deleted? || p.Filled? || p.Stamped? ==> s.cache.None? || s.cache.value.computedAt + ttl <= s.now)
    && (p.Filled? || p.Stamped? ==> Genuine(states, k, Snapshot(p.hist, p.start)))
    && (p.Stale? || p.Reading? ==> s.cache.Some?)
  }

  ghost predicate Ok(states: seq<Sys>, k: nat, ttl: nat)
    requires k < |states|
  {
    && (states[k].cache.Some? ==> Genuine(states, k, states[k].cache.value))
    && (forall i :: i in states[k].callers ==> CallerOk(states, k, i, ttl))
    && (states[k].lock.Some? ==> states[k].lock.value in states[k].callers)
  }

  lemma GenuineLater(states: seq<Sys>, k: nat, snap: Snapshot)
    requires k + 1 < |states| && Genuine(states, k, snap) && states[k].now <= states[k + 1].now
    ensures Genuine(states, k + 1, snap)
  {
    var x: nat :| x <= k && Counts(states[x].jobs, snap.hist) && snap.computedAt <= states[x].now <= states[k].now;
  }

  lemma ScanIsGenuine(states: seq<Sys>, k: nat, start: Time)
    requires k + 1 < |states| && start <= states[k].now <= states[k + 1].now
    ensures Genuine(states, k + 1, Snapshot(Histogram(states[k].jobs), start))
  {
    HistogramCounts(states[k].jobs);
    hide Counts;
    assert k <= k + 1;
  }

  lemma CallerStays(states: seq<Sys>, k: nat, l: Label, ttl: nat, j: nat)
    requires k + 1 < |states| && Ok(states, k, ttl) && Can(states[k], l) && states[k + 1] == Next(states[k], l, ttl)
    requires j in states[k].callers && (l.By? ==> l.i != j)
    ensures CallerOk(states, k + 1, j, ttl)
  {
    hide Genuine, Histogram;
    var p := states[k].callers[j];
    assert CallerOk(states, k, j, ttl);
    if l.By? {
      assert CallerOk(states, k, l.i, ttl);
    }
    if p.Filled? || p.Stamped? {
      GenuineLater(states, k, Snapshot(p.hist, p.start));
    }
  }

  lemma CallerMoves(states: seq<Sys>, k: nat, l: Label, ttl: nat)
    requires k + 1 < |states| && Ok(states, k, ttl) && l.By? && Can(states[k], l) && states[k + 1] == Next(states[k], l, ttl)
    ensures CallerOk(states, k + 1, l.i, ttl)
  {
    hide Genuine, Histogram;
    var p := states[k].callers[l.i];
    assert CallerOk(states, k, l.i, ttl);
    if l.act.Fill? {
      ScanIsGenuine(states, k, p.start);
    }
    if p.Filled? || p.Stamped? {
      GenuineLater(states, k, Snapshot(p.hist, p.start));
    }
  }

  lemma StepKeeps(states: seq<Sys>, k: nat, l: Label, ttl: nat)
    requires k + 1 < |states| && Ok(states, k, ttl) && Can(states[k], l) && states[k + 1] == Next(states[k], l, ttl)
    ensures Ok(states, k + 1, ttl)
  {
    hide Genuine, Histogram;
    var s, s' := states[k], states[k + 1];
    forall j | j in s'.callers ensures CallerOk(states, k + 1, j, ttl) {
      if l.By? && l.i == j {
        CallerMoves(states, k, l, ttl);
      } else {
        CallerStays(states, k, l, ttl, j);
      }
    }
    if s.cache.Some? {
      GenuineLater(states, k, s.cache.value);
    }
    if l.By? && s.callers[l.i].Stamped? {
      assert CallerOk(states, k, l.i, ttl);
      GenuineLater(states, k, Snapshot(s.callers[l.i].hist, s.callers[l.i].start));
    }
  }

  lemma {:induction false} RunIsOk(states: seq<Sys>, labels: seq<Label>, ttl: nat, k: nat)
    requires IsRun(states, labels, ttl) && k < |states|
    ensures Ok(states, k, ttl)
  {
    if k > 0 {
      RunIsOk(states, labels, ttl, k - 1);
      StepKeeps(states, k - 1, labels[k - 1], ttl);
    }
  }

  // ---- The theorems ----

  /** Every histogram ever returned is the true one at one past instant, no earlier than its stamp:
      never a mixture of two refreshes, never a half-written one. */
  lemma ReturnsOnePastInstant(states: seq<Sys>, labels: seq<Label>, ttl: nat, k: nat)
    requires IsRun(states, labels, ttl) && k < |labels| && labels[k].By? && labels[k].act == ReadAndCommit
    ensures Genuine(states, k, Returned(states[k], labels[k].i))
  {
    hide Genuine, Histogram;
    RunIsOk(states, labels, ttl, k);
    assert CallerOk(states, k, labels[k].i, ttl);
  }

  /** A caller about to read always finds a snapshot: it never has to report an empty cache. */
  lemma ReadersFindASnapshot(states: seq<Sys>, labels: seq<Label>, ttl: nat, k: nat, i: nat)
    requires IsRun(states, labels, ttl) && k < |states| && i in states[k].callers && states[k].callers[i].Reading?
    ensures Can(states[k], By(i, ReadAndCommit))
  {
    hide Genuine, Histogram;
    RunIsOk(states, labels, ttl, k);
    assert CallerOk(states, k, i, ttl);
  }

  /** A rescan happens only under the lock and only when the snapshot there is missing or past its TTL. */
  lemma RescansOnlyWhenDue(states: seq<Sys>, labels: seq<Label>, ttl: nat, k: nat)
    requires IsRun(states, labels, ttl) && k < |labels| && labels[k].By? && labels[k].act == Fill
    ensures states[k].lock == Some(labels[k].i)
    ensures states[k].cache.None? || states[k].cache.value.computedAt + ttl <= states[k].now
  {
    hide Genuine, Histogram;
    RunIsOk(states, labels, ttl, k);
    assert CallerOk(states, k, labels[k].i, ttl);
  }

  /** At most one caller is refreshing at any time. */
  lemma OneRefresher(states: seq<Sys>, labels: seq<Label>, ttl: nat, k: nat, i: nat, j: nat)
    requires IsRun(states, labels, ttl) && k < |states| && i in states[k].callers && j in states[k].callers
    requires Refreshing(states[k].callers[i]) && Refreshing(states[k].callers[j])
    ensures i == j
  {
    hide Genuine, Histogram;
    RunIsOk(states, labels, ttl, k);
    assert CallerOk(states, k, i, ttl) && CallerOk(states, k, j, ttl);
  }

  // ---- What a caller does ----

  /** A snapshot younger than the TTL is served as it is; an older one is served unless this caller gets the lock;
      without one the caller waits for the lock. Under the lock the age is judged again. */
  lemma JudgedByAge(s: Sys, i: nat, ttl: nat)
    requires i in s.callers
    ensures Can(s, By(i, CheckFresh)) ==>
              var p := Next(s, By(i, CheckFresh), ttl).callers[i];
              && (p.Waiting? <==> s.cache.None?)
              && (p.Reading? <==> s.cache.Some? && s.now - s.cache.value.computedAt < ttl)
              && (p.Stale? <==> s.cache.Some? && s.now - s.cache.value.computedAt >= ttl)
    ensures Can(s, By(i, Recheck)) ==>
              var p := Next(s, By(i, Recheck), ttl).callers[i];
              && (p.Reading? <==> s.cache.Some? && s.now - s.cache.value.computedAt < ttl)
              && (p.Deleted? <==> s.cache.None? || s.now - s.cache.value.computedAt >= ttl)
    ensures Can(s, By(i, TryLock)) ==>
              var s' := Next(s, By(i, TryLock), ttl);
              if s.lock.None? then s'.callers[i].Locked? && s'.lock == Some(i) else s'.callers[i].Reading? && s'.lock == s.lock
  {
  }

  /** A reader is given the snapshot that is there, and leaves it there. */
  lemma ReaderGetsSnapshot(s: Sys, i: nat, ttl: nat)
    requires i in s.callers && s.callers[i].Reading? && s.cache.Some?
    ensures Can(s, By(i, ReadAndCommit)) && Returned(s, i) == s.cache.value && Next(s, By(i, ReadAndCommit), ttl).cache == s.cache
  {
  }

  /** A caller that holds the lock and finds the snapshot missing or expired can go through: it rescans, stamps,
      commits the counts of that instant with its own start as their stamp, and lets the lock go. */
  lemma RefreshGoesThrough(s: Sys, i: nat, ttl: nat) returns (last: Sys)
    requires i in s.callers && s.callers[i].Locked? && s.lock == Some(i)
    requires s.cache.None? || s.now - s.cache.value.computedAt >= ttl
    ensures Can(s, By(i, Recheck))
    ensures var a := Next(s, By(i, Recheck), ttl);
            && Can(a, By(i, Fill))
            && var b := Next(a, By(i, Fill), ttl);
               && Can(b, By(i, Stamp))
               && var c := Next(b, By(i, Stamp), ttl);
                  Can(c, By(i, ReadAndCommit)) && last == Next(c, By(i, ReadAndCommit), ttl) && Returned(c, i) == last.cache.value
    ensures last.cache.Some? && Counts(s.jobs, last.cache.value.hist) && last.cache.value.computedAt == s.callers[i].start
    ensures last.lock.None? && last.callers[i].Idle?
  {
    HistogramCounts(s.jobs);
    hide Counts, Histogram;
    var a := Next(s, By(i, Recheck), ttl);
    var b := Next(a, By(i, Fill), ttl);
    var c := Next(b, By(i, Stamp), ttl);
    last := Next(c, By(i, ReadAndCommit), ttl);
  }
}
