/** The per-group rate limit: a token bucket refilled lazily from the row's last
    write. Balances are reals; rounding of the doubles in `claim_batch` is not modelled. */
module TokenBucket {
  import opened Tables
  import Columns

  // ---- Slots of one group row (phase 2 of claim_batch) ----

  predicate RateLimited(g: Group) {
    g.rateCount.Some? && g.ratePeriod.Some? && g.rateCount.value > 0 && g.ratePeriod.value > 0
  }

  function ConcurrencySlots(running: int, max: int, paused: bool): int {
    if paused then 0 else Max(max - running, 0)
  }

  function Clamp(x: real, hi: real): real {
    if (if x < hi then x else hi) < 0.0 then 0.0 else if x < hi then x else hi
  }

  function Rate(count: int, period: int): real
    requires period > 0
  {
    count as real / period as real
  }

  /** Milliseconds since the last write; never negative, and zero before any write. */
  function Elapsed(at: Option<Time>, now: Time): nat {
    if at.Some? then Max(now - at.value, 0) else 0
  }

  function Refill(tokens: real, at: Option<Time>, now: Time, count: int, period: int): real
    requires period > 0
  {
    Clamp(tokens + Elapsed(at, now) as real * Rate(count, period), count as real)
  }

  /** `GroupState`: the slot budget, and what is needed to write the balance back. */
  datatype Slot = Slot(slots: int, tokens: real, limited: bool)

  const UNLIMITED := Slot(MAX_I32, 0.0, false)

  function SlotOf(g: Group, now: Time): Slot {
    var conc := ConcurrencySlots(g.running, g.maxConcurrency, g.paused);
    if RateLimited(g) then
      var t := Refill(g.tokens, g.refilledAt, now, g.rateCount.value, g.ratePeriod.value);
      Slot(Min(conc, Min(Max(t.Floor, 0), MAX_I32)), t, true)
    else Slot(Min(conc, MAX_I32), 0.0, false)
  }

  /** The balance written back with a claim of `n` jobs. */
  function Remaining(tokens: real, n: nat): real {
    if tokens - n as real < 0.0 then 0.0 else tokens - n as real
  }

  // ---- A run of claims on one bucket ----

  datatype Bucket = Bucket(tokens: real, at: Option<Time>)
  datatype Grant = Grant(now: Time, n: nat)

  function Avail(b: Bucket, now: Time, count: int, period: int): real
    requires period > 0
  {
    Refill(b.tokens, b.at, now, count, period)
  }

  function Spend(b: Bucket, g: Grant, count: int, period: int): Bucket
    requires period > 0
  {
    Bucket(Remaining(Avail(b, g.now, count, period), g.n), Some(g.now))
  }

  /** A claim takes no more than the whole tokens it saw. */
  predicate Admissible(b: Bucket, g: Grant, count: int, period: int)
    requires period > 0
  {
    g.n <= Avail(b, g.now, count, period).Floor
  }

  function After(b: Bucket, gs: seq<Grant>, count: int, period: int): Bucket
    requires period > 0
    decreases |gs|
  {
    if gs == [] then b else Spend(After(b, gs[..|gs| - 1], count, period), gs[|gs| - 1], count, period)
  }

  predicate AllAdmissible(b: Bucket, gs: seq<Grant>, count: int, period: int)
    requires period > 0
    decreases |gs|
  {
    gs == [] ||
    var n := |gs| - 1;
    AllAdmissible(b, gs[..n], count, period) && Admissible(After(b, gs[..n], count, period), gs[n], count, period)
  }

  function Total(gs: seq<Grant>): nat
    decreases |gs|
  {
    if gs == [] then 0 else Total(gs[..|gs| - 1]) + gs[|gs| - 1].n
  }

  /** How far the clock stepped back between successive writes, in total. */
  function Backward(gs: seq<Grant>): nat
    decreases |gs|
  {
    if |gs| < 2 then 0
    else Backward(gs[..|gs| - 1]) + Max(gs[|gs| - 2].now - gs[|gs| - 1].now, 0)
  }

  lemma RefillBounds(tokens: real, at: Option<Time>, now: Time, count: int, period: int)
    requires period > 0 && count > 0
    ensures 0.0 <= Refill(tokens, at, now, count, period) <= count as real
    ensures tokens >= 0.0 ==>
              Refill(tokens, at, now, count, period) <= tokens + Elapsed(at, now) as real * Rate(count, period)
  {
    NonNegative(Elapsed(at, now), count, period);
  }

  lemma NonNegative(n: nat, count: int, period: int)
    requires period > 0 && count > 0
    ensures n as real * Rate(count, period) >= 0.0
  {
    assert Rate(count, period) > 0.0;
  }

  /** The balance stays in [0, count] whatever is granted. */
  lemma TokensStayInRange(b: Bucket, g: Grant, count: int, period: int)
    requires period > 0 && count > 0
    ensures 0.0 <= Spend(b, g, count, period).tokens <= count as real
  {
    RefillBounds(b.tokens, b.at, g.now, count, period);
  }

  /** Tokens that can accrue between two writes. */
  function Gain(from: Time, to: Time, count: int, period: int): real
    requires period > 0
  {
    Max(to - from, 0) as real * Rate(count, period)
  }

  function Accrued(gs: seq<Grant>, count: int, period: int): real
    requires period > 0
    decreases |gs|
  {
    if |gs| < 2 then 0.0
    else Accrued(gs[..|gs| - 1], count, period) + Gain(gs[|gs| - 2].now, gs[|gs| - 1].now, count, period)
  }

  lemma {:induction false} AccruedIsLinear(gs: seq<Grant>, count: int, period: int)
    requires period > 0 && gs != []
    ensures Accrued(gs, count, period)
            == Rate(count, period) * (gs[|gs| - 1].now - gs[0].now + Backward(gs)) as real
    decreases |gs|
  {
    if |gs| > 1 {
      var n := |gs| - 1;
      AccruedIsLinear(gs[..n], count, period);
      Distributes(Rate(count, period), gs[n - 1].now - gs[0].now + Backward(gs[..n]), Max(gs[n].now - gs[n - 1].now, 0));
    }
  }

  lemma Distributes(r: real, span: int, step: int)
    ensures r * (span + step) as real == r * span as real + step as real * r
  {
  }

  lemma SpendSplits(b: Bucket, g: Grant, count: int, period: int)
    requires period > 0 && count > 0 && Admissible(b, g, count, period)
    ensures var left := Spend(b, g, count, period).tokens;
            && left >= 0.0 && g.n as real + left <= count as real
            && (b.tokens >= 0.0 && b.at.Some? ==>
                  g.n as real + left <= b.tokens + Gain(b.at.value, g.now, count, period))
  {
    RefillBounds(b.tokens, b.at, g.now, count, period);
    assert g.n as real <= Avail(b, g.now, count, period);
  }

  ghost predicate Funded(total: nat, left: real, count: int, accrued: real) {
    left >= 0.0 && total as real + left <= count as real + accrued
  }

  lemma FundedStep(total: nat, left: real, count: int, accrued: real, n: nat, left': real, gain: real)
    requires Funded(total, left, count, accrued)
    requires left' >= 0.0 && n as real + left' <= left + gain
    ensures Funded(total + n, left', count, accrued + gain)
  {
  }

  lemma {:induction false} Potential(b: Bucket, gs: seq<Grant>, count: int, period: int)
    requires period > 0 && count > 0 && gs != [] && AllAdmissible(b, gs, count, period)
    ensures After(b, gs, count, period).at == Some(gs[|gs| - 1].now)
    ensures Funded(Total(gs), After(b, gs, count, period).tokens, count, Accrued(gs, count, period))
    decreases |gs|
  {
    var n := |gs| - 1;
    var before, last := After(b, gs[..n], count, period), gs[n];
    SpendSplits(before, last, count, period);
    if n > 0 {
      Potential(b, gs[..n], count, period);
      FundedStep(Total(gs[..n]), before.tokens, count, Accrued(gs[..n], count, period),
                 last.n, Spend(before, last, count, period).tokens, Gain(gs[n - 1].now, last.now, count, period));
    }
  }

  /** The starts of a window: at most the burst, plus what accrues from its first clock reading to
      its last, plus what backward clock steps let accrue twice. */
  predicate WithinRate(gs: seq<Grant>, count: int, period: int)
    requires period > 0
  {
    gs != [] ==>
      Total(gs) as real
      <= count as real + Rate(count, period) * (gs[|gs| - 1].now - gs[0].now + Backward(gs)) as real
  }

  /** `gs` is any contiguous run of claims, from any earlier balance, with clock readings that may step back. */
  lemma RateBound(b: Bucket, gs: seq<Grant>, count: int, period: int)
    requires period > 0 && count > 0 && gs != [] && AllAdmissible(b, gs, count, period)
    ensures WithinRate(gs, count, period)
  {
    Potential(b, gs, count, period);
    AccruedIsLinear(gs, count, period);
  }

  // ---- Lazy refilling refines refilling at every poll ----

  /** What `claim_batch` does: the row is written only when something was claimed. */
  function LazyPoll(b: Bucket, g: Grant, count: int, period: int): Bucket
    requires period > 0
  {
    if g.n == 0 then b else Spend(b, g, count, period)
  }

  /** The reference: every poll adds what accrued since the last one, up to the burst, stamps and spends. */
  function EagerPoll(b: Bucket, g: Grant, count: int, period: int): Bucket
    requires period > 0
  {
    var t := Topped(b, g.now, count, period);
    Bucket(if t < g.n as real then 0.0 else t - g.n as real, Some(g.now))
  }

  /** What a bucket written at `b.at` holds at a later instant. */
  function Topped(b: Bucket, now: Time, count: int, period: int): real
    requires period > 0
  {
    var since := if b.at.Some? then now - b.at.value else 0;
    var t := b.tokens + since as real * count as real / period as real;
    if t > count as real then count as real else t
  }

  /** On a clock that has not gone back, the lazy refill is that. */
  lemma RefillTops(b: Bucket, now: Time, count: int, period: int)
    requires period > 0 && count > 0 && 0.0 <= b.tokens && (b.at.Some? ==> b.at.value <= now)
    ensures Avail(b, now, count, period) == Topped(b, now, count, period)
  {
    var since := if b.at.Some? then now - b.at.value else 0;
    RateTimes(since, count, period);
    NonNegative(since, count, period);
  }

  lemma RateTimes(n: nat, count: int, period: int)
    requires period > 0
    ensures n as real * Rate(count, period) == n as real * count as real / period as real
  {
  }

  function LazyRun(b: Bucket, gs: seq<Grant>, count: int, period: int): Bucket
    requires period > 0
    decreases |gs|
  {
    if gs == [] then b else LazyPoll(LazyRun(b, gs[..|gs| - 1], count, period), gs[|gs| - 1], count, period)
  }

  function EagerRun(b: Bucket, gs: seq<Grant>, count: int, period: int): Bucket
    requires period > 0
    decreases |gs|
  {
    if gs == [] then b else EagerPoll(EagerRun(b, gs[..|gs| - 1], count, period), gs[|gs| - 1], count, period)
  }

  /** Refilling to an intermediate instant first changes nothing. */
  lemma RefillComposes(tokens: real, a: Time, s: Time, t: Time, count: int, period: int)
    requires period > 0 && count > 0 && a <= s <= t && 0.0 <= tokens <= count as real
    ensures Refill(Refill(tokens, Some(a), s, count, period), Some(s), t, count, period)
            == Refill(tokens, Some(a), t, count, period)
  {
    var r := Rate(count, period);
    assert ((s - a) + (t - s)) as real * r == (s - a) as real * r + (t - s) as real * r;
    NonNegative(s - a, count, period);
    NonNegative(t - s, count, period);
  }

  ghost predicate Nondecreasing(from: Time, gs: seq<Grant>) {
    forall i, j :: 0 <= i < |gs| ==> from <= gs[i].now && (i <= j < |gs| ==> gs[i].now <= gs[j].now)
  }

  lemma {:induction false} LazyTracksEager(b: Bucket, gs: seq<Grant>, count: int, period: int)
    requires period > 0 && count > 0 && b.at.Some? && 0.0 <= b.tokens <= count as real
    requires Nondecreasing(b.at.value, gs)
    ensures var l, e := LazyRun(b, gs, count, period), EagerRun(b, gs, count, period);
            && l.at.Some? && e.at.Some? && l.at.value <= e.at.value
            && 0.0 <= l.tokens <= count as real
            && e.tokens == Refill(l.tokens, l.at, e.at.value, count, period)
            && e.at.value == (if gs == [] then b.at.value else gs[|gs| - 1].now)
    decreases |gs|
  {
    if gs == [] {
      assert Elapsed(b.at, b.at.value) == 0;
      assert 0 as real * Rate(count, period) == 0.0;
    } else {
      var n := |gs| - 1;
      LazyTracksEager(b, gs[..n], count, period);
      var l, e := LazyRun(b, gs[..n], count, period), EagerRun(b, gs[..n], count, period);
      assert n > 0 ==> gs[n - 1].now <= gs[n].now;
      RefillComposes(l.tokens, l.at.value, e.at.value, gs[n].now, count, period);
      RefillBounds(l.tokens, l.at, e.at.value, count, period);
      RefillBounds(l.tokens, l.at, gs[n].now, count, period);
      RefillTops(e, gs[n].now, count, period);
      assert 0 as real * Rate(count, period) == 0.0;
    }
  }

  /** Any poll, at any instant no earlier than the last, sees the same tokens in either scheme. */
  lemma LazyRefinesEager(b: Bucket, gs: seq<Grant>, now: Time, count: int, period: int)
    requires period > 0 && count > 0 && b.at.Some? && 0.0 <= b.tokens <= count as real
    requires Nondecreasing(b.at.value, gs + [Grant(now, 0)])
    ensures Avail(LazyRun(b, gs, count, period), now, count, period)
            == Topped(EagerRun(b, gs, count, period), now, count, period)
  {
    var all := gs + [Grant(now, 0)];
    assert forall i :: 0 <= i < |gs| ==> all[i] == gs[i];
    assert all[|gs|].now == now;
    LazyTracksEager(b, gs, count, period);
    var l, e := LazyRun(b, gs, count, period), EagerRun(b, gs, count, period);
    assert |gs| > 0 ==> all[|gs| - 1].now <= all[|gs|].now;
    RefillComposes(l.tokens, l.at.value, e.at.value, now, count, period);
    RefillBounds(l.tokens, l.at, e.at.value, count, period);
    RefillTops(e, now, count, period);
  }

  // ---- The row's own arithmetic ----

  lemma BalanceIsRefill(g: Group, clock: Time)
    requires Columns.HasRate(g)
    ensures Refill(g.tokens, g.refilledAt, clock, g.rateCount.value, g.ratePeriod.value) == Columns.Balance(g, clock)
    ensures Columns.Balance(g, clock) >= 0.0
  {
    RateTimes(Elapsed(g.refilledAt, clock), g.rateCount.value, g.ratePeriod.value);
  }

  lemma WholeTokens(x: real)
    requires x >= 0.0
    ensures x.Floor >= 0
  {
  }

  /** The slots of a row, and the balance they come from, are what its columns say. */
  lemma SlotIsRoom(g: Group, clock: Time)
    ensures SlotOf(g, clock).slots == Columns.GroupRoom(g, clock)
    ensures SlotOf(g, clock).limited <==> Columns.HasRate(g)
    ensures Columns.HasRate(g) ==> SlotOf(g, clock).tokens == Columns.Balance(g, clock)
  {
    hide Refill, Columns.Balance;
    if Columns.HasRate(g) {
      BalanceIsRefill(g, clock);
      WholeTokens(Columns.Balance(g, clock));
    }
  }

  /** The other side of the rate bound: after a full period without a write the bucket is full again, so the
      next poll may start `rateCount` jobs, concurrency permitting. */
  lemma FullAfterPeriod(g: Group, clock: Time)
    requires Columns.HasRate(g) && g.tokens >= 0.0 && g.refilledAt.Some? && clock - g.refilledAt.value >= g.ratePeriod.value
    ensures SlotOf(g, clock).slots == if g.paused || g.running >= g.maxConcurrency then 0
                                      else Min(Min(g.maxConcurrency - g.running, g.rateCount.value), 2147483647)
  {
    var count, period, since := g.rateCount.value, g.ratePeriod.value, clock - g.refilledAt.value;
    FullPeriodFills(since, count, period);
    assert (count as real).Floor == count;
  }

  lemma FullPeriodFills(since: nat, count: int, period: int)
    requires period > 0 && count > 0 && since >= period
    ensures since as real * Rate(count, period) >= count as real
  {
    assert period as real * Rate(count, period) == count as real;
    assert (since - period) as real * Rate(count, period) >= 0.0 by { NonNegative(since - period, count, period); }
    assert since as real * Rate(count, period) == period as real * Rate(count, period) + (since - period) as real * Rate(count, period);
  }

  /** Nothing is lost: short of the burst, what was not spent and what accrued are all still there. */
  lemma NothingIsLost(b: Bucket, g: Grant, count: int, period: int, later: Time)
    requires period > 0 && count > 0 && b.at.Some? && 0.0 <= b.tokens && b.at.value <= g.now <= later
    requires Admissible(b, g, count, period)
    requires b.tokens + (g.now - b.at.value) as real * Rate(count, period) <= count as real
    requires b.tokens + (later - b.at.value) as real * Rate(count, period) - g.n as real <= count as real
    ensures Avail(Spend(b, g, count, period), later, count, period)
            == b.tokens + (later - b.at.value) as real * Rate(count, period) - g.n as real
  {
    var r := Rate(count, period);
    NonNegative(g.now - b.at.value, count, period);
    NonNegative(later - g.now, count, period);
    assert g.n as real <= Avail(b, g.now, count, period);
    assert (later - b.at.value) as real * r == (g.now - b.at.value) as real * r + (later - g.now) as real * r;
  }
}
