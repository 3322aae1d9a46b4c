/** The handshake between one process's fetcher and its workers: a semaphore of idle
    workers, a bounded channel of claimed jobs and the set that is heartbeaten.
    Every interleaving of the fetcher loop with the worker loops is a run of steps. */
module Permits {
  import opened Tables

  /** Ending: the handler is over and its id is out of `in_flight`, but the permit is not back yet. */
  datatype Worker = Free | Handling(id: JobId) | Ending(id: JobId)

  /** Holding: a permit is taken for the job and it is not in the channel yet. */
  datatype Fetcher =
    | Parked
    | Claiming(batch: nat)
    | Delivering(todo: seq<JobId>)
    | Holding(id: JobId, registered: bool, rest: seq<JobId>)
    | Panicked

  datatype Proc = Proc(idle: int, channel: seq<JobId>, capacity: nat, inFlight: set<JobId>, fetcher: Fetcher, workers: seq<Worker>)

  datatype Step =
    | Poll(fetchBatch: nat)
    | ClaimFails
    | Claimed(jobs: seq<JobId>)
    | Acquire
    | Register
    | Send
    | Rest
    | Receive(w: nat)
    | Unregister(w: nat)
    | Release(w: nat)

  /** `start`: as many permits as workers, and a channel with room for one job each. */
  ghost predicate Start(p: Proc) {
    && p == Proc(|p.workers|, [], if |p.workers| < 1 then 1 else |p.workers|, {}, Parked, p.workers)
    && forall w :: 0 <= w < |p.workers| ==> p.workers[w] == Free
  }

  predicate Can(p: Proc, s: Step) {
    match s
    case Poll(_) => p.fetcher.Parked? && p.idle > 0
    case ClaimFails => p.fetcher.Claiming?
    case Claimed(jobs) => p.fetcher.Claiming? && |jobs| <= p.fetcher.batch
    case Acquire => p.fetcher.Delivering? && p.fetcher.todo != []
    case Register => p.fetcher.Holding? && !p.fetcher.registered
    case Send => p.fetcher.Holding? && p.fetcher.registered && |p.channel| < p.capacity
    case Rest => p.fetcher == Delivering([])
    case Receive(w) => w < |p.workers| && p.workers[w].Free? && p.channel != []
    case Unregister(w) => w < |p.workers| && p.workers[w].Handling?
    case Release(w) => w < |p.workers| && p.workers[w].Ending?
  }

  function Next(p: Proc, s: Step): Proc
    requires Can(p, s)
  {
    match s
    case Poll(fetchBatch) => p.(fetcher := Claiming(if fetchBatch < p.idle then fetchBatch else p.idle))
    case ClaimFails => p.(fetcher := Parked)
    case Claimed(jobs) => p.(fetcher := Delivering(jobs))
    case Acquire =>
      // try_acquire().expect(...)
      if p.idle <= 0 then p.(fetcher := Panicked)
      else p.(idle := p.idle - 1, fetcher := Holding(p.fetcher.todo[0], false, p.fetcher.todo[1..]))
    case Register => p.(inFlight := p.inFlight + {p.fetcher.id}, fetcher := p.fetcher.(registered := true))
    case Send => p.(channel := p.channel + [p.fetcher.id], fetcher := Delivering(p.fetcher.rest))
    case Rest => p.(fetcher := Parked)
    case Receive(w) => p.(channel := p.channel[1..], workers := p.workers[w := Handling(p.channel[0])])
    case Unregister(w) => p.(inFlight := p.inFlight - {p.workers[w].id}, workers := p.workers[w := Ending(p.workers[w].id)])
    case Release(w) => p.(idle := p.idle + 1, workers := p.workers[w := Free])
  }

  ghost predicate IsRun(ps: seq<Proc>, steps: seq<Step>) {
    && |ps| == |steps| + 1 && Start(ps[0])
    && forall k :: 0 <= k < |steps| ==> Can(ps[k], steps[k]) && ps[k + 1] == Next(ps[k], steps[k])
  }

  // ---- Conservation ----

  function Busy(ws: seq<Worker>): nat {
    if ws == [] then 0 else (if ws[0].Free? then 0 else 1) + Busy(ws[1..])
  }

  function InHand(f: Fetcher): nat {
    if f.Holding? then 1 else 0
  }

  /** Permits the fetcher has counted on and not taken yet. */
  function Owed(f: Fetcher): nat {
    match f
    case Claiming(batch) => batch
    case Delivering(todo) => |todo|
    case Holding(_, _, rest) => |rest|
    case _ => 0
  }

  ghost predicate Conserved(p: Proc) {
    && p.idle + InHand(p.fetcher) + |p.channel| + Busy(p.workers) == |p.workers|
    && 0 <= Owed(p.fetcher) <= p.idle && |p.workers| <= p.capacity && !p.fetcher.Panicked?
  }

  lemma {:induction false} BusyUpdate(ws: seq<Worker>, w: nat, x: Worker)
    requires w < |ws|
    ensures Busy(ws[w := x]) == Busy(ws) - (if ws[w].Free? then 0 else 1) + (if x.Free? then 0 else 1)
  {
    if w > 0 {
      BusyUpdate(ws[1..], w - 1, x);
      assert ws[w := x][1..] == ws[1..][w - 1 := x];
    } else {
      assert ws[w := x][1..] == ws[1..];
    }
  }

  lemma {:induction false} AllFree(ws: seq<Worker>)
    requires forall w :: 0 <= w < |ws| ==> ws[w] == Free
    ensures Busy(ws) == 0
  {
    if ws != [] {
      AllFree(ws[1..]);
    }
  }

  lemma StepConserves(p: Proc, s: Step)
    requires Conserved(p) && Can(p, s)
    ensures Conserved(Next(p, s))
  {
    match s
    case Receive(w) => BusyUpdate(p.workers, w, Handling(p.channel[0]));
    case Unregister(w) => BusyUpdate(p.workers, w, Ending(p.workers[w].id));
    case Release(w) => BusyUpdate(p.workers, w, Free);
    case _ =>
  }

  lemma {:induction false} RunConserves(ps: seq<Proc>, steps: seq<Step>, k: nat)
    requires IsRun(ps, steps) && k < |ps|
    ensures Conserved(ps[k]) && |ps[k].workers| == |ps[0].workers|
  {
    if k == 0 {
      AllFree(ps[0].workers);
    } else {
      RunConserves(ps, steps, k - 1);
      StepConserves(ps[k - 1], steps[k - 1]);
    }
  }

  /** Permit conservation: in every interleaving idle permits, jobs in the channel, jobs in workers and
      the one in the fetcher's hand add up to the number of workers. So the fetcher never panics, the
      send never waits for room, and every job out of the database has a free worker waiting for it. */
  lemma PermitsAreConserved(ps: seq<Proc>, steps: seq<Step>, k: nat)
    requires IsRun(ps, steps) && k < |ps|
    ensures var p, n := ps[k], |ps[0].workers|;
            && p.idle + InHand(p.fetcher) + |p.channel| + Busy(p.workers) == n
            && !p.fetcher.Panicked?
            && (p.fetcher.Holding? && p.fetcher.registered ==> Can(p, Send))
            && (p.fetcher.Delivering? && p.fetcher.todo != [] ==> p.idle > 0)
            && InHand(p.fetcher) + |p.channel| <= n - Busy(p.workers)
  {
    RunConserves(ps, steps, k);
  }

  // ---- No job is lost or doubled between the database and a handler ----

  function Copies(s: seq<JobId>, id: JobId): nat {
    multiset(s)[id]
  }

  function HeldBy(w: Worker, id: JobId): nat {
    if w == Handling(id) then 1 else 0
  }

  function Held(ws: seq<Worker>, id: JobId): nat {
    if ws == [] then 0 else HeldBy(ws[0], id) + Held(ws[1..], id)
  }

  /** Copies of `id` the fetcher has claimed and not sent yet. */
  function Unsent(f: Fetcher, id: JobId): nat {
    match f
    case Delivering(todo) => Copies(todo, id)
    case Holding(x, _, rest) => (if x == id then 1 else 0) + Copies(rest, id)
    case _ => 0
  }

  function Inside(p: Proc, id: JobId): nat {
    Unsent(p.fetcher, id) + Copies(p.channel, id) + Held(p.workers, id)
  }

  /** How often `id` was claimed in the first `k` steps, and how often a handler of it ended. */
  function TimesClaimed(steps: seq<Step>, k: nat, id: JobId): nat
    requires k <= |steps|
  {
    if k == 0 then 0
    else TimesClaimed(steps, k - 1, id) + (if steps[k - 1].Claimed? then Copies(steps[k - 1].jobs, id) else 0)
  }

  function TimesEnded(ps: seq<Proc>, steps: seq<Step>, k: nat, id: JobId): nat
    requires k <= |steps| < |ps|
  {
    if k == 0 then 0
    else TimesEnded(ps, steps, k - 1, id) + (if Ends(ps[k - 1], steps[k - 1], id) then 1 else 0)
  }

  predicate Ends(p: Proc, s: Step, id: JobId) {
    s.Unregister? && s.w < |p.workers| && p.workers[s.w] == Handling(id)
  }

  lemma {:induction false} HeldUpdate(ws: seq<Worker>, w: nat, x: Worker, id: JobId)
    requires w < |ws|
    ensures Held(ws[w := x], id) + HeldBy(ws[w], id) == Held(ws, id) + HeldBy(x, id)
  {
    if w > 0 {
      HeldUpdate(ws[1..], w - 1, x, id);
      assert ws[w := x][1..] == ws[1..][w - 1 := x];
    } else {
      assert ws[w := x][1..] == ws[1..];
    }
  }

  lemma {:induction false} NoneHeld(ws: seq<Worker>, id: JobId)
    requires forall w :: 0 <= w < |ws| ==> ws[w] == Free
    ensures Held(ws, id) == 0
  {
    if ws != [] {
      NoneHeld(ws[1..], id);
    }
  }

  lemma FirstCopy(s: seq<JobId>, id: JobId)
    requires s != []
    ensures Copies(s, id) == (if s[0] == id then 1 else 0) + Copies(s[1..], id)
  {
    assert s == [s[0]] + s[1..];
  }

  lemma LastCopy(s: seq<JobId>, x: JobId, id: JobId)
    ensures Copies(s + [x], id) == Copies(s, id) + if x == id then 1 else 0
  {
  }

  /** One step brings in what it claims and lets out what it ends. */
  lemma StepMovesJobs(p: Proc, s: Step, id: JobId)
    requires Conserved(p) && Can(p, s)
    ensures Inside(Next(p, s), id) + (if Ends(p, s, id) then 1 else 0) == Inside(p, id) + (if s.Claimed? then Copies(s.jobs, id) else 0)
  {
    hide Copies;
    match s
    case Receive(w) =>
      HeldUpdate(p.workers, w, Handling(p.channel[0]), id);
      FirstCopy(p.channel, id);
    case Unregister(w) => HeldUpdate(p.workers, w, Ending(p.workers[w].id), id);
    case Release(w) => HeldUpdate(p.workers, w, Free, id);
    case Acquire => FirstCopy(p.fetcher.todo, id);
    case Send => LastCopy(p.channel, p.fetcher.id, id);
    case Rest => NoCopy(id);
    case _ =>
  }

  lemma NoCopy(id: JobId)
    ensures Copies([], id) == 0
  {
  }

  /** Job conservation: at any point of any run a job is still to be sent, in the channel or in handlers exactly as
      often as it was claimed less the times a handler of it ended. And a poll asks for as many jobs as the batch size
      and the idle workers allow. */
  lemma {:induction false} JobsAreConserved(ps: seq<Proc>, steps: seq<Step>, k: nat, id: JobId)
    requires IsRun(ps, steps) && k < |ps|
    ensures TimesClaimed(steps, k, id) == Inside(ps[k], id) + TimesEnded(ps, steps, k, id)
    ensures k < |steps| && steps[k].Poll? ==>
              ps[k + 1].fetcher == Claiming(if ps[k].idle <= steps[k].fetchBatch then ps[k].idle else steps[k].fetchBatch)
  {
    hide Inside, Conserved, Copies;
    if k == 0 {
      NothingInside(ps[0], id);
    } else {
      JobsAreConserved(ps, steps, k - 1, id);
      RunConserves(ps, steps, k - 1);
      StepMovesJobs(ps[k - 1], steps[k - 1], id);
    }
  }

  lemma NothingInside(p: Proc, id: JobId)
    requires Start(p)
    ensures Inside(p, id) == 0
  {
    NoneHeld(p.workers, id);
  }

  /** A permit comes all the way back: one job claimed, handled and ended leaves the process as it was. */
  lemma PermitComesBack(p: Proc, id: JobId, w: nat) returns (last: Proc)
    requires p.fetcher == Parked && p.idle > 0 && p.channel == [] && p.capacity > 0 && id !in p.inFlight
    requires w < |p.workers| && p.workers[w].Free?
    ensures last == p
  {
    var a, b, c, d, e := Fetch(p, id);
    assert Can(e, Rest) && Can(e, Receive(w));
    var f := Next(Next(e, Receive(w)), Rest);
    assert Can(f, Unregister(w));
    var g := Next(f, Unregister(w));
    assert Can(g, Release(w));
    last := Next(g, Release(w));
    assert last.workers == p.workers && last.inFlight == p.inFlight && [id][1..] == [];
  }

  // ---- Heartbeat coverage ----

  /** Every job in the channel or a handler is being heartbeaten. */
  ghost predicate Covered(p: Proc) {
    && (forall i :: 0 <= i < |p.channel| ==> p.channel[i] in p.inFlight)
    && (forall w :: 0 <= w < |p.workers| && p.workers[w].Handling? ==> p.workers[w].id in p.inFlight)
    && (p.fetcher.Holding? && p.fetcher.registered ==> p.fetcher.id in p.inFlight)
  }

  /** Worker `w`'s job is also in the channel, in the fetcher's hand or in another handler. */
  ghost predicate HeldTwice(p: Proc, w: nat)
    requires w < |p.workers| && p.workers[w].Handling?
  {
    || p.workers[w].id in p.channel
    || (exists v :: 0 <= v < |p.workers| && v != w && p.workers[v] == p.workers[w])
    || (p.fetcher.Holding? && p.fetcher.registered && p.fetcher.id == p.workers[w].id)
  }

  /** Exactly when the end of a handler keeps the rest covered: iff its id is held nowhere else. */
  lemma UnregisterKeepsCoverIff(p: Proc, w: nat)
    requires Covered(p) && Can(p, Unregister(w))
    ensures Covered(Next(p, Unregister(w))) <==> !HeldTwice(p, w)
  {
    var id, p' := p.workers[w].id, Next(p, Unregister(w));
    if Covered(p') {
      assert id !in p'.inFlight;
      assert forall v :: 0 <= v < |p.workers| && v != w ==> p'.workers[v] == p.workers[v];
    } else if i :| 0 <= i < |p.channel| && p.channel[i] !in p'.inFlight {
      assert p.channel[i] == id;
    } else if v :| 0 <= v < |p.workers| && p'.workers[v].Handling? && p'.workers[v].id !in p'.inFlight {
      assert v != w && p.workers[v] == p.workers[w];
    }
  }

  lemma OtherStepsKeepCover(p: Proc, s: Step)
    requires Covered(p) && Can(p, s) && !s.Unregister?
    ensures Covered(Next(p, s))
  {
    var p' := Next(p, s);
    if s.Receive? {
      assert p.channel[0] in p.inFlight;
    }
  }

  lemma {:induction false} CoverageLasts(ps: seq<Proc>, steps: seq<Step>, k: nat)
    requires IsRun(ps, steps) && k < |ps|
    requires forall x: nat :: x < k && steps[x].Unregister? ==> !HeldTwice(ps[x], steps[x].w)
    ensures Covered(ps[k])
  {
    if k > 0 {
      CoverageLasts(ps, steps, k - 1);
      var p, s := ps[k - 1], steps[k - 1];
      if s.Unregister? {
        UnregisterKeepsCoverIff(p, s.w);
      } else {
        OtherStepsKeepCover(p, s);
      }
    }
  }

  /** Exactly the runs in which coverage never lapses: every job in the channel or a handler is heartbeaten
      in every state iff every handler that ends finds its id held nowhere else in the process. */
  lemma CoverageHoldsIff(ps: seq<Proc>, steps: seq<Step>)
    requires IsRun(ps, steps)
    ensures (forall k :: 0 <= k < |ps| ==> Covered(ps[k]))
       <==> (forall k :: 0 <= k < |steps| && steps[k].Unregister? ==> !HeldTwice(ps[k], steps[k].w))
  {
    hide Covered, HeldTwice;
    if forall k :: 0 <= k < |steps| && steps[k].Unregister? ==> !HeldTwice(ps[k], steps[k].w) {
      forall k | 0 <= k < |ps| ensures Covered(ps[k]) {
        CoverageLasts(ps, steps, k);
      }
    }
    if forall k :: 0 <= k < |ps| ==> Covered(ps[k]) {
      forall k | 0 <= k < |steps| && steps[k].Unregister? ensures !HeldTwice(ps[k], steps[k].w) {
        assert Covered(ps[k]) && Covered(ps[k + 1]);
        assert Can(ps[k], steps[k]) && ps[k + 1] == Next(ps[k], steps[k]);
        UnregisterKeepsCoverIff(ps[k], steps[k].w);
      }
    }
  }

  /** The fetcher claims one job and puts it in the channel. */
  lemma Fetch(p: Proc, id: JobId) returns (a: Proc, b: Proc, c: Proc, d: Proc, e: Proc)
    requires p.fetcher == Parked && p.idle > 0 && |p.channel| < p.capacity
    ensures Can(p, Poll(1)) && a == Next(p, Poll(1)) && Can(a, Claimed([id])) && b == Next(a, Claimed([id]))
    ensures Can(b, Acquire) && c == Next(b, Acquire) && Can(c, Register) && d == Next(c, Register)
    ensures Can(d, Send) && e == Next(d, Send)
    ensures e == p.(idle := p.idle - 1, channel := p.channel + [id], inFlight := p.inFlight + {id}, fetcher := Delivering([]))
  {
    a := Next(p, Poll(1));
    b := Next(a, Claimed([id]));
    assert [id][1..] == [];
    c := Next(b, Acquire);
    d := Next(c, Register);
    e := Next(d, Send);
  }

  /** Claimed, swept and claimed again by the same process: when the first handler ends, the second
      copy waits in the channel without a heartbeat. */
  lemma CoverageLapses() returns (ps: seq<Proc>, steps: seq<Step>)
    ensures IsRun(ps, steps) && !Covered(ps[|steps|])
  {
    hide Can, Next, Start, Covered;
    var p0 := Proc(2, [], 2, {}, Parked, [Free, Free]);
    StartOfTwo(p0);
    var p1, p2, p3, p4, p5 := Fetch(p0, 5);
    var p6, p7 := Hand(p5);
    var p8, p9, p10, p11, p12 := Fetch(p7, 5);
    var p13 := Finish(p12);
    steps := [Poll(1), Claimed([5]), Acquire, Register, Send, Receive(0), Rest,
              Poll(1), Claimed([5]), Acquire, Register, Send, Unregister(0)];
    ps := [p0, p1, p2, p3, p4, p5, p6, p7, p8, p9, p10, p11, p12, p13];
    Uncovered(p13, 0);
  }

  lemma StartOfTwo(p: Proc)
    requires p == Proc(2, [], 2, {}, Parked, [Free, Free])
    ensures Start(p)
  {
  }

  lemma Hand(p: Proc) returns (a: Proc, b: Proc)
    requires p.workers == [Free, Free] && p.channel == [5] && p.fetcher == Delivering([])
    ensures Can(p, Receive(0)) && a == Next(p, Receive(0)) && Can(a, Rest) && b == Next(a, Rest)
    ensures b == p.(channel := [], workers := [Handling(5), Free], fetcher := Parked)
  {
    a := Next(p, Receive(0));
    b := Next(a, Rest);
  }

  lemma Finish(p: Proc) returns (a: Proc)
    requires p.workers == [Handling(5), Free] && p.channel == [5]
    ensures Can(p, Unregister(0)) && a == Next(p, Unregister(0)) && a.channel == [5] && 5 !in a.inFlight
  {
    a := Next(p, Unregister(0));
  }

  lemma Uncovered(p: Proc, i: nat)
    requires i < |p.channel| && p.channel[i] !in p.inFlight
    ensures !Covered(p)
  {
  }
}
