/** What the theorems about whole transactions say of interleaved fetchers: every
    interleaving is a run of whole transactions, so batches fan in exactly once and
    jobs end at most once, whatever the interleaving. */
module Composition {
  import opened Tables
  import opened Lifecycle
  import opened Interleaving
  import Books
  import Counters
  import Executions
  import FanIn

  /** Callers leave callback keys and `batch_id` to the batch machinery. */
  ghost predicate HonestRun(labels: seq<Label>) {
    forall k :: 0 <= k < |labels| && labels[k].Env? ==> FanIn.Honest(labels[k].step)
  }

  ghost predicate Recorded(s: Sys, a: FanIn.Archive) {
    FanIn.Inv(s.db, a.jobs, a.batches)
  }

  ghost predicate Advances(a: FanIn.Archive, s: Sys, a': FanIn.Archive) {
    FanIn.Follows(a.jobs, a.batches, s.db, a'.jobs, a'.batches)
  }

  lemma LabelKeepsRecord(s: Sys, l: Label, a: FanIn.Archive) returns (a': FanIn.Archive)
    requires Orderly(s) && Can(s, l) && (l.Env? ==> FanIn.Honest(l.step)) && Recorded(s, a)
    ensures Recorded(Next(s, l), a') && Advances(a, Next(s, l), a')
  {
    hide FanIn.JobsLinked, FanIn.BatchesLinked, FanIn.LinksHold, Books.Right, FanIn.Follows, Orderly, Can, Apply, Enabled;
    MovesRefineTransactions(s, l);
    var t := TransactionOf(s, l);
    if t.None? {
      FanIn.SelfFollows(s.db, a.jobs, a.batches);
      a' := a;
    } else {
      var m, bs := FanIn.StepKeeps(s.db, a.jobs, a.batches, t.value);
      a' := FanIn.Archive(m, bs);
    }
  }

  /** Fan-in under interleaving: over any interleaved run of any number of fetchers with honest
      callers, the archive can be kept up at every state, and at every state it is right. */
  lemma {:induction false} FanInUnderInterleaving(states: seq<Sys>, labels: seq<Label>, a: FanIn.Archive, k: nat)
    returns (archives: seq<FanIn.Archive>)
    requires IsRun(states, labels) && Start(states[0]) && HonestRun(labels) && Recorded(states[0], a) && k < |states|
    ensures |archives| == k + 1 && archives[0] == a
    ensures forall x :: 0 <= x < k ==> Advances(archives[x], states[x + 1], archives[x + 1])
    ensures forall x :: 0 <= x <= k ==> Recorded(states[x], archives[x])
    decreases k
  {
    hide Recorded, Advances, Start, Orderly, Can, Next;
    if k == 0 {
      return [a];
    }
    var before := FanInUnderInterleaving(states, labels, a, k - 1);
    StartIsOrderly(states[0]);
    RunIsOrderly(states, labels, k - 1);
    var a' := LabelKeepsRecord(states[k - 1], labels[k - 1], before[k - 1]);
    archives := before + [a'];
  }

  /** So in every state of such a run every batch row tells the truth about its jobs, past and present. */
  lemma BatchesTellTheTruth(s: Sys, a: FanIn.Archive, b: BatchId)
    requires Recorded(s, a) && b in s.db.batches
    ensures var r := s.db.batches[b];
            && b in a.batches && a.batches[b] == r && Books.Tallied(a.jobs, b, r)
            && (r.complete <==> r.completed + r.failed + r.cancelled == r.total)
            && (r.complete && r.onComplete.Some? ==> Books.FiredOnce(a.jobs, b, r))
            && (!r.complete || r.onComplete.None? ==> Books.Callbacks(a.jobs, b) == {})
  {
    assert Books.Ok(a.jobs, b, a.batches[b], false);
  }

  // ---- Interleavings are runs of whole transactions ----

  /** State `x` of the interleaving is state `at[x]` of the run of transactions. */
  ghost predicate Projects(states: seq<Sys>, k: nat, dbs: seq<Db>, at: seq<nat>)
    requires k < |states|
  {
    && |at| == k + 1 && at[0] == 0 && at[k] == |dbs| - 1
    && (forall x :: 0 <= x <= k ==> at[x] < |dbs| && dbs[at[x]] == states[x].db)
    && (forall x, y :: 0 <= x <= y <= k ==> at[x] <= at[y])
  }

  /** Every interleaved run, seen through its committed tables, is a run of whole transactions in the
      order they committed: everything proved of those runs holds of it. */
  lemma {:induction false} InterleavingIsATrace(states: seq<Sys>, labels: seq<Label>, k: nat)
    returns (dbs: seq<Db>, steps: seq<Step>, at: seq<nat>)
    requires IsRun(states, labels) && Start(states[0]) && k < |states|
    ensures IsTrace(dbs, steps) && Projects(states, k, dbs, at)
    decreases k
  {
    hide Orderly, Can, Next, Start, Apply, Enabled, TransactionOf;
    if k == 0 {
      return [states[0].db], [], [0];
    }
    dbs, steps, at := InterleavingIsATrace(states, labels, k - 1);
    StartIsOrderly(states[0]);
    RunIsOrderly(states, labels, k - 1);
    MovesRefineTransactions(states[k - 1], labels[k - 1]);
    var t := TransactionOf(states[k - 1], labels[k - 1]);
    if t.None? {
      at := at + [at[k - 1]];
    } else {
      TraceGrows(dbs, steps, t.value);
      dbs, steps := dbs + [Apply(dbs[|steps|], t.value)], steps + [t.value];
      at := at + [|dbs| - 1];
    }
  }

  lemma TraceGrows(dbs: seq<Db>, steps: seq<Step>, s: Step)
    requires IsTrace(dbs, steps) && Enabled(dbs[|steps|], s)
    ensures IsTrace(dbs + [Apply(dbs[|steps|], s)], steps + [s])
  {
    hide Apply, Enabled;
    var dbs', steps' := dbs + [Apply(dbs[|steps|], s)], steps + [s];
    forall k | 0 <= k < |steps'| ensures Enabled(dbs'[k], steps'[k]) && dbs'[k + 1] == Apply(dbs'[k], steps'[k]) {
      if k < |steps| {
        assert dbs'[k] == dbs[k] && dbs'[k + 1] == dbs[k + 1] && steps'[k] == steps[k];
      }
    }
  }

  /** Label `k` of the interleaving takes job `id` into a terminal state. */
  predicate EndsAt(states: seq<Sys>, k: nat, id: JobId)
    requires k + 1 < |states|
  {
    && id in states[k].db.jobs && !states[k].db.jobs[id].state.Terminal()
    && id in states[k + 1].db.jobs && states[k + 1].db.jobs[id].state.Terminal()
  }

  /** At most one terminal transition per job over any interleaving of any number of fetchers. */
  lemma JobsEndOnce(states: seq<Sys>, labels: seq<Label>, i: nat, k: nat, id: JobId)
    requires IsRun(states, labels) && Start(states[0]) && i <= k < |labels| && EndsAt(states, i, id) && EndsAt(states, k, id)
    ensures i == k
  {
    hide Can, Next, Apply, Enabled, Counters.Exact;
    if i < k {
      var dbs, steps, at := InterleavingIsATrace(states, labels, k);
      assert dbs[at[0]] == states[0].db;
      Executions.TraceIsFresh(dbs, steps, at[i + 1]);
      assert dbs[at[i + 1]] == states[i + 1].db && dbs[at[k]] == states[k].db && at[i + 1] <= at[k];
      Executions.TerminalAbsorbs(dbs, steps, at[i + 1], at[k], id);
    }
  }

  /** And conversely: every run of whole transactions other than claims happens between idle fetchers. */
  lemma QuietTraceIsARun(dbs: seq<Db>, steps: seq<Step>, fetchers: map<nat, Fetcher>) returns (states: seq<Sys>, labels: seq<Label>)
    requires IsTrace(dbs, steps) && (forall k :: 0 <= k < |steps| ==> !steps[k].Take?)
    requires forall i :: i in fetchers ==> fetchers[i] == Released(fetchers[i])
    ensures IsRun(states, labels) && |states| == |dbs| && forall k :: 0 <= k < |dbs| ==> states[k] == Sys(dbs[k], fetchers)
    ensures |labels| == |steps| && forall k :: 0 <= k < |steps| ==> labels[k] == Env(steps[k])
  {
    hide Apply, Enabled;
    states := seq(|dbs|, k requires 0 <= k < |dbs| => Sys(dbs[k], fetchers));
    labels := seq(|steps|, k requires 0 <= k < |steps| => Env(steps[k]));
  }
}
