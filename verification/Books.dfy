/** The book-keeping of batches, on two maps: every job ever committed and every
    batch ever committed. What a batch's counters must say, and how moving jobs,
    closing a batch and adding jobs keep them saying it. */
module Books {
  import opened Tables
  import opened Lifecycle

  type Jobs = map<JobId, Job>
  type Batches = map<BatchId, Batch>

  // ---- What is promised of one batch ----

  /** Every job ever inserted under batch `b`. */
  function Members(m: Jobs, b: BatchId): set<JobId> {
    set id | id in m && m[id].batch == Some(b)
  }

  /** The members of `b` that reached terminal state `s`. */
  function Ended(m: Jobs, b: BatchId, s: JobState): set<JobId> {
    set id | id in m && m[id].batch == Some(b) && m[id].state == s
  }

  /** Every job ever enqueued under the callback key of `b`. */
  function Callbacks(m: Jobs, b: BatchId): set<JobId> {
    set id | id in m && m[id].uniqueKey == Some(CallbackOf(b))
  }

  ghost predicate Tallied(m: Jobs, b: BatchId, r: Batch) {
    && r.total == |Members(m, b)|
    && r.completed == |Ended(m, b, Completed)|
    && r.failed == |Ended(m, b, Failed)|
    && r.cancelled == |Ended(m, b, Cancelled)|
  }

  predicate Says(fields: map<string, Json>, name: string, n: int) {
    name in fields && fields[name] == Num(n)
  }

  /** The envelope under "_eddyq_batch" gives the batch's id and its final counts. */
  predicate Reports(payload: Json, b: BatchId, r: Batch) {
    && payload.Obj? && "_eddyq_batch" in payload.fields && payload.fields["_eddyq_batch"].Obj?
    && var env := payload.fields["_eddyq_batch"].fields;
       Says(env, "batchId", b) && Says(env, "total", r.total) && Says(env, "completed", r.completed)
       && Says(env, "failed", r.failed) && Says(env, "cancelled", r.cancelled)
  }

  /** The user's own payload is still there: its fields beside the envelope, or the whole value under "_payload". */
  predicate Preserves(payload: Json, original: Json) {
    payload.Obj? &&
    if original.Obj?
    then forall k :: k in original.fields && k != "_eddyq_batch" ==> k in payload.fields && payload.fields[k] == original.fields[k]
    else "_payload" in payload.fields && payload.fields["_payload"] == original
  }

  /** The callback job is the one the batch asked for, and carries the batch's final counts. */
  ghost predicate Announces(j: Job, b: BatchId, r: Batch) {
    && r.onComplete.Some?
    && j.kind == r.onComplete.value.kind && j.queue == r.onComplete.value.queue
    && Reports(j.payload, b, r) && Preserves(j.payload, r.onComplete.value.payload)
  }

  ghost predicate FiredOnce(m: Jobs, b: BatchId, r: Batch) {
    exists id: JobId :: id in m && Callbacks(m, b) == {id} && Announces(m[id], b, r)
  }

  /** Complete exactly when the counts add up; the callback exists exactly when it is due. */
  ghost predicate Delivered(m: Jobs, b: BatchId, r: Batch) {
    && (r.complete <==> r.Sum() == r.total)
    && r.claimed == r.complete
    && (if r.complete && r.onComplete.Some?
        then FiredOnce(m, b, r) && ValidQueueName(r.onComplete.value.queue)
        else Callbacks(m, b) == {})
  }

  /** A batch whose jobs have moved but whose completion has not been tested yet. */
  ghost predicate Undecided(m: Jobs, b: BatchId, r: Batch) {
    !r.complete && !r.claimed && Callbacks(m, b) == {}
  }

  ghost predicate Ok(m: Jobs, b: BatchId, r: Batch, open: bool) {
    Tallied(m, b, r) && if open then Undecided(m, b, r) else Delivered(m, b, r)
  }

  /** Callback keys and batch stamps come from batches only. */
  ghost predicate Clean(m: Jobs, bs: Batches) {
    && (forall id :: id in m && m[id].batch.Some? ==> m[id].batch.value in bs)
    && (forall id :: id in m && m[id].uniqueKey.Some? && m[id].uniqueKey.value.CallbackOf? ==>
          m[id].uniqueKey.value.batch in bs)
    && (forall b :: b in bs && bs[b].onComplete.Some? ==> bs[b].onComplete.value.batch.None?)
  }

  /** The books are right, except that the batches in `open` are still to be decided. */
  ghost predicate Right(m: Jobs, bs: Batches, open: set<BatchId>) {
    && Clean(m, bs) && open <= bs.Keys
    && (forall b :: b in bs ==> Ok(m, b, bs[b], b in open))
  }

  // ---- Counting ----

  /** When the counts add up, nobody is left. */
  lemma SumMeansAllEnded(m: Jobs, b: BatchId, r: Batch, id: JobId)
    requires Tallied(m, b, r) && r.Sum() == r.total && id in Members(m, b)
    ensures m[id].state.Terminal()
  {
    var c, f, x := Ended(m, b, Completed), Ended(m, b, Failed), Ended(m, b, Cancelled);
    var all := c + f + x;
    assert c !! f && (c + f) !! x;
    assert all <= Members(m, b) && |all| == |Members(m, b)|;
    assert |Members(m, b) - all| == 0;
    assert id in all;
  }

  lemma AllEndedMeansSum(m: Jobs, b: BatchId, r: Batch)
    requires Tallied(m, b, r) && forall id :: id in Members(m, b) ==> m[id].state.Terminal()
    ensures r.Sum() == r.total
  {
    var c, f, x := Ended(m, b, Completed), Ended(m, b, Failed), Ended(m, b, Cancelled);
    assert c !! f && (c + f) !! x;
    assert c + f + x == Members(m, b);
  }

  // ---- Moving jobs ----

  /** Jobs keep identity and payload, and finished jobs keep their state. */
  ghost predicate Evolves(m: Jobs, m': Jobs) {
    && m'.Keys == m.Keys
    && (forall id :: id in m ==>
          && m'[id].batch == m[id].batch && m'[id].uniqueKey == m[id].uniqueKey && m'[id].payload == m[id].payload
          && m'[id].kind == m[id].kind && m'[id].queue == m[id].queue
          && (m[id].state.Terminal() ==> m'[id].state == m[id].state))
  }

  /** The members of `b` that a move takes into terminal state `s`. */
  function Newly(m: Jobs, m': Jobs, b: BatchId, s: JobState): set<JobId> {
    set id | id in m && id in m' && m[id].batch == Some(b) && !m[id].state.Terminal() && m'[id].state == s
  }

  predicate Touches(m: Jobs, m': Jobs, b: BatchId) {
    Newly(m, m', b, Completed) != {} || Newly(m, m', b, Failed) != {} || Newly(m, m', b, Cancelled) != {}
  }

  /** Each batch row is bumped by exactly the members that finished. */
  ghost predicate Bumps(m: Jobs, bs: Batches, m': Jobs, bs': Batches) {
    && bs'.Keys == bs.Keys
    && forall b :: b in bs ==>
         bs'[b] == bs[b].(
           completed := bs[b].completed + |Newly(m, m', b, Completed)|,
           failed := bs[b].failed + |Newly(m, m', b, Failed)|,
           cancelled := bs[b].cancelled + |Newly(m, m', b, Cancelled)|)
  }

  lemma EndedGrows(m: Jobs, m': Jobs, b: BatchId, s: JobState)
    requires Evolves(m, m') && s.Terminal()
    ensures |Ended(m', b, s)| == |Ended(m, b, s)| + |Newly(m, m', b, s)|
  {
    var e, n := Ended(m, b, s), Newly(m, m', b, s);
    assert Ended(m', b, s) == e + n;
    assert e !! n;
  }

  lemma IdentityStays(m: Jobs, m': Jobs, b: BatchId)
    requires Evolves(m, m')
    ensures Members(m', b) == Members(m, b) && Callbacks(m', b) == Callbacks(m, b)
  {
  }

  lemma DeliveryStays(m: Jobs, m': Jobs, b: BatchId, r: Batch)
    requires Delivered(m, b, r) && Callbacks(m', b) == Callbacks(m, b)
    requires forall id :: id in Callbacks(m, b) ==>
               m'[id].payload == m[id].payload && m'[id].kind == m[id].kind && m'[id].queue == m[id].queue
    ensures Delivered(m', b, r)
  {
    if r.complete && r.onComplete.Some? {
      var id: JobId :| id in m && Callbacks(m, b) == {id} && Announces(m[id], b, r);
      assert id in Callbacks(m', b);
      assert Announces(m'[id], b, r);
    }
  }

  /** A batch some member of which just finished was not complete before. */
  lemma TouchedWasOpen(m: Jobs, m': Jobs, b: BatchId, r: Batch)
    requires Tallied(m, b, r) && Delivered(m, b, r) && Touches(m, m', b)
    ensures !r.complete
  {
    var s := if Newly(m, m', b, Completed) != {} then Completed else if Newly(m, m', b, Failed) != {} then Failed else Cancelled;
    var id: JobId :| id in Newly(m, m', b, s);
    assert id in Members(m, b) && !m[id].state.Terminal();
    if r.Sum() == r.total {
      SumMeansAllEnded(m, b, r, id);
    }
  }

  lemma MoveKeepsOne(m: Jobs, m': Jobs, b: BatchId, r: Batch, r': Batch)
    requires Ok(m, b, r, false) && Evolves(m, m')
    requires r' == r.(completed := r.completed + |Newly(m, m', b, Completed)|,
                      failed := r.failed + |Newly(m, m', b, Failed)|,
                      cancelled := r.cancelled + |Newly(m, m', b, Cancelled)|)
    ensures Ok(m', b, r', Touches(m, m', b))
  {
    IdentityStays(m, m', b);
    EndedGrows(m, m', b, Completed);
    EndedGrows(m, m', b, Failed);
    EndedGrows(m, m', b, Cancelled);
    if Touches(m, m', b) {
      TouchedWasOpen(m, m', b, r);
    } else {
      DeliveryStays(m, m', b, r);
    }
  }

  lemma MoveStaysClean(m: Jobs, bs: Batches, m': Jobs, bs': Batches)
    requires Clean(m, bs) && Evolves(m, m') && Bumps(m, bs, m', bs')
    ensures Clean(m', bs')
  {
    hide Newly;
  }

  /** The heart of the matter: moving jobs and bumping rows keeps every tally, whatever moved. */
  lemma MoveKeeps(m: Jobs, bs: Batches, m': Jobs, bs': Batches, open: set<BatchId>)
    requires Right(m, bs, {}) && Evolves(m, m') && Bumps(m, bs, m', bs')
    requires forall b :: b in open <==> b in bs && Touches(m, m', b)
    ensures Right(m', bs', open)
  {
    hide Ok, Clean, Touches, Newly, Evolves;
    MoveStaysClean(m, bs, m', bs');
    forall b | b in bs' ensures Ok(m', b, bs'[b], b in open) {
      assert Ok(m, b, bs[b], false);
      MoveKeepsOne(m, m', b, bs[b], bs'[b]);
    }
  }

  /** A move that finishes no job. */
  lemma QuietKeeps(m: Jobs, bs: Batches, m': Jobs)
    requires Right(m, bs, {}) && Evolves(m, m')
    requires forall id :: id in m && !m[id].state.Terminal() ==> !m'[id].state.Terminal()
    ensures Right(m', bs, {})
  {
    forall b: BatchId
      ensures Newly(m, m', b, Completed) == {} && Newly(m, m', b, Failed) == {} && Newly(m, m', b, Cancelled) == {}
    {
    }
    hide Right, Evolves, Newly;
    MoveKeeps(m, bs, m', bs, {});
  }

  // ---- Adding one job ----

  lemma AddedSets(m: Jobs, id: JobId, j: Job, b: BatchId)
    requires id !in m && j.state == Pending
    ensures var m' := m[id := j];
            && Members(m', b) == Members(m, b) + (if j.batch == Some(b) then {id} else {})
            && Callbacks(m', b) == Callbacks(m, b) + (if j.uniqueKey == Some(CallbackOf(b)) then {id} else {})
            && Ended(m', b, Completed) == Ended(m, b, Completed)
            && Ended(m', b, Failed) == Ended(m, b, Failed)
            && Ended(m', b, Cancelled) == Ended(m, b, Cancelled)
  {
  }

  /** A new job outside `b` that is not `b`'s callback leaves `b` as it was. */
  lemma AddedKeepsOne(m: Jobs, id: JobId, j: Job, b: BatchId, r: Batch, open: bool)
    requires Ok(m, b, r, open) && id !in m && j.state == Pending
    requires j.batch != Some(b) && j.uniqueKey != Some(CallbackOf(b))
    ensures Ok(m[id := j], b, r, open)
  {
    AddedSets(m, id, j, b);
    if !open {
      DeliveryStays(m, m[id := j], b, r);
    }
  }

  predicate UserKey(key: Option<UniqueKey>) {
    key.Some? ==> key.value.Named?
  }

  lemma AddedKeeps(m: Jobs, bs: Batches, id: JobId, j: Job)
    requires Right(m, bs, {}) && id !in m && j.state == Pending && j.batch.None? && UserKey(j.uniqueKey)
    ensures Right(m[id := j], bs, {})
  {
    hide Ok;
    forall b | b in bs ensures Ok(m[id := j], b, bs[b], false) {
      AddedKeepsOne(m, id, j, b, bs[b], false);
    }
  }

  // ---- Closing a batch ----

  lemma CallbackAnnounces(r: Batch, b: BatchId, duration: int, now: Time)
    requires r.onComplete.Some?
    ensures Announces(NewJob(Callback(r.onComplete.value, b, r, duration), now), b, Close(r, now))
  {
    var payload, original := Callback(r.onComplete.value, b, r, duration).payload, r.onComplete.value.payload;
    assert payload.fields["_eddyq_batch"] == Envelope(b, r, duration);
    assert original.Obj? ==> forall k :: k in original.fields && k != "_eddyq_batch" ==> payload.fields[k] == original.fields[k];
  }

  lemma AnnounceDelivers(m: Jobs, id: JobId, j: Job, b: BatchId, r: Batch, now: Time)
    requires Ok(m, b, r, true) && r.Sum() == r.total && id !in m && j.state == Pending && j.batch.None?
    requires j.uniqueKey == Some(CallbackOf(b)) && Announces(j, b, Close(r, now)) && ValidQueueName(r.onComplete.value.queue)
    ensures Ok(m[id := j], b, Close(r, now), false)
  {
    var m' := m[id := j];
    AddedSets(m, id, j, b);
    assert Callbacks(m', b) == {id};
    assert m'[id] == j;
  }

  lemma CloseStaysClean(m: Jobs, bs: Batches, b: BatchId, id: JobId, j: Job, now: Time)
    requires Clean(m, bs) && b in bs && id !in m && j.batch.None? && j.uniqueKey == Some(CallbackOf(b))
    ensures Clean(m[id := j], bs[b := Close(bs[b], now)])
  {
  }

  /** Closing a batch that adds up and inserting its one callback decides it, and disturbs no other. */
  lemma CloseAndAnnounce(m: Jobs, bs: Batches, open: set<BatchId>, b: BatchId, id: JobId, j: Job, now: Time)
    requires Right(m, bs, open) && b in open && bs[b].Sum() == bs[b].total && id !in m
    requires j.state == Pending && j.batch.None? && j.uniqueKey == Some(CallbackOf(b))
    requires Announces(j, b, Close(bs[b], now)) && ValidQueueName(bs[b].onComplete.value.queue)
    ensures Right(m[id := j], bs[b := Close(bs[b], now)], open - {b})
  {
    hide Ok, Announces, Clean;
    var m', bs' := m[id := j], bs[b := Close(bs[b], now)];
    CloseStaysClean(m, bs, b, id, j, now);
    forall c | c in bs' ensures Ok(m', c, bs'[c], c in open - {b}) {
      assert Ok(m, c, bs[c], c in open);
      if c == b {
        AnnounceDelivers(m, id, j, b, bs[b], now);
      } else {
        AddedKeepsOne(m, id, j, c, bs[c], c in open);
      }
    }
  }

  lemma CloseSilently(m: Jobs, bs: Batches, open: set<BatchId>, b: BatchId, now: Time)
    requires Right(m, bs, open) && b in open && bs[b].Sum() == bs[b].total && bs[b].onComplete.None?
    ensures Right(m, bs[b := Close(bs[b], now)], open - {b})
  {
    var bs' := bs[b := Close(bs[b], now)];
    forall c | c in bs' ensures Ok(m, c, bs'[c], c in open - {b}) {
      assert Ok(m, c, bs[c], c in open);
    }
  }

  /** A batch whose counts do not add up is decided by leaving it alone. */
  lemma NotYet(m: Jobs, bs: Batches, open: set<BatchId>, b: BatchId)
    requires Right(m, bs, open) && (b in open ==> bs[b].Sum() != bs[b].total)
    ensures Right(m, bs, open - {b})
  {
    forall c | c in bs ensures Ok(m, c, bs[c], c in open - {b}) {
      assert Ok(m, c, bs[c], c in open);
    }
  }

  // ---- Filling a new batch ----

  /** While the rows of batch `b` go in: its members are the ids from `lo` to `hi`, none finished. */
  ghost predicate Filling(m: Jobs, bs: Batches, b: BatchId, lo: JobId, hi: JobId) {
    && lo <= hi && b in bs && Clean(m, bs)
    && (forall c :: c in bs && c != b ==> Ok(m, c, bs[c], false))
    && (forall id :: id in Members(m, b) <==> lo <= id < hi)
    && Callbacks(m, b) == {} && Ended(m, b, Completed) == {} && Ended(m, b, Failed) == {} && Ended(m, b, Cancelled) == {}
  }

  lemma FillOne(m: Jobs, bs: Batches, b: BatchId, lo: JobId, hi: JobId, j: Job)
    requires Filling(m, bs, b, lo, hi) && hi !in m && j.state == Pending && j.batch == Some(b) && UserKey(j.uniqueKey)
    ensures Filling(m[hi := j], bs, b, lo, hi + 1)
  {
    hide Ok;
    var m' := m[hi := j];
    AddedSets(m, hi, j, b);
    forall c | c in bs && c != b ensures Ok(m', c, bs[c], false) {
      AddedKeepsOne(m, hi, j, c, bs[c], false);
    }
  }

  lemma {:induction false} IntervalSize(lo: nat, hi: nat, s: set<nat>)
    requires lo <= hi && forall x :: x in s <==> lo <= x < hi
    ensures |s| == hi - lo
    decreases hi
  {
    if lo < hi {
      IntervalSize(lo, hi - 1, s - {hi - 1});
    } else {
      assert s == {};
    }
  }

  lemma OpenFills(m: Jobs, bs: Batches, b: BatchId, row: Batch, lo: JobId)
    requires Right(m, bs, {}) && b !in bs && (row.onComplete.Some? ==> row.onComplete.value.batch.None?)
    ensures Filling(m, bs[b := row], b, lo, lo)
  {
    assert Members(m, b) == {} && Callbacks(m, b) == {};
    var bs' := bs[b := row];
    forall c | c in bs' && c != b ensures Ok(m, c, bs'[c], false) {
      assert Ok(m, c, bs[c], false);
    }
  }

  predicate Unstarted(r: Batch) {
    r.completed == 0 && r.failed == 0 && r.cancelled == 0 && !r.complete && !r.claimed
  }

  /** Recording the size makes the new batch's tally exact; it is undecided only if it is empty. */
  lemma SizedIsRight(m: Jobs, bs: Batches, b: BatchId, lo: JobId, hi: JobId, row: Batch)
    requires Filling(m, bs, b, lo, hi) && row == bs[b].(total := hi - lo) && Unstarted(row)
    ensures Right(m, bs[b := row], if lo == hi then {b} else {})
  {
    var bs', open := bs[b := row], if lo == hi then {b} else {};
    IntervalSize(lo, hi, Members(m, b));
    forall c | c in bs' ensures Ok(m, c, bs'[c], c in open) {
      if c == b {
        assert Tallied(m, b, row);
      }
    }
  }
}
