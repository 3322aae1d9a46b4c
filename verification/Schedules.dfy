/** Recurring schedules: upserts, reconciliation with a declared list, and the tick that
    fires what is due. Parsing a cron expression and finding its next instant is left to
    an oracle: None when the expression is malformed or never fires again. */
module Schedules {
  import opened Tables
  import opened Lifecycle
  import Columns
  import Inserts
  import Store

  datatype Schedule = Schedule(
    kind: string,
    payload: Json,
    cron: Option<string>,
    interval: Option<int>,
    nextRun: Time,
    lastRun: Option<Time>,
    enabled: bool,
    priority: int,
    maxAttempts: int,
    queue: string)

  datatype Declaration = Declaration(
    name: string, cron: string, kind: string, payload: Json, priority: int, maxAttempts: int, queue: string)

  type Rows = map<string, Schedule>
  type Oracle = (string, Time) -> Option<Time>

  /** The next instant of a cron expression is strictly later. */
  ghost predicate Forward(cron: Oracle) {
    forall e: string, t: Time :: cron(e, t).Some? ==> cron(e, t).value > t
  }

  // ---- Upserts ----

  /** ON CONFLICT: an unchanged expression keeps its next run; `enabled` and `last_run_at` are never touched. */
  function WithCron(rows: Rows, d: Declaration, next: Time): Rows {
    rows[d.name :=
      if d.name in rows then
        var r := rows[d.name];
        r.(kind := d.kind, payload := d.payload, cron := Some(d.cron), interval := None,
           nextRun := if r.cron == Some(d.cron) then r.nextRun else next,
           priority := d.priority, maxAttempts := d.maxAttempts, queue := d.queue)
      else Schedule(d.kind, d.payload, Some(d.cron), None, next, None, true, d.priority, d.maxAttempts, d.queue)]
  }

  /** The same for an interval; `d.cron` is not used. */
  function WithInterval(rows: Rows, d: Declaration, ms: int, next: Time): Rows {
    rows[d.name :=
      if d.name in rows then
        var r := rows[d.name];
        r.(kind := d.kind, payload := d.payload, cron := None, interval := Some(ms),
           nextRun := if r.interval == Some(ms) then r.nextRun else next,
           priority := d.priority, maxAttempts := d.maxAttempts, queue := d.queue)
      else Schedule(d.kind, d.payload, None, Some(ms), next, None, true, d.priority, d.maxAttempts, d.queue)]
  }

  /** What an upsert must leave, column by column: what is declared, one trigger, and for a row that was there its
      own switch and last run, and its next run too if the trigger did not change. */
  ghost predicate Upserts(before: Option<Schedule>, after: Schedule, d: Declaration, cron: Option<string>, interval: Option<int>, next: Time) {
    && after.kind == d.kind && after.payload == d.payload && after.priority == d.priority
    && after.maxAttempts == d.maxAttempts && after.queue == d.queue && after.cron == cron && after.interval == interval
    && (match before
        case None => after.nextRun == next && after.lastRun == None && after.enabled
        case Some(r) =>
          && after.lastRun == r.lastRun && after.enabled == r.enabled
          && after.nextRun == if (if cron.Some? then r.cron == cron else r.interval == interval) then r.nextRun else next)
  }

  function RowIn(rows: Rows, name: string): Option<Schedule> {
    if name in rows then Some(rows[name]) else None
  }

  /** Exactly one trigger, a positive interval, and a queue name that was checked. */
  predicate RowOk(r: Schedule) {
    r.cron.Some? != r.interval.Some? && (r.interval.Some? ==> r.interval.value > 0) && ValidQueueName(r.queue)
  }

  ghost predicate RowsOk(rows: Rows) {
    forall n :: n in rows ==> RowOk(rows[n])
  }

  // ---- Reconciliation ----

  function Upserted(rows: Rows, ds: seq<Declaration>, nexts: seq<Time>): Rows
    requires |ds| == |nexts|
    decreases |ds|
  {
    if ds == [] then rows
    else
      var n := |ds| - 1;
      WithCron(Upserted(rows, ds[..n], nexts[..n]), ds[n], nexts[n])
  }

  function Names(ds: seq<Declaration>): set<string> {
    set d | d in ds :: d.name
  }

  function Synced(rows: Rows, ds: seq<Declaration>, nexts: seq<Time>): Rows
    requires |ds| == |nexts|
  {
    map n | n in Upserted(rows, ds, nexts) && n in Names(ds) :: Upserted(rows, ds, nexts)[n]
  }

  predicate DistinctNames(ds: seq<Declaration>) {
    forall i, j :: 0 <= i < j < |ds| ==> ds[i].name != ds[j].name
  }

  /** The row says what `d` declares. */
  predicate Matches(r: Schedule, d: Declaration) {
    r.kind == d.kind && r.payload == d.payload && r.cron == Some(d.cron) && r.interval == None && r.priority == d.priority
    && r.maxAttempts == d.maxAttempts && r.queue == d.queue
  }

  lemma {:induction false} UpsertedKeys(rows: Rows, ds: seq<Declaration>, nexts: seq<Time>)
    requires |ds| == |nexts|
    ensures Upserted(rows, ds, nexts).Keys == rows.Keys + Names(ds)
    decreases |ds|
  {
    if ds == [] {
      assert Names(ds) == {};
    } else {
      var n := |ds| - 1;
      UpsertedKeys(rows, ds[..n], nexts[..n]);
      assert ds == ds[..n] + [ds[n]];
      assert Names(ds) == Names(ds[..n]) + {ds[n].name};
    }
  }

  lemma {:induction false} UpsertedMatches(rows: Rows, ds: seq<Declaration>, nexts: seq<Time>, i: nat)
    requires |ds| == |nexts| && DistinctNames(ds) && i < |ds|
    ensures ds[i].name in Upserted(rows, ds, nexts) && Matches(Upserted(rows, ds, nexts)[ds[i].name], ds[i])
    decreases |ds|
  {
    var n := |ds| - 1;
    if i < n {
      UpsertedMatches(rows, ds[..n], nexts[..n], i);
    }
  }

  /** After a sync exactly the declared names remain, each row saying what was declared; rows keep one
      trigger, and a kept expression keeps its next run. */
  lemma SyncLeavesDeclared(rows: Rows, ds: seq<Declaration>, nexts: seq<Time>)
    requires |ds| == |nexts| && DistinctNames(ds)
    ensures Synced(rows, ds, nexts).Keys == Names(ds)
    ensures forall i :: 0 <= i < |ds| ==> ds[i].name in Synced(rows, ds, nexts) && Matches(Synced(rows, ds, nexts)[ds[i].name], ds[i])
  {
    UpsertedKeys(rows, ds, nexts);
    forall i | 0 <= i < |ds| ensures ds[i].name in Synced(rows, ds, nexts) && Matches(Synced(rows, ds, nexts)[ds[i].name], ds[i]) {
      UpsertedMatches(rows, ds, nexts, i);
      assert ds[i] in ds;
    }
  }

  /** Each declared row is the upsert of the row that was there: it keeps its next run exactly when its expression
      is unchanged, and its last run and its switch always. */
  lemma {:induction false} SyncUpserts(rows: Rows, ds: seq<Declaration>, nexts: seq<Time>, i: nat)
    requires |ds| == |nexts| && DistinctNames(ds) && i < |ds|
    ensures ds[i].name in Upserted(rows, ds, nexts)
    ensures Upserts(RowIn(rows, ds[i].name), Upserted(rows, ds, nexts)[ds[i].name], ds[i], Some(ds[i].cron), None, nexts[i])
    decreases |ds|
  {
    var n := |ds| - 1;
    if i < n {
      SyncUpserts(rows, ds[..n], nexts[..n], i);
    } else {
      UntouchedBy(rows, ds[..n], nexts[..n], ds[n].name);
    }
  }

  lemma {:induction false} UntouchedBy(rows: Rows, ds: seq<Declaration>, nexts: seq<Time>, name: string)
    requires |ds| == |nexts| && (forall i :: 0 <= i < |ds| ==> ds[i].name != name)
    ensures name in Upserted(rows, ds, nexts) <==> name in rows
    ensures name in rows ==> Upserted(rows, ds, nexts)[name] == rows[name]
    decreases |ds|
  {
    if ds != [] {
      UntouchedBy(rows, ds[..|ds| - 1], nexts[..|ds| - 1], name);
    }
  }

  lemma {:induction false} UpsertedIsIdle(rows: Rows, ds: seq<Declaration>, nexts: seq<Time>)
    requires |ds| == |nexts| && forall i :: 0 <= i < |ds| ==> ds[i].name in rows && Matches(rows[ds[i].name], ds[i])
    ensures Upserted(rows, ds, nexts) == rows
    decreases |ds|
  {
    if ds != [] {
      var n := |ds| - 1;
      UpsertedIsIdle(rows, ds[..n], nexts[..n]);
      assert WithCron(rows, ds[n], nexts[n])[ds[n].name] == rows[ds[n].name];
      assert WithCron(rows, ds[n], nexts[n]) == rows;
    }
  }

  /** A second sync, whenever it comes, changes nothing: no next run moves and nothing is deleted. */
  lemma SecondSyncIsIdle(rows: Rows, ds: seq<Declaration>, nexts: seq<Time>, later: seq<Time>)
    requires |ds| == |nexts| == |later| && DistinctNames(ds)
    ensures var once := Synced(rows, ds, nexts);
            Synced(once, ds, later) == once && Upserted(once, ds, later).Keys - Names(ds) == {}
  {
    var once := Synced(rows, ds, nexts);
    SyncLeavesDeclared(rows, ds, nexts);
    UpsertedIsIdle(once, ds, later);
  }

  lemma {:induction false} UpsertedOk(rows: Rows, ds: seq<Declaration>, nexts: seq<Time>)
    requires |ds| == |nexts| && RowsOk(rows) && forall i :: 0 <= i < |ds| ==> ValidQueueName(ds[i].queue)
    ensures RowsOk(Upserted(rows, ds, nexts))
    decreases |ds|
  {
    if ds != [] {
      UpsertedOk(rows, ds[..|ds| - 1], nexts[..|ds| - 1]);
    }
  }

  // ---- Firing ----

  predicate Due(r: Schedule, now: Time) {
    r.enabled && r.nextRun <= now
  }

  function DueNames(rows: Rows, now: Time): set<string> {
    set n | n in rows && Due(rows[n], now)
  }

  function NextFire(r: Schedule, cron: Oracle, clock: Time): Option<Time> {
    if r.interval.Some? then Some(clock + r.interval.value)
    else if r.cron.Some? then cron(r.cron.value, clock)
    else None
  }

  /** The job a schedule enqueues; `max_stalled_count` is the schema's default. */
  function JobOf(r: Schedule, now: Time): Job {
    NewJob(Request(r.kind, r.payload, r.maxAttempts, 1, r.priority, r.queue, Some(now), None, None, None), now)
  }

  /** `rows'` is `rows` with the schedules in `fired` advanced and nothing else changed. */
  ghost predicate Advanced(rows: Rows, rows': Rows, fired: set<string>, cron: Oracle, now: Time, clock: Time) {
    && rows'.Keys == rows.Keys && fired <= rows.Keys
    && (forall n :: n in rows && n !in fired ==> rows'[n] == rows[n])
    && (forall n :: n in fired ==>
          NextFire(rows[n], cron, clock).Some?
          && rows'[n] == rows[n].(nextRun := NextFire(rows[n], cron, clock).value, lastRun := Some(now)))
  }

  /** The jobs added are one per name of `order`, in that order. */
  ghost predicate Enqueued(db: Db, db': Db, rows: Rows, order: seq<string>, now: Time) {
    && (forall i :: 0 <= i < |order| ==> order[i] in rows)
    && db' == db.(jobs := db'.jobs, nextJob := db.nextJob + |order|)
    && (forall id :: id in db'.jobs <==> id in db.jobs || db.nextJob <= id < db.nextJob + |order|)
    && (forall id :: id in db.jobs && id < db.nextJob ==> db'.jobs[id] == db.jobs[id])
    && (forall i :: 0 <= i < |order| ==> db'.jobs[db.nextJob + i] == JobOf(rows[order[i]], now))
  }

  /** On one clock that has not fallen behind the database's, a tick leaves nothing due. */
  lemma NothingStaysDue(rows: Rows, rows': Rows, cron: Oracle, now: Time, clock: Time)
    requires Forward(cron) && RowsOk(rows) && now <= clock && Advanced(rows, rows', DueNames(rows, now), cron, now, clock)
    ensures DueNames(rows', now) == {} && RowsOk(rows')
  {
    forall n | n in rows' ensures !Due(rows'[n], now) && RowOk(rows'[n]) {
      assert RowOk(rows[n]);
    }
  }

  /** Firing a schedule is an ordinary enqueue: no group, no unique key, a checked queue name. */
  lemma FiringIsEnqueue(db: Db, r: Schedule, now: Time)
    requires RowOk(r)
    ensures InsertDyn(db, Request(r.kind, r.payload, r.maxAttempts, 1, r.priority, r.queue, Some(now), None, None, None), now)
            == Some(AddJob(db, JobOf(r, now)))
  {
    var req := Request(r.kind, r.payload, r.maxAttempts, 1, r.priority, r.queue, Some(now), None, None, None);
    assert Materialize(db.groups, db.rules, KeysOf(req), now) == db.groups;
  }

  // ---- The table and its statements ----

  class ScheduleTable {
    var rows: Rows

    constructor ()
      ensures rows == map[]
    {
      rows := map[];
    }

    /** `upsert_schedule_raw`: false on a bad queue name or expression, with nothing written. */
    method UpsertCron(d: Declaration, cron: Oracle, clock: Time) returns (ok: bool)
      modifies this
      ensures ok <==> ValidQueueName(d.queue) && cron(d.cron, clock).Some?
      ensures rows == if ok then WithCron(old(rows), d, cron(d.cron, clock).value) else old(rows)
      ensures ok <==> Columns.NameAccepted(d.queue) && cron(d.cron, clock).Some?
      ensures ok ==>
                && d.name in rows && rows == old(rows)[d.name := rows[d.name]]
                && Upserts(RowIn(old(rows), d.name), rows[d.name], d, Some(d.cron), None, cron(d.cron, clock).value)
      ensures old(RowsOk(rows)) ==> RowsOk(rows)
    {
      Inserts.NameRule(d.queue);
      if !ValidQueueName(d.queue) || cron(d.cron, clock).None? {
        return false;
      }
      rows := WithCron(rows, d, cron(d.cron, clock).value);
      return true;
    }

    /** `upsert_interval_schedule_raw`: also false when the interval is not positive. */
    method UpsertInterval(d: Declaration, ms: int, clock: Time) returns (ok: bool)
      modifies this
      ensures ok <==> ValidQueueName(d.queue) && ms > 0
      ensures rows == if ok then WithInterval(old(rows), d, ms, clock + ms) else old(rows)
      ensures ok <==> Columns.NameAccepted(d.queue) && ms > 0
      ensures ok ==>
                && d.name in rows && rows == old(rows)[d.name := rows[d.name]]
                && Upserts(RowIn(old(rows), d.name), rows[d.name], d, None, Some(ms), clock + ms)
      ensures old(RowsOk(rows)) ==> RowsOk(rows)
    {
      Inserts.NameRule(d.queue);
      if !ValidQueueName(d.queue) || ms <= 0 {
        return false;
      }
      rows := WithInterval(rows, d, ms, clock + ms);
      return true;
    }

    /** The pre-check of `sync_schedules`: one bad entry fails the sync before anything is written. */
    method Prepare(ds: seq<Declaration>, cron: Oracle, clock: Time) returns (nexts: Option<seq<Time>>)
      ensures nexts.Some? <==> forall i :: 0 <= i < |ds| ==> ValidQueueName(ds[i].queue) && cron(ds[i].cron, clock).Some?
      ensures nexts.Some? ==> |nexts.value| == |ds| && forall i :: 0 <= i < |ds| ==> Some(nexts.value[i]) == cron(ds[i].cron, clock)
    {
      var prepared: seq<Time> := [];
      for i := 0 to |ds|
        invariant |prepared| == i
        invariant forall k :: 0 <= k < i ==> ValidQueueName(ds[k].queue) && Some(prepared[k]) == cron(ds[k].cron, clock)
      {
        var next := cron(ds[i].cron, clock);
        if !ValidQueueName(ds[i].queue) || next.None? {
          return None;
        }
        prepared := prepared + [next.value];
      }
      return Some(prepared);
    }

    /** `sync_schedules`: returns the names it deleted. */
    method Sync(ds: seq<Declaration>, cron: Oracle, clock: Time) returns (deleted: Option<set<string>>, ghost nexts: seq<Time>)
      modifies this
      ensures deleted.None? ==> rows == old(rows)
      ensures deleted.Some? <==> forall i :: 0 <= i < |ds| ==> ValidQueueName(ds[i].queue) && cron(ds[i].cron, clock).Some?
      ensures deleted.Some? ==> |nexts| == |ds| && forall i :: 0 <= i < |ds| ==> Some(nexts[i]) == cron(ds[i].cron, clock)
      ensures deleted.Some? ==> rows == Synced(old(rows), ds, nexts) && deleted.value == old(rows).Keys - Names(ds)
      ensures deleted.Some? ==> forall n :: n in deleted.value <==> n in old(rows) && forall i :: 0 <= i < |ds| ==> ds[i].name != n
      ensures old(RowsOk(rows)) ==> RowsOk(rows)
    {
      hide RowOk, WithCron;
      var prepared := Prepare(ds, cron, clock);
      nexts := [];
      if prepared.None? {
        return None, nexts;
      }
      nexts := prepared.value;
      for i := 0 to |ds|
        invariant rows == Upserted(old(rows), ds[..i], prepared.value[..i])
      {
        assert ds[..i + 1][..i] == ds[..i] && prepared.value[..i + 1][..i] == prepared.value[..i];
        rows := WithCron(rows, ds[i], prepared.value[i]);
      }
      assert ds[..|ds|] == ds && prepared.value[..|ds|] == prepared.value;
      UpsertedKeys(old(rows), ds, nexts);
      if RowsOk(old(rows)) {
        UpsertedOk(old(rows), ds, nexts);
      }
      var victims := set n | n in rows && n !in Names(ds);
      rows := map n | n in rows && n in Names(ds) :: rows[n];
      assert victims == old(rows).Keys - Names(ds);
      return Some(victims), nexts;
    }

    /** One schedule of the tick: its job, then its next run. */
    method Fire(store: Store.Store, name: string, cron: Oracle, now: Time, clock: Time) returns (ok: bool)
      requires name in rows
      modifies this, store
      ensures ok <==> NextFire(old(rows)[name], cron, clock).Some?
      ensures store.View() == AddJob(old(store.View()), JobOf(old(rows)[name], now))
      ensures ok ==> rows == old(rows)[name := old(rows)[name].(nextRun := NextFire(old(rows)[name], cron, clock).value, lastRun := Some(now))]
      ensures !ok ==> rows == old(rows)
    {
      var r := rows[name];
      store.jobs, store.nextJob := store.jobs[store.nextJob := JobOf(r, now)], store.nextJob + 1;
      var next := NextFire(r, cron, clock);
      if next.None? {
        return false;
      }
      rows := rows[name := r.(nextRun := next.value, lastRun := Some(now))];
      return true;
    }

    /** `tick`. Without the advisory lock it does nothing. With it, exactly one job per due schedule,
        however many runs were missed, and every due schedule advanced; or, if some trigger yields no
        next run, an error and no change at all. */
    method Tick(store: Store.Store, gotLock: bool, cron: Oracle, now: Time, clock: Time)
      returns (fired: Option<nat>, ghost order: seq<string>)
      requires forall id :: id in store.jobs ==> id < store.nextJob
      modifies this, store
      ensures !gotLock || fired.None? ==> rows == old(rows) && store.View() == old(store.View())
      ensures !gotLock ==> fired == Some(0)
      ensures gotLock ==> (fired.Some? <==> forall n :: n in DueNames(old(rows), now) ==> NextFire(old(rows)[n], cron, clock).Some?)
      ensures gotLock && fired.Some? ==>
                && fired.value == |order| == |DueNames(old(rows), now)|
                && (forall n :: n in order <==> n in DueNames(old(rows), now))
                && Enqueued(old(store.View()), store.View(), old(rows), order, now)
                && Advanced(old(rows), rows, DueNames(old(rows), now), cron, now, clock)
      ensures gotLock && fired.Some? ==> FiredInOrder(old(rows), rows, store.View(), order, cron, now, clock)
      ensures gotLock && fired.None? ==>
                exists n :: n in old(rows) && old(rows)[n].enabled && old(rows)[n].nextRun <= now
                            && old(rows)[n].interval.None? && (old(rows)[n].cron.None? || cron(old(rows)[n].cron.value, clock).None?)
    {
      hide Enqueued, Advanced, DueNames, NextFire, AddJob, FiredInOrder;
      order := [];
      if !gotLock {
        return Some(0), order;
      }
      var begun, rows0 := store.View(), rows;
      var due := DueNames(rows, now);
      TickBegins(begun, rows, now, cron, clock);
      var todo, n := due, 0;
      while todo != {}
        invariant todo <= due && n == |order| == |due| - |todo|
        invariant forall x :: x in order <==> x in due - todo
        invariant forall x :: x in due - todo ==> NextFire(rows0[x], cron, clock).Some?
        invariant Enqueued(begun, store.View(), rows0, order, now)
        invariant Advanced(rows0, rows, due - todo, cron, now, clock)
      {
        var name :| name in todo;
        StillAsRead(rows0, rows, due - todo, name, cron, now, clock);
        ghost var before, rowsBefore := store.View(), rows;
        var ok := Fire(store, name, cron, now, clock);
        if !ok {
          NoNextFire(rows0, name, cron, now, clock);
          store.Restore(begun);
          rows := rows0;
          return None, order;
        }
        EnqueuedOneMore(begun, before, store.View(), rows0, order, name, now);
        AdvancedOneMore(rows0, rowsBefore, rows, due - todo, name, cron, now, clock);
        assert due - todo + {name} == due - (todo - {name});
        order, todo, n := order + [name], todo - {name}, n + 1;
      }
      assert due - todo == due;
      TickByColumns(begun, store.View(), rows0, rows, order, cron, now, clock);
      return Some(n), order;
    }
  }

  /** The job a due schedule enqueues, and what its row becomes, column by column. */
  ghost predicate FiredJob(r: Schedule, j: Job, now: Time) {
    && j.kind == r.kind && j.payload == r.payload && j.priority == r.priority && j.maxAttempts == r.maxAttempts && j.maxStalled == 1
    && j.queue == r.queue && j.group == None && j.batch == None && j.uniqueKey == None
    && j.scheduledAt == now && j.state == Pending && j.attempt == 0 && j.stalled == 0
    && j.heartbeat == None && j.worker == None && j.finalizedAt == None
  }

  ghost predicate FiredRow(r: Schedule, r': Schedule, cron: Oracle, now: Time, clock: Time) {
    && r' == r.(nextRun := r'.nextRun, lastRun := Some(now))
    && (if r.interval.Some? then r'.nextRun == clock + r.interval.value
        else r.cron.Some? && cron(r.cron.value, clock) == Some(r'.nextRun))
  }

  /** Exactly the due enabled schedules fired, each once: its job is there under the next id, its row advanced. */
  ghost predicate FiredInOrder(rows: Rows, rows': Rows, db': Db, order: seq<string>, cron: Oracle, now: Time, clock: Time) {
    && (forall n :: n in order <==> n in rows && rows[n].enabled && rows[n].nextRun <= now)
    && (forall i :: 0 <= i < |order| ==>
          db'.nextJob - |order| + i in db'.jobs && FiredJob(rows[order[i]], db'.jobs[db'.nextJob - |order| + i], now))
    && rows'.Keys == rows.Keys
    && (forall n :: n in rows' ==> if n in order then FiredRow(rows[n], rows'[n], cron, now, clock) else rows'[n] == rows[n])
  }

  lemma JobIsFired(r: Schedule, now: Time)
    ensures FiredJob(r, JobOf(r, now), now)
  {
  }

  lemma RowIsFired(r: Schedule, r': Schedule, cron: Oracle, now: Time, clock: Time)
    requires NextFire(r, cron, clock).Some? && r' == r.(nextRun := NextFire(r, cron, clock).value, lastRun := Some(now))
    ensures FiredRow(r, r', cron, now, clock)
  {
  }

  lemma TickByColumns(db: Db, db': Db, rows: Rows, rows': Rows, order: seq<string>, cron: Oracle, now: Time, clock: Time)
    requires Enqueued(db, db', rows, order, now) && Advanced(rows, rows', DueNames(rows, now), cron, now, clock)
    requires forall n :: n in order <==> n in DueNames(rows, now)
    ensures FiredInOrder(rows, rows', db', order, cron, now, clock)
  {
    hide FiredJob, FiredRow, JobOf, NextFire;
    forall i | 0 <= i < |order|
      ensures db'.nextJob - |order| + i in db'.jobs && FiredJob(rows[order[i]], db'.jobs[db'.nextJob - |order| + i], now)
    {
      assert db'.nextJob - |order| + i == db.nextJob + i;
      JobIsFired(rows[order[i]], now);
    }
    forall n | n in rows' && n in order ensures FiredRow(rows[n], rows'[n], cron, now, clock) {
      RowIsFired(rows[n], rows'[n], cron, now, clock);
    }
  }

  lemma NoNextFire(rows: Rows, name: string, cron: Oracle, now: Time, clock: Time)
    requires name in DueNames(rows, now) && NextFire(rows[name], cron, clock).None?
    ensures name in rows && rows[name].enabled && rows[name].nextRun <= now
    ensures rows[name].interval.None? && (rows[name].cron.None? || cron(rows[name].cron.value, clock).None?)
  {
  }

  lemma TickBegins(db: Db, rows: Rows, now: Time, cron: Oracle, clock: Time)
    ensures Enqueued(db, db, rows, [], now) && Advanced(rows, rows, {}, cron, now, clock)
    ensures DueNames(rows, now) <= rows.Keys && DueNames(rows, now) - DueNames(rows, now) == {}
  {
  }

  lemma StillAsRead(rows: Rows, rows1: Rows, fired: set<string>, name: string, cron: Oracle, now: Time, clock: Time)
    requires Advanced(rows, rows1, fired, cron, now, clock) && name in rows && name !in fired
    ensures name in rows1 && rows1[name] == rows[name]
  {
    hide NextFire;
  }

  lemma EnqueuedOneMore(db: Db, db1: Db, db2: Db, rows: Rows, order: seq<string>, name: string, now: Time)
    requires Enqueued(db, db1, rows, order, now) && name in rows && db2 == AddJob(db1, JobOf(rows[name], now))
    requires forall id :: id in db.jobs ==> id < db.nextJob
    ensures Enqueued(db, db2, rows, order + [name], now)
  {
    hide JobOf;
  }

  lemma AdvancedOneMore(rows: Rows, rows1: Rows, rows2: Rows, fired: set<string>, name: string, cron: Oracle, now: Time, clock: Time)
    requires Advanced(rows, rows1, fired, cron, now, clock) && name in rows && name !in fired
    requires NextFire(rows[name], cron, clock).Some?
    requires rows2 == rows1[name := rows[name].(nextRun := NextFire(rows[name], cron, clock).value, lastRun := Some(now))]
    ensures Advanced(rows, rows2, fired + {name}, cron, now, clock)
  {
    hide NextFire;
  }
}
