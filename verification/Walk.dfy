/** The loose index scans that find the groups with due work: recursive queries that
    seek from one key to the next, against the SELECT DISTINCT they stand for.
    Text order is by code point; the proofs use only that it is a strict total order. */
module Walk {
  import opened Tables

  // ---- Strict total orders ----

  ghost predicate StrictOrder<T(!new)>(lt: (T, T) -> bool) {
    && (forall a: T :: !lt(a, a))
    && (forall a: T, b: T :: lt(a, b) || a == b || lt(b, a))
    && (forall a: T, b: T, c: T :: lt(a, b) && lt(b, c) ==> lt(a, c))
  }

  predicate Before(a: string, b: string) {
    b != [] && (a == [] || a[0] < b[0] || (a[0] == b[0] && Before(a[1..], b[1..])))
  }

  lemma {:induction false} BeforeIrreflexive(a: string)
    ensures !Before(a, a)
  {
    if a != [] {
      BeforeIrreflexive(a[1..]);
    }
  }

  lemma {:induction false} BeforeTotal(a: string, b: string)
    ensures Before(a, b) || a == b || Before(b, a)
  {
    if a != [] && b != [] && a[0] == b[0] {
      BeforeTotal(a[1..], b[1..]);
      assert a == [a[0]] + a[1..] && b == [b[0]] + b[1..];
    }
  }

  lemma {:induction false} BeforeTransitive(a: string, b: string, c: string)
    requires Before(a, b) && Before(b, c)
    ensures Before(a, c)
  {
    if a != [] && a[0] == b[0] && b[0] == c[0] {
      BeforeTransitive(a[1..], b[1..], c[1..]);
    }
  }

  lemma BeforeIsOrder()
    ensures StrictOrder(Before)
  {
    forall a ensures !Before(a, a) {
      BeforeIrreflexive(a);
    }
    forall a, b ensures Before(a, b) || a == b || Before(b, a) {
      BeforeTotal(a, b);
    }
    forall a, b, c | Before(a, b) && Before(b, c) ensures Before(a, c) {
      BeforeTransitive(a, b, c);
    }
  }

  /** Text order spelled out: a proper prefix, or smaller at the first difference. */
  ghost predicate ComesFirst(a: string, b: string) {
    exists n: nat :: n <= |a| && n < |b| && a[..n] == b[..n] && (n == |a| || a[n] < b[n])
  }

  lemma {:induction false} BeforeComesFirst(a: string, b: string)
    requires Before(a, b)
    ensures ComesFirst(a, b)
  {
    if a == [] {
      assert a[..0] == b[..0];
    } else if a[0] < b[0] {
      assert a[..0] == b[..0];
    } else {
      BeforeComesFirst(a[1..], b[1..]);
      var n: nat :| n <= |a[1..]| && n < |b[1..]| && a[1..][..n] == b[1..][..n] && (n == |a[1..]| || a[1..][n] < b[1..][n]);
      assert a[..n + 1] == [a[0]] + a[1..][..n] && b[..n + 1] == [b[0]] + b[1..][..n];
    }
  }

  datatype Pair = Pair(queue: string, key: string)

  /** Row comparison: `(queue, group_key) > (w.queue, w.key)`. */
  predicate PairBefore(a: Pair, b: Pair) {
    Before(a.queue, b.queue) || (a.queue == b.queue && Before(a.key, b.key))
  }

  lemma PairBeforeIsOrder()
    ensures StrictOrder(PairBefore)
  {
    BeforeIsOrder();
  }

  // ---- One seek, and walking by seeks ----

  /** The rows past `after`. */
  ghost function Past<T(!new)>(rows: set<JobId>, col: JobId -> T, lt: (T, T) -> bool, after: Option<T>): set<JobId> {
    set id | id in rows && (after.None? || lt(after.value, col(id)))
  }

  lemma {:induction false} HasLeast<T(!new)>(rows: set<JobId>, col: JobId -> T, lt: (T, T) -> bool)
    requires StrictOrder(lt) && rows != {}
    ensures exists id :: id in rows && forall x :: x in rows ==> !lt(col(x), col(id))
    decreases |rows|
  {
    var r :| r in rows;
    var rest := rows - {r};
    if rest == {} {
      assert rows == {r};
    } else {
      HasLeast(rest, col, lt);
      var m :| m in rest && forall x :: x in rest ==> !lt(col(x), col(m));
      var best := if lt(col(r), col(m)) then r else m;
      forall x | x in rows ensures !lt(col(x), col(best)) {
      }
    }
  }

  /** `ORDER BY column LIMIT 1` over the rows past `after`. */
  ghost function Seek<T(!new)>(rows: set<JobId>, col: JobId -> T, lt: (T, T) -> bool, after: Option<T>): (r: Option<T>)
    requires StrictOrder(lt)
    ensures r.None? <==> Past(rows, col, lt, after) == {}
    ensures r.Some? ==> exists id :: id in Past(rows, col, lt, after) && col(id) == r.value
    ensures r.Some? ==> forall x :: x in Past(rows, col, lt, after) ==> !lt(col(x), r.value)
  {
    var past := Past(rows, col, lt, after);
    if past == {} then None
    else
      HasLeast(past, col, lt);
      var id :| id in past && forall x :: x in past ==> !lt(col(x), col(id));
      Some(col(id))
  }

  lemma SeekAdvances<T(!new)>(rows: set<JobId>, col: JobId -> T, lt: (T, T) -> bool, after: Option<T>)
    requires StrictOrder(lt) && Seek(rows, col, lt, after).Some?
    ensures Past(rows, col, lt, Seek(rows, col, lt, after)) < Past(rows, col, lt, after)
    ensures |Past(rows, col, lt, Seek(rows, col, lt, after))| < |Past(rows, col, lt, after)|
  {
    var k := Seek(rows, col, lt, after);
    var a, b := Past(rows, col, lt, k), Past(rows, col, lt, after);
    var id :| id in b && col(id) == k.value;
    assert id !in a && a <= b;
    assert b == a + (b - a);
    assert id in b - a;
  }

  /** The recursive query whose step is a LATERAL join: it ends when a seek finds no row. */
  ghost function Steps<T(!new)>(rows: set<JobId>, col: JobId -> T, lt: (T, T) -> bool, after: Option<T>): seq<T>
    requires StrictOrder(lt)
    decreases |Past(rows, col, lt, after)|
  {
    var next := Seek(rows, col, lt, after);
    if next.None? then [] else (SeekAdvances(rows, col, lt, after); [next.value] + Steps(rows, col, lt, next))
  }

  /** The recursive query whose step is a scalar subquery: the last step yields a NULL row. */
  ghost function NullSteps<T(!new)>(rows: set<JobId>, col: JobId -> T, lt: (T, T) -> bool, after: T): seq<Option<T>>
    requires StrictOrder(lt)
    decreases |Past(rows, col, lt, Some(after))|
  {
    var next := Seek(rows, col, lt, Some(after));
    if next.None? then [None] else (SeekAdvances(rows, col, lt, Some(after)); [next] + NullSteps(rows, col, lt, next.value))
  }

  /** `WHERE key IS NOT NULL`. */
  function NotNull<T>(s: seq<Option<T>>): seq<T> {
    if s == [] then [] else (if s[0].Some? then [s[0].value] else []) + NotNull(s[1..])
  }

  lemma {:induction false} NullStepsAreSteps<T(!new)>(rows: set<JobId>, col: JobId -> T, lt: (T, T) -> bool, after: T)
    requires StrictOrder(lt)
    ensures NotNull(NullSteps(rows, col, lt, after)) == Steps(rows, col, lt, Some(after))
    decreases |Past(rows, col, lt, Some(after))|
  {
    var next := Seek(rows, col, lt, Some(after));
    if next.Some? {
      SeekAdvances(rows, col, lt, Some(after));
      NullStepsAreSteps(rows, col, lt, next.value);
      assert NullSteps(rows, col, lt, after)[1..] == NullSteps(rows, col, lt, next.value);
    }
  }

  // ---- What a walk finds ----

  ghost predicate Increasing<T(!new)>(s: seq<T>, lt: (T, T) -> bool) {
    forall i, j :: 0 <= i < j < |s| ==> lt(s[i], s[j])
  }

  /** A walk visits every value past `after` once, in increasing order, and nothing else. */
  lemma {:induction false} StepsAreDistinct<T(!new)>(rows: set<JobId>, col: JobId -> T, lt: (T, T) -> bool, after: Option<T>)
    requires StrictOrder(lt)
    ensures Increasing(Steps(rows, col, lt, after), lt)
    ensures forall k: T :: k in Steps(rows, col, lt, after) <==> exists id :: id in Past(rows, col, lt, after) && col(id) == k
    decreases |Past(rows, col, lt, after)|
  {
    var next := Seek(rows, col, lt, after);
    var s := Steps(rows, col, lt, after);
    if next.Some? {
      SeekAdvances(rows, col, lt, after);
      StepsAreDistinct(rows, col, lt, next);
      var rest := Steps(rows, col, lt, next);
      assert s == [next.value] + rest;
      forall j | 0 <= j < |rest| ensures lt(next.value, rest[j]) {
        assert rest[j] in rest;
      }
      forall k: T ensures k in s <==> exists id :: id in Past(rows, col, lt, after) && col(id) == k {
        if id :| id in Past(rows, col, lt, after) && col(id) == k {
          if k != next.value {
            assert lt(next.value, k);
            assert id in Past(rows, col, lt, next);
          }
        }
      }
    }
  }

  // ---- The two queries ----

  /** The rows both queries and phase 3 look for: due pending grouped jobs of the given kinds and queues. */
  function DueGrouped(jobs: map<JobId, Job>, kinds: seq<string>, queues: seq<string>, now: Time): set<JobId> {
    set id | id in jobs && jobs[id].state == Pending && jobs[id].scheduledAt <= now && jobs[id].group.Some?
             && jobs[id].kind in kinds && jobs[id].queue in queues
  }

  /** SELECT DISTINCT group_key. */
  function DueKeys(jobs: map<JobId, Job>, kinds: seq<string>, queues: seq<string>, now: Time): set<string> {
    set id | id in DueGrouped(jobs, kinds, queues, now) :: jobs[id].group.value
  }

  function KeyColumn(jobs: map<JobId, Job>): JobId -> string {
    id => if id in jobs && jobs[id].group.Some? then jobs[id].group.value else ""
  }

  function PairColumn(jobs: map<JobId, Job>): JobId -> Pair {
    id => if id in jobs && jobs[id].group.Some? then Pair(jobs[id].queue, jobs[id].group.value) else Pair("", "")
  }

  /** GROUP_WALK. */
  ghost function GroupWalk(jobs: map<JobId, Job>, kinds: seq<string>, queues: seq<string>, now: Time): seq<string> {
    BeforeIsOrder();
    var rows := DueGrouped(jobs, kinds, queues, now);
    var first := Seek(rows, KeyColumn(jobs), Before, None);
    if first.None? then [] else NotNull([first] + NullSteps(rows, KeyColumn(jobs), Before, first.value))
  }

  /** The (queue, key) pairs of GROUP_WALK_BY_QUEUE, before its DISTINCT. */
  ghost function PairWalk(jobs: map<JobId, Job>, kinds: seq<string>, queues: seq<string>, now: Time): seq<Pair> {
    PairBeforeIsOrder();
    Steps(DueGrouped(jobs, kinds, queues, now), PairColumn(jobs), PairBefore, None)
  }

  /** GROUP_WALK_BY_QUEUE. */
  ghost function GroupWalkByQueue(jobs: map<JobId, Job>, kinds: seq<string>, queues: seq<string>, now: Time): set<string> {
    set p | p in PairWalk(jobs, kinds, queues, now) :: p.key
  }

  /** The first walk returns exactly the distinct due keys, each once, in strictly increasing order. */
  lemma GroupWalkIsDistinct(jobs: map<JobId, Job>, kinds: seq<string>, queues: seq<string>, now: Time)
    ensures Increasing(GroupWalk(jobs, kinds, queues, now), Before)
    ensures var w := GroupWalk(jobs, kinds, queues, now); forall i, j :: 0 <= i < j < |w| ==> ComesFirst(w[i], w[j])
    ensures forall k :: k in GroupWalk(jobs, kinds, queues, now) <==> k in DueKeys(jobs, kinds, queues, now)
    ensures forall k :: k in GroupWalk(jobs, kinds, queues, now) <==>
              exists id :: id in jobs && jobs[id].state == Pending && jobs[id].scheduledAt <= now && jobs[id].group == Some(k)
                           && jobs[id].kind in kinds && jobs[id].queue in queues
  {
    forall k ensures k in DueKeys(jobs, kinds, queues, now) <==>
              exists id :: id in jobs && jobs[id].state == Pending && jobs[id].scheduledAt <= now && jobs[id].group == Some(k)
                           && jobs[id].kind in kinds && jobs[id].queue in queues
    {
      DueKeyIs(jobs, kinds, queues, now, k);
    }
    forall a, b | Before(a, b) ensures ComesFirst(a, b) {
      BeforeComesFirst(a, b);
    }
    hide ComesFirst;
    BeforeIsOrder();
    var rows, col := DueGrouped(jobs, kinds, queues, now), KeyColumn(jobs);
    var first := Seek(rows, col, Before, None);
    var walk := GroupWalk(jobs, kinds, queues, now);
    StepsAreDistinct(rows, col, Before, None);
    if first.Some? {
      SeekAdvances(rows, col, Before, None);
      NullStepsAreSteps(rows, col, Before, first.value);
      var all := [first] + NullSteps(rows, col, Before, first.value);
      assert all[1..] == NullSteps(rows, col, Before, first.value);
      assert walk == Steps(rows, col, Before, None);
    }
    KeysAreColumn(jobs, kinds, queues, now);
  }

  lemma DueKeyIs(jobs: map<JobId, Job>, kinds: seq<string>, queues: seq<string>, now: Time, k: string)
    ensures k in DueKeys(jobs, kinds, queues, now) <==>
              exists id :: id in jobs && jobs[id].state == Pending && jobs[id].scheduledAt <= now && jobs[id].group == Some(k)
                           && jobs[id].kind in kinds && jobs[id].queue in queues
  {
    if id :| id in jobs && jobs[id].state == Pending && jobs[id].scheduledAt <= now && jobs[id].group == Some(k)
             && jobs[id].kind in kinds && jobs[id].queue in queues
    {
      assert id in DueGrouped(jobs, kinds, queues, now);
    }
  }

  lemma KeysAreColumn(jobs: map<JobId, Job>, kinds: seq<string>, queues: seq<string>, now: Time)
    ensures var rows, col := DueGrouped(jobs, kinds, queues, now), KeyColumn(jobs);
            forall k :: k in DueKeys(jobs, kinds, queues, now) <==> exists id :: id in Past(rows, col, Before, None) && col(id) == k
  {
    var rows, col := DueGrouped(jobs, kinds, queues, now), KeyColumn(jobs);
    assert Past(rows, col, Before, None) == rows;
    forall k ensures k in DueKeys(jobs, kinds, queues, now) <==> exists id :: id in rows && col(id) == k {
      if k in DueKeys(jobs, kinds, queues, now) {
        var id :| id in rows && jobs[id].group.value == k;
        assert col(id) == k;
      }
    }
  }

  /** The second walk visits strictly increasing pairs, and its distinct keys are the same set. */
  lemma GroupWalkByQueueIsDistinct(jobs: map<JobId, Job>, kinds: seq<string>, queues: seq<string>, now: Time)
    ensures Increasing(PairWalk(jobs, kinds, queues, now), PairBefore)
    ensures var w := PairWalk(jobs, kinds, queues, now);
            forall i, j :: 0 <= i < j < |w| ==>
              Before(w[i].queue, w[j].queue) || (w[i].queue == w[j].queue && Before(w[i].key, w[j].key))
    ensures GroupWalkByQueue(jobs, kinds, queues, now) == DueKeys(jobs, kinds, queues, now)
  {
    PairBeforeIsOrder();
    var rows, col := DueGrouped(jobs, kinds, queues, now), PairColumn(jobs);
    StepsAreDistinct(rows, col, PairBefore, None);
    assert Past(rows, col, PairBefore, None) == rows;
    forall k ensures k in GroupWalkByQueue(jobs, kinds, queues, now) <==> k in DueKeys(jobs, kinds, queues, now) {
      if k in DueKeys(jobs, kinds, queues, now) {
        var id :| id in rows && jobs[id].group.value == k;
        assert col(id) == Pair(jobs[id].queue, k);
        assert col(id) in PairWalk(jobs, kinds, queues, now);
      }
    }
  }

  /** So either walk may be used on any list of queues. */
  lemma WalksAgree(jobs: map<JobId, Job>, kinds: seq<string>, queues: seq<string>, now: Time)
    ensures (set k | k in GroupWalk(jobs, kinds, queues, now)) == GroupWalkByQueue(jobs, kinds, queues, now)
  {
    GroupWalkIsDistinct(jobs, kinds, queues, now);
    GroupWalkByQueueIsDistinct(jobs, kinds, queues, now);
  }
}
