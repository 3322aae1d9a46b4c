/** Leader election: one row per role, taken over when its lease has expired,
    refreshed by its holder, and otherwise left alone. */
module Lease {
  import opened Tables

  datatype Row = Row(holder: WorkerId, expires: Time, electedAt: Time)

  /** Leases are in seconds, times in milliseconds. */
  function Elected(row: Option<Row>, w: WorkerId, lease: nat, now: Time): Row {
    match row
    case None => Row(w, now + 1000 * lease, now)
    case Some(r) =>
      Row(if r.expires < now then w else r.holder,
          if r.expires < now || r.holder == w then now + 1000 * lease else r.expires,
          if r.expires < now then now else r.electedAt)
  }

  function Resigned(row: Option<Row>, w: WorkerId, now: Time): Option<Row> {
    if row.Some? && row.value.holder == w then Some(row.value.(expires := now)) else row
  }

  class LeaderTable {
    var rows: map<string, Row>

    constructor ()
      ensures rows == map[]
    {
      rows := map[];
    }

    function RowOf(role: string): Option<Row>
      reads this
    {
      if role in rows then Some(rows[role]) else None
    }

    /** `try_elect`: true exactly when the row now names this worker. */
    method TryElect(w: WorkerId, role: string, lease: nat, now: Time) returns (won: bool)
      modifies this
      ensures rows == old(rows)[role := Elected(old(RowOf(role)), w, lease, now)]
      ensures won <==> old(RowOf(role)).None? || old(RowOf(role)).value.expires < now || old(RowOf(role)).value.holder == w
      ensures won <==> rows[role].holder == w
      ensures rows == old(rows)[role := rows[role]]
      ensures won ==> rows[role].expires == now + 1000 * lease
      ensures won ==> rows[role].electedAt == if role in old(rows) && old(rows)[role].expires >= now then old(rows)[role].electedAt else now
      ensures !won ==> rows[role] == old(rows)[role]
    {
      if role !in rows {
        rows := rows[role := Row(w, now + 1000 * lease, now)];
      } else {
        var r := rows[role];
        var holder, expires, electedAt := r.holder, r.expires, r.electedAt;
        if r.expires < now {
          holder, electedAt := w, now;
        }
        if r.expires < now || r.holder == w {
          expires := now + 1000 * lease;
        }
        rows := rows[role := Row(holder, expires, electedAt)];
      }
      won := rows[role].holder == w;
    }

    /** `resign`: the holder's lease ends now; anyone else's call changes nothing. */
    method Resign(w: WorkerId, role: string, now: Time)
      modifies this
      ensures RowOf(role) == Resigned(old(RowOf(role)), w, now)
      ensures forall other :: other != role ==> (other in rows <==> other in old(rows))
      ensures forall other :: other != role && other in rows ==> rows[other] == old(rows)[other]
      ensures role in old(rows) && old(rows)[role].holder == w ==> role in rows && rows[role] == old(rows)[role].(expires := now)
      ensures !(role in old(rows) && old(rows)[role].holder == w) ==> rows == old(rows)
    {
      if role in rows && rows[role].holder == w {
        rows := rows[role := rows[role].(expires := now)];
      }
    }
  }

  // ---- Runs on one role ----

  datatype Event = Elect(w: WorkerId, now: Time) | Resign(w: WorkerId, now: Time)

  /** Each worker asks for its own fixed lease. */
  function After(row: Option<Row>, e: Event, lease: WorkerId -> nat): Option<Row> {
    match e
    case Elect(w, now) => Some(Elected(row, w, lease(w), now))
    case Resign(w, now) => Resigned(row, w, now)
  }

  /** The rows a sequence of events goes through, on a clock that does not step back. */
  ghost predicate IsRun(rows: seq<Option<Row>>, events: seq<Event>, lease: WorkerId -> nat) {
    && |rows| == |events| + 1
    && (forall k :: 0 <= k < |events| ==> rows[k + 1] == After(rows[k], events[k], lease))
    && (forall i, j :: 0 <= i < j < |events| ==> events[i].now <= events[j].now)
  }

  predicate Wins(rows: seq<Option<Row>>, events: seq<Event>, k: nat)
    requires k < |events| && |rows| == |events| + 1
  {
    events[k].Elect? && rows[k + 1].Some? && rows[k + 1].value.holder == events[k].w
  }

  /** While the winner does not resign, the row stays its own, at least until its first lease is up. */
  lemma {:induction false} LeaseHolds(rows: seq<Option<Row>>, events: seq<Event>, lease: WorkerId -> nat, i: nat, k: nat)
    requires IsRun(rows, events, lease) && i < k < |rows| && Wins(rows, events, i)
    requires forall x: nat :: i < x < k ==> events[x].now <= events[i].now + 1000 * lease(events[i].w) && events[x] != Resign(events[i].w, events[x].now)
    ensures rows[k].Some? && rows[k].value.holder == events[i].w
    ensures rows[k].value.expires >= events[i].now + 1000 * lease(events[i].w)
    decreases k
  {
    if k > i + 1 {
      LeaseHolds(rows, events, lease, i, k - 1);
    }
  }

  /** Lease exclusion: after A wins at time t, no other worker wins at any time up to t plus A's lease
      unless A resigns first, whatever elections, refreshes, takeovers and resignations come between. */
  lemma LeaseExcludes(rows: seq<Option<Row>>, events: seq<Event>, lease: WorkerId -> nat, i: nat, j: nat)
    requires IsRun(rows, events, lease) && i < j < |events| && Wins(rows, events, i)
    requires events[j].now <= events[i].now + 1000 * lease(events[i].w)
    requires forall x: nat :: i < x < j ==> events[x] != Resign(events[i].w, events[x].now)
    ensures Wins(rows, events, j) ==> events[j].w == events[i].w
  {
    forall x: nat | i < x < j ensures events[x].now <= events[i].now + 1000 * lease(events[i].w) {
      assert events[x].now <= events[j].now;
    }
    LeaseHolds(rows, events, lease, i, j);
  }

  /** Whoever the row names, no rival's attempts can extend, shorten or steal a lease that is not up. */
  lemma {:induction false} RivalsChangeNothing(rows: seq<Option<Row>>, events: seq<Event>, lease: WorkerId -> nat, i: nat, k: nat)
    requires IsRun(rows, events, lease) && i <= k < |rows| && rows[i].Some?
    requires forall x: nat :: i <= x < k ==> events[x].w != rows[i].value.holder && events[x].now <= rows[i].value.expires
    ensures rows[k] == rows[i]
    decreases k
  {
    if i < k {
      RivalsChangeNothing(rows, events, lease, i, k - 1);
    }
  }

  /** A lease does end: when its holder neither refreshes nor resigns, the first worker to ask once it is up wins. */
  lemma LeaseEnds(rows: seq<Option<Row>>, events: seq<Event>, lease: WorkerId -> nat, i: nat, j: nat)
    requires IsRun(rows, events, lease) && i < j < |events| && Wins(rows, events, i)
    requires events[j].Elect? && events[j].now > events[i].now + 1000 * lease(events[i].w)
    requires forall x: nat :: i < x < j ==> events[x].w != events[i].w && events[x].now <= events[i].now + 1000 * lease(events[i].w)
    ensures Wins(rows, events, j)
  {
    assert rows[i + 1].value.expires == events[i].now + 1000 * lease(events[i].w);
    RivalsChangeNothing(rows, events, lease, i + 1, j);
  }

  /** Handover: once the holder resigns at time t, the first worker to ask strictly later wins. */
  lemma ResignationFrees(rows: seq<Option<Row>>, events: seq<Event>, lease: WorkerId -> nat, i: nat, j: nat)
    requires IsRun(rows, events, lease) && i < j < |events| && rows[i].Some?
    requires events[i] == Resign(rows[i].value.holder, events[i].now) && events[j].Elect? && events[j].now > events[i].now
    requires forall x: nat :: i < x < j ==> events[x].w != rows[i].value.holder && events[x].now == events[i].now
    ensures Wins(rows, events, j)
  {
    assert rows[i + 1] == Some(rows[i].value.(expires := events[i].now));
    RivalsChangeNothing(rows, events, lease, i + 1, j);
  }
}
