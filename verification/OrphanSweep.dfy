/** The orphan sweeper: three stages over the ledger and the attempt store, and which
    leftovers no stage ever reaches. */
module OrphanSweep {
  import opened Common
  import opened Ledger

  datatype Object = Object(content: Bytes, created: Time)

  // ---------------------------------------------------------------------- the queries

  /** `cleanup_candidates`: terminal rows whose object was not deleted yet. */
  predicate Candidate(row: Row, before: Time) {
    Terminal(row) && !row.cleaned && row.terminalAt.Some? && row.terminalAt.value < before
  }

  /** `orphan_keys_before`: rows with a recorded key that failed, or whose attempt is
      over.  (Cleaned rows are not excluded.) */
  predicate Orphan(row: Row, before: Time, ended: set<Lease>) {
    && row.observed.Some? && row.updatedAt < before && !row.state.Finalized?
    && (row.state.Rejected? || row.state.Abandoned? || row.lease in ended)
  }

  function Candidates(db: Ledger, before: Time): map<PublicationId, Time> {
    map id | id in db.rows && Candidate(db.rows[id], before) :: db.rows[id].terminalAt.value
  }

  function Orphans(db: Ledger, before: Time, ended: set<Lease>): map<PublicationId, Time> {
    map id | id in db.rows && Orphan(db.rows[id], before, ended) :: db.rows[id].updatedAt
  }

  predicate Earlier(times: map<PublicationId, Time>, a: PublicationId, b: PublicationId)
    requires a in times && b in times
  {
    times[a] < times[b] || (times[a] == times[b] && a < b)
  }

  predicate IsEarliest(times: map<PublicationId, Time>, ids: set<PublicationId>, id: PublicationId)
    requires ids <= times.Keys
  {
    id in ids && forall other :: other in ids ==> other == id || Earlier(times, id, other)
  }

  lemma {:induction false} EarliestExists(times: map<PublicationId, Time>, ids: set<PublicationId>) returns (least: PublicationId)
    requires ids != {} && ids <= times.Keys
    ensures IsEarliest(times, ids, least)
    decreases |ids|
  {
    var some :| some in ids;
    var others := ids - {some};
    assert forall other :: other in ids ==> other == some || other in others;
    if others == {} {
      least := some;
    } else {
      var rest := EarliestExists(times, others);
      least := if Earlier(times, some, rest) then some else rest;
    }
  }

  function Min(a: nat, b: nat): nat {
    if a < b then a else b
  }

  /** `picked` are the `limit` earliest of `times`. */
  ghost predicate Earliest(times: map<PublicationId, Time>, picked: set<PublicationId>, limit: nat) {
    && picked <= times.Keys && |picked| == Min(limit, |times.Keys|)
    && (forall a, b :: a in picked && b in times && b !in picked ==> Earlier(times, a, b))
  }

  /** ORDER BY time, id LIMIT limit. */
  method Query(times: map<PublicationId, Time>, limit: nat) returns (ids: seq<PublicationId>, ghost picked: set<PublicationId>)
    ensures Earliest(times, picked, limit)
    ensures |ids| == |picked| && forall id :: id in ids <==> id in picked
    ensures forall j, k :: 0 <= j < k < |ids| ==> ids[j] != ids[k]
  {
    ids, picked := [], {};
    var rest := times.Keys;
    while |ids| < limit && rest != {}
      invariant rest <= times.Keys && picked == times.Keys - rest
      invariant |ids| == |picked| <= limit && |picked| + |rest| == |times.Keys|
      invariant forall id :: id in ids <==> id in picked
      invariant forall j, k :: 0 <= j < k < |ids| ==> ids[j] != ids[k]
      invariant forall a, b :: a in picked && b in rest ==> Earlier(times, a, b)
      decreases rest
    {
      ghost var least := EarliestExists(times, rest);
      var id :| id in rest && IsEarliest(times, rest, id);
      forall b | b in rest - {id} ensures Earlier(times, id, b) {
        assert IsEarliest(times, rest, id) && b in rest && b != id;
      }
      ids := ids + [id];
      picked := picked + {id};
      rest := rest - {id};
    }
  }

  // ------------------------------------------------------------- visiting a record

  /** The ledger and the attempt objects, by record id. */
  datatype Shelf = Shelf(db: Ledger, attempts: map<PublicationId, Object>)

  /** What one visit makes of a row: a terminal row is marked clean; a stale one starts
      its grace period, or is abandoned and marked clean when the grace is over. */
  function Settled(db: Ledger, row: Row): Row {
    if Terminal(row) then
      if row.cleaned then row else row.(cleaned := true, version := row.version + 1, updatedAt := db.now)
    else if row.lease in db.current then row
    else if row.staleSince.None? then row.(staleSince := Some(db.now), version := row.version + 1, updatedAt := db.now)
    else if db.now < row.staleSince.value + STALE_GRACE then row
    else row.(state := Abandoned, terminalAt := Some(db.now), cleaned := true, version := row.version + 2, updatedAt := db.now)
  }

  /** A visit deletes the object of a record that is, or thereby becomes, terminal, and an
      object without a record. */
  predicate Dead(db: Ledger, id: PublicationId) {
    id in db.rows ==> Terminal(Settled(db, db.rows[id]))
  }

  /** The shelf after visiting exactly the records `done`. */
  function Swept(s: Shelf, done: set<PublicationId>): Shelf {
    Shelf(s.db.(rows := map id | id in s.db.rows :: if id in done then Settled(s.db, s.db.rows[id]) else s.db.rows[id]),
          map id | id in s.attempts && !(id in done && Dead(s.db, id)) :: s.attempts[id])
  }

  lemma SweptTwice(s: Shelf, first: set<PublicationId>, second: set<PublicationId>)
    requires first !! second
    ensures Swept(Swept(s, first), second) == Swept(s, first + second)
  {
    var s1 := Swept(s, first);
    forall id | id in second ensures Dead(s1.db, id) <==> Dead(s.db, id) {
    }
    assert Swept(s1, second).db.rows == Swept(s, first + second).db.rows;
    assert Swept(s1, second).attempts == Swept(s, first + second).attempts;
  }

  lemma SweptNone(s: Shelf)
    ensures Swept(s, {}) == s
  {
    assert Swept(s, {}).db.rows == s.db.rows;
    assert Swept(s, {}).attempts == s.attempts;
  }

  /** `_delete_record`, and before it `abandon` for a record that is still live; the
      second result says that a compare-and-swap raised. */
  function Visit(s: Shelf, id: PublicationId): (Shelf, bool) {
    if id !in s.db.rows then (s.(attempts := s.attempts - {id}), false)
    else
      var (db1, proceed) := if Terminal(s.db.rows[id]) then (s.db, true) else Abandon(s.db, id, s.db.rows[id].version);
      if !proceed || id !in db1.rows then (s.(db := db1), true)
      else
        var r := RecordCleanup(db1, id, db1.rows[id].version);
        (Shelf(if r.Some? then r.value else db1, s.attempts - {id}), r.None?)
  }

  /** Two versioned writes in a row come to the one row `Settled` names. */
  lemma VisitOneRow(s: Shelf, id: PublicationId)
    requires Shaped(s.db)
    ensures Visit(s, id).0 ==
            if id !in s.db.rows then s.(attempts := s.attempts - {id})
            else Shelf(s.db.(rows := s.db.rows[id := Settled(s.db, s.db.rows[id])]),
                       if Dead(s.db, id) then s.attempts - {id} else s.attempts)
  {
    if id in s.db.rows {
      var row := s.db.rows[id];
      assert RowShape(row);
      assert s.db.rows[id := row] == s.db.rows;
      if !Terminal(row) && Abandon(s.db, id, row.version).1 {
        var db1 := Abandon(s.db, id, row.version).0;
        assert db1.rows[id := Settled(s.db, row)] == s.db.rows[id := Settled(s.db, row)];
      }
    }
  }

  lemma VisitSweeps(s: Shelf, id: PublicationId)
    requires Shaped(s.db)
    ensures Visit(s, id).0 == Swept(s, {id})
  {
    VisitOneRow(s, id);
    assert (if id in s.db.rows then s.db.rows[id := Settled(s.db, s.db.rows[id])] else s.db.rows) == Swept(s, {id}).db.rows;
    assert (if Dead(s.db, id) then s.attempts - {id} else s.attempts) == Swept(s, {id}).attempts;
  }

  lemma SettledShape(db: Ledger, row: Row)
    requires RowShape(row) && (row.state.Finalized? ==> row.lease !in db.current)
    ensures RowShape(Settled(db, row)) && RowAdvances(row, Settled(db, row))
    ensures Settled(db, row).state.Finalized? <==> row.state.Finalized?
  {
  }

  /** A sweep deletes an object only if its record is then terminal or never existed; rows
      only advance. */
  lemma SweepIsSafe(s: Shelf, done: set<PublicationId>)
    requires Shaped(s.db)
    ensures var s' := Swept(s, done);
            && Shaped(s'.db) && Advances(s.db, s'.db) && s'.db.rows.Keys == s.db.rows.Keys
            && (forall id :: id in s.attempts && id !in s'.attempts ==> id in done && (id in s'.db.rows ==> Terminal(s'.db.rows[id])))
  {
    var s' := Swept(s, done);
    forall id | id in s.db.rows ensures RowShape(s'.db.rows[id]) && RowAdvances(s.db.rows[id], s'.db.rows[id])
      && (s'.db.rows[id].state.Finalized? <==> s.db.rows[id].state.Finalized?) {
      SettledShape(s.db, s.db.rows[id]);
    }
  }

  lemma SweptShaped(s: Shelf, done: set<PublicationId>)
    requires Shaped(s.db)
    ensures Shaped(Swept(s, done).db)
  {
    SweepIsSafe(s, done);
  }

  // --------------------------------------------------------------- what is in reach

  /** What the inventory is after: an old object whose key no record holds. */
  predicate Target(s: Shelf, before: Time, id: PublicationId) {
    id in s.attempts && s.attempts[id].created < before && (id in s.db.rows ==> s.db.rows[id].observed.None?)
  }

  /** Everything the first two queries can return before the sweep. */
  function Backlog(db: Ledger, before: Time, ended: set<Lease>): set<PublicationId> {
    Candidates(db, before).Keys + Orphans(db, before, ended).Keys
  }

  function Page(journal: seq<PublicationId>, cursor: nat, limit: nat): (page: seq<PublicationId>)
    ensures |page| <= limit
  {
    var start := Min(cursor, |journal|);
    journal[start..Min(start + limit, |journal|)]
  }

  function NextCursor(length: nat, cursor: nat, limit: nat): nat {
    if cursor + limit <= length then cursor + limit else 0
  }

  /** The cursor before the k-th inventory scan, over a journal that does not grow. */
  function CursorAt(length: nat, start: nat, rooms: nat -> nat, k: nat): nat {
    if k == 0 then start else NextCursor(length, CursorAt(length, start, rooms, k - 1), rooms(k - 1))
  }

  /** How far the scans still are from position p. */
  function Behind(length: nat, cursor: nat, p: nat): nat
    requires p < length
  {
    if cursor <= p then p - cursor else if cursor <= length then length - cursor + 1 + length else length
  }

  lemma {:induction false} ScanReaches(length: nat, start: nat, rooms: nat -> nat, p: nat, from: nat) returns (k: nat)
    requires p < length && forall j: nat :: rooms(j) > 0
    ensures from <= k <= from + Behind(length, CursorAt(length, start, rooms, from), p)
    ensures CursorAt(length, start, rooms, k) <= p < CursorAt(length, start, rooms, k) + rooms(k)
    decreases Behind(length, CursorAt(length, start, rooms, from), p)
  {
    var cursor := CursorAt(length, start, rooms, from);
    assert rooms(from) > 0;
    if cursor <= p < cursor + rooms(from) {
      k := from;
    } else {
      assert CursorAt(length, start, rooms, from + 1) == NextCursor(length, cursor, rooms(from));
      k := ScanReaches(length, start, rooms, p, from + 1);
    }
  }

  /** No part of the journal is passed over for good: from any cursor, sweeps that leave the
      inventory some room scan every position within twice the journal's length of sweeps. */
  lemma InventoryCovers(journal: seq<PublicationId>, start: nat, rooms: nat -> nat, p: nat)
    requires p < |journal| && forall j: nat :: rooms(j) > 0
    ensures exists k: nat :: k <= 2 * |journal| && journal[p] in Page(journal, CursorAt(|journal|, start, rooms, k), rooms(k))
  {
    var k := ScanReaches(|journal|, start, rooms, p, 0);
    var cursor := CursorAt(|journal|, start, rooms, k);
    assert Page(journal, cursor, rooms(k))[p - cursor] == journal[p];
  }

  // ------------------------------------------------------------- what a sweep counts

  /** The visited objects that are gone, and whose deletion no row had recorded before. */
  function CleanedOf(s: Shelf, done: set<PublicationId>): set<PublicationId> {
    set id | id in done && id in s.attempts && id !in Swept(s, done).attempts && (id in s.db.rows ==> !s.db.rows[id].cleaned)
  }

  lemma VisitRaisesIff(s: Shelf, id: PublicationId)
    requires Shaped(s.db)
    ensures Visit(s, id).1 <==> id in s.db.rows && (!Dead(s.db, id) || s.db.rows[id].cleaned)
  {
    if id in s.db.rows {
      assert RowShape(s.db.rows[id]);
    }
  }

  predicate Cleanable(s: Shelf, id: PublicationId) {
    id in s.attempts && Dead(s.db, id) && (id in s.db.rows ==> !s.db.rows[id].cleaned)
  }

  lemma CleanedAre(s: Shelf, done: set<PublicationId>)
    ensures CleanedOf(s, done) == set id | id in done && Cleanable(s, id)
  {
  }

  /** What was not visited yet is as it was. */
  lemma CountsWhen(s: Shelf, done: set<PublicationId>, id: PublicationId)
    requires Shaped(s.db) && id !in done
    ensures var s' := Swept(s, done); Cleanable(s, id) <==> id in s'.attempts && !Visit(s', id).1
  {
    SweepIsSafe(s, done);
    VisitRaisesIff(Swept(s, done), id);
  }

  lemma CleanedFurther(s: Shelf, done: set<PublicationId>, id: PublicationId)
    requires Shaped(s.db) && id !in done
    ensures var s' := Swept(s, done);
            |CleanedOf(s, done + {id})| == |CleanedOf(s, done)| + if id in s'.attempts && !Visit(s', id).1 then 1 else 0
  {
    CountsWhen(s, done, id);
    CleanedAre(s, done);
    CleanedAre(s, done + {id});
    if Cleanable(s, id) {
      assert CleanedOf(s, done + {id}) == CleanedOf(s, done) + {id};
    } else {
      assert CleanedOf(s, done + {id}) == CleanedOf(s, done);
    }
  }

  lemma CleanedTwice(s: Shelf, first: set<PublicationId>, second: set<PublicationId>)
    requires first !! second
    ensures |CleanedOf(s, first + second)| == |CleanedOf(s, first)| + |CleanedOf(Swept(s, first), second)|
  {
    var a, b := CleanedOf(s, first), CleanedOf(Swept(s, first), second);
    SweptTwice(s, first, second);
    assert a !! b && CleanedOf(s, first + second) == a + b;
  }

  /** As many as the limit allows. */
  predicate Picks(from: set<PublicationId>, picked: set<PublicationId>, limit: nat) {
    picked <= from && |picked| <= limit && (|picked| >= limit <==> |from| >= limit) && (|picked| < limit ==> picked == from)
  }

  lemma Contained(a: set<PublicationId>, b: set<PublicationId>)
    requires a <= b
    ensures |a| <= |b| && (|a| == |b| ==> a == b)
  {
    assert a + (b - a) == b;
  }

  /** Two limited queries in a row, as sets. */
  lemma TwoPicks(c: set<PublicationId>, o: set<PublicationId>, both: set<PublicationId>, limit: nat)
    requires |c| < limit && c <= both && both - c <= o - c
    requires |both - c| == Min(limit - |c|, |o - c|)
    ensures Picks(c + o, both, limit)
  {
    assert c + (both - c) == both && c + (o - c) == c + o;
    Contained(both - c, o - c);
  }

  /** Visited candidates leave both queries: their rows carry the sweep's own time. */
  lemma BacklogAfterFirst(s: Shelf, before: Time, ended: set<Lease>, first: set<PublicationId>)
    requires first <= Candidates(s.db, before).Keys && before <= s.db.now
    ensures Orphans(Swept(s, first).db, before, ended).Keys == Orphans(s.db, before, ended).Keys - first
  {
    var s' := Swept(s, first);
    forall id | id in s.db.rows
      ensures Orphan(s'.db.rows[id], before, ended) <==> Orphan(s.db.rows[id], before, ended) && id !in first
    {
    }
  }

  // -------------------------------------------------------------------- the sweep

  /** The loops of the first two stages over the queried records. */
  method VisitAll(s: Shelf, ids: seq<PublicationId>, earlier: set<PublicationId>)
    returns (s': Shelf, seen: set<PublicationId>, cleaned: nat, done: set<PublicationId>)
    requires Shaped(s.db)
    requires forall j, k :: 0 <= j < k < |ids| ==> ids[j] != ids[k]
    ensures s' == Swept(s, done) && seen == earlier + done
    ensures (forall id :: id in done <==> id in ids) && |done| == |ids| && cleaned == |CleanedOf(s, done)|
  {
    SweptNone(s);
    s', seen, cleaned, done := s, earlier, 0, {};
    var k := 0;
    while k < |ids|
      invariant 0 <= k <= |ids| && |done| == k && cleaned == |CleanedOf(s, done)| && seen == earlier + done
      invariant forall id :: id in done <==> id in ids[..k]
      invariant s' == Swept(s, done)
    {
      SweptFurther(s, done, ids[k]);
      CleanedFurther(s, done, ids[k]);
      var existed := ids[k] in s'.attempts;
      var (now, raised) := Visit(s', ids[k]);
      s', seen, done := now, seen + {ids[k]}, done + {ids[k]};
      cleaned := if existed && !raised then cleaned + 1 else cleaned;
      k := k + 1;
    }
  }

  /** First stage. */
  method SweepTerminal(s: Shelf, before: Time, limit: nat) returns (s': Shelf, seen: set<PublicationId>, cleaned: nat)
    requires Shaped(s.db)
    ensures s' == Swept(s, seen) && cleaned == |CleanedOf(s, seen)|
    ensures Earliest(Candidates(s.db, before), seen, limit)
  {
    var ids, picked := Query(Candidates(s.db, before), limit);
    var done;
    s', seen, cleaned, done := VisitAll(s, ids, {});
    assert done == picked && seen == picked;
  }

  /** Second stage. */
  method SweepOrphans(s: Shelf, before: Time, ended: set<Lease>, limit: nat, earlier: set<PublicationId>)
    returns (s': Shelf, seen: set<PublicationId>, cleaned: nat, done: set<PublicationId>)
    requires Shaped(s.db) && |earlier| <= limit
    ensures s' == Swept(s, done) && seen == earlier + done && cleaned == |CleanedOf(s, done)|
    ensures Earliest(Orphans(s.db, before, ended), done, limit - |earlier|)
  {
    var ids, picked := Query(Orphans(s.db, before, ended), limit - |earlier|);
    s', seen, cleaned, done := VisitAll(s, ids, earlier);
    assert done == picked;
  }

  /** Third stage: one page of the journal, resumed where the last one ended. */
  method SweepInventory(s: Shelf, journal: seq<PublicationId>, cursor: nat, before: Time, limit: nat, earlier: set<PublicationId>)
    returns (s': Shelf, next: nat, seen: set<PublicationId>, cleaned: nat, done: set<PublicationId>)
    requires Shaped(s.db) && |earlier| < limit
    ensures s' == Swept(s, done) && seen == earlier + done && |seen| <= limit && cleaned == |CleanedOf(s, done)|
    ensures done == OnPage(s, before, Page(journal, cursor, limit - |earlier|), earlier)
    ensures next == NextCursor(|journal|, cursor, limit - |earlier|)
  {
    var keys := Page(journal, cursor, limit - |earlier|);
    next := NextCursor(|journal|, cursor, limit - |earlier|);
    SweptNone(s);
    s', cleaned := s, 0;
    var visited := {};
    var k := 0;
    while k < |keys|
      invariant PageLoop(s, before, keys, earlier, k, visited, s') && cleaned == |CleanedOf(s, visited)|
    {
      PageStep(s, before, keys, earlier, k, visited, s');
      var id := keys[k];
      if Target(s, before, id) && id !in earlier && id !in visited {
        CleanedFurther(s, visited, id);
        var existed := id in s'.attempts;
        var (now, raised) := Visit(s', id);
        s', visited := now, visited + {id};
        cleaned := if existed && !raised then cleaned + 1 else cleaned;
      }
      k := k + 1;
    }
    PageEnds(s, before, keys, earlier, visited, s');
    seen, done := earlier + visited, visited;
  }

  /** The two stages driven by the ledger. */
  method SweepLedger(s: Shelf, before: Time, ended: set<Lease>, limit: nat)
    returns (s': Shelf, seen: set<PublicationId>, cleaned: nat)
    requires Shaped(s.db) && before <= s.db.now && limit > 0
    ensures s' == Swept(s, seen) && Shaped(s'.db) && cleaned == |CleanedOf(s, seen)|
    ensures Picks(Backlog(s.db, before, ended), seen, limit)
  {
    var first;
    s', first, cleaned := SweepTerminal(s, before, limit);
    seen := first;
    FirstPicks(s, before, ended, first, limit);
    if |first| < limit {
      SweptShaped(s, first);
      var done, more;
      s', seen, more, done := SweepOrphans(s', before, ended, limit, first);
      cleaned := cleaned + more;
      SecondPicks(s, before, ended, first, done, limit);
      CleanedTwice(s, first, done);
    }
    SweptShaped(s, seen);
  }

  /** One whole sweep. */
  method Sweep(s: Shelf, journal: seq<PublicationId>, cursor: nat, before: Time, ended: set<Lease>, limit: nat)
    returns (s': Shelf, next: nat, cleaned: nat, seen: set<PublicationId>, inventoried: bool)
    requires Shaped(s.db) && before <= s.db.now && limit > 0
    ensures s' == Swept(s, seen) && cleaned == |CleanedOf(s, seen)|
    ensures Visits(s, before, ended, journal, cursor, limit, seen, inventoried)
    ensures next == if inventoried then NextCursor(|journal|, cursor, limit - |Backlog(s.db, before, ended)|) else cursor
  {
    var s1, both, cleaned1 := SweepLedger(s, before, ended, limit);
    s', next, cleaned, seen, inventoried := s1, cursor, cleaned1, both, false;
    if |both| < limit {
      var all, more, done;
      s', next, all, more, done := SweepInventory(s1, journal, cursor, before, limit, both);
      SweepEnds(s, before, ended, journal, cursor, limit, both, done);
      CleanedTwice(s, both, done);
      cleaned, seen, inventoried := cleaned1 + more, all, true;
    } else {
      SweepStops(s, before, ended, journal, cursor, limit, both);
    }
  }

  /** Which records a sweep visits: at most `limit`.  The inventory is reached exactly when
      the backlog of the two queries leaves room for it, and then the whole backlog and
      all that the inventory page adds are visited. */
  ghost predicate Visits(s: Shelf, before: Time, ended: set<Lease>, journal: seq<PublicationId>, cursor: nat, limit: nat,
                         seen: set<PublicationId>, inventoried: bool) {
    && |seen| <= limit
    && (inventoried <==> |Backlog(s.db, before, ended)| < limit)
    && (!inventoried ==> seen <= Backlog(s.db, before, ended))
    && (inventoried ==> seen == Backlog(s.db, before, ended) + Found(s, before, ended, journal, cursor, limit))
  }

  ghost predicate PageLoop(s: Shelf, before: Time, page: seq<PublicationId>, earlier: set<PublicationId>, k: nat,
                           visited: set<PublicationId>, now: Shelf) {
    k <= |page| && |visited| <= k && visited == OnPage(s, before, page[..k], earlier) && Shaped(s.db) && now == Swept(s, visited)
  }

  lemma PageStep(s: Shelf, before: Time, page: seq<PublicationId>, earlier: set<PublicationId>, k: nat,
                 visited: set<PublicationId>, now: Shelf)
    requires k < |page| && PageLoop(s, before, page, earlier, k, visited, now)
    ensures if Target(s, before, page[k]) && page[k] !in earlier && page[k] !in visited
            then PageLoop(s, before, page, earlier, k + 1, visited + {page[k]}, Visit(now, page[k]).0)
            else PageLoop(s, before, page, earlier, k + 1, visited, now)
  {
    assert page[..k + 1] == page[..k] + [page[k]];
    var more := OnPage(s, before, page[..k + 1], earlier);
    if Target(s, before, page[k]) && page[k] !in earlier && page[k] !in visited {
      SweptFurther(s, visited, page[k]);
      assert more == visited + {page[k]};
    } else {
      assert more == visited;
    }
  }

  lemma PageEnds(s: Shelf, before: Time, page: seq<PublicationId>, earlier: set<PublicationId>, visited: set<PublicationId>, now: Shelf)
    requires PageLoop(s, before, page, earlier, |page|, visited, now)
    ensures visited == OnPage(s, before, page, earlier) && now == Swept(s, visited) && visited !! earlier && |visited| <= |page|
  {
    assert page[..|page|] == page;
  }

  /** The page's targets not visited earlier. */
  function OnPage(s: Shelf, before: Time, page: seq<PublicationId>, earlier: set<PublicationId>): set<PublicationId> {
    set id | id in page && id !in earlier && Target(s, before, id)
  }

  /** What the inventory page adds to the backlog. */
  function Found(s: Shelf, before: Time, ended: set<Lease>, journal: seq<PublicationId>, cursor: nat, limit: nat): set<PublicationId> {
    var backlog := Backlog(s.db, before, ended);
    if |backlog| >= limit then {} else OnPage(s, before, Page(journal, cursor, limit - |backlog|), backlog)
  }

  /** What the first stages did not visit is a target as before. */
  lemma TargetsPersist(s: Shelf, before: Time, page: seq<PublicationId>, seen: set<PublicationId>)
    ensures OnPage(Swept(s, seen), before, page, seen) == OnPage(s, before, page, seen)
    ensures OnPage(s, before, page, seen) !! seen
  {
    forall id | id !in seen ensures Target(Swept(s, seen), before, id) <==> Target(s, before, id) {
    }
  }

  lemma SweepStops(s: Shelf, before: Time, ended: set<Lease>, journal: seq<PublicationId>, cursor: nat, limit: nat, both: set<PublicationId>)
    requires Picks(Backlog(s.db, before, ended), both, limit) && |both| >= limit
    ensures Visits(s, before, ended, journal, cursor, limit, both, false)
  {
  }

  lemma SweepEnds(s: Shelf, before: Time, ended: set<Lease>, journal: seq<PublicationId>, cursor: nat, limit: nat,
                  both: set<PublicationId>, done: set<PublicationId>)
    requires Picks(Backlog(s.db, before, ended), both, limit) && |both| < limit && |both + done| <= limit
    requires done == OnPage(Swept(s, both), before, Page(journal, cursor, limit - |both|), both)
    ensures Swept(Swept(s, both), done) == Swept(s, both + done)
    ensures Visits(s, before, ended, journal, cursor, limit, both + done, true)
    ensures both == Backlog(s.db, before, ended) && both !! done
  {
    assert both == Backlog(s.db, before, ended);
    var page := Page(journal, cursor, limit - |both|);
    TargetsPersist(s, before, page, both);
    assert both !! done;
    SweptTwice(s, both, done);
    SweepVisits(s, before, ended, journal, cursor, limit, both, done);
  }

  lemma SweepVisits(s: Shelf, before: Time, ended: set<Lease>, journal: seq<PublicationId>, cursor: nat, limit: nat,
                    both: set<PublicationId>, done: set<PublicationId>)
    requires both == Backlog(s.db, before, ended) && |both| < limit && |both + done| <= limit
    requires done == OnPage(s, before, Page(journal, cursor, limit - |both|), both)
    ensures Visits(s, before, ended, journal, cursor, limit, both + done, true)
  {
    assert done == Found(s, before, ended, journal, cursor, limit);
  }

  lemma FirstPicks(s: Shelf, before: Time, ended: set<Lease>, first: set<PublicationId>, limit: nat)
    requires Earliest(Candidates(s.db, before), first, limit)
    ensures |first| >= limit ==> Picks(Backlog(s.db, before, ended), first, limit)
    ensures |first| < limit ==> first == Candidates(s.db, before).Keys
  {
    Contained(first, Candidates(s.db, before).Keys);
    Contained(first, Backlog(s.db, before, ended));
  }

  lemma SecondPicks(s: Shelf, before: Time, ended: set<Lease>, first: set<PublicationId>, done: set<PublicationId>, limit: nat)
    requires first == Candidates(s.db, before).Keys && |first| < limit && before <= s.db.now
    requires Earliest(Orphans(Swept(s, first).db, before, ended), done, limit - |first|)
    ensures Picks(Backlog(s.db, before, ended), first + done, limit)
    ensures Swept(Swept(s, first), done) == Swept(s, first + done) && first !! done
  {
    var orphans := Orphans(s.db, before, ended).Keys;
    BacklogAfterFirst(s, before, ended, first);
    assert done <= orphans - first && |done| == Min(limit - |first|, |orphans - first|);
    assert first + done - first == done;
    TwoPicks(first, orphans, first + done, limit);
    SweptTwice(s, first, done);
  }

  lemma SweptFurther(s: Shelf, done: set<PublicationId>, id: PublicationId)
    requires Shaped(s.db) && id !in done
    ensures Visit(Swept(s, done), id).0 == Swept(s, done + {id})
  {
    SweepIsSafe(s, done);
    VisitSweeps(Swept(s, done), id);
    SweptTwice(s, done, {id});
  }

  // ------------------------------------------------------- what no sweep ever reaches

  /** Failed records whose cleanup is already recorded, but whose rows the second query
      still returns. */
  function CleanedFailures(db: Ledger, before: Time): set<PublicationId> {
    set id | id in db.rows && CleanedFailure(db.rows[id], before)
  }

  predicate CleanedFailure(row: Row, before: Time) {
    (row.state.Rejected? || row.state.Abandoned?) && row.observed.Some? && row.cleaned && row.updatedAt < before
  }

  /** Starvation is permanent: `limit` old, long-cleaned failures fill every later sweep,
      so that none of them reaches the inventory again. */
  lemma CleanedFailuresStarveInventory(db: Ledger, before: Time, limit: nat, later: Shelf, before': Time, ended: set<Lease>,
                                       journal: seq<PublicationId>, cursor: nat, seen: set<PublicationId>, inventoried: bool)
    requires |CleanedFailures(db, before)| >= limit
    requires Advances(db, later.db) && before <= before'
    requires Visits(later, before', ended, journal, cursor, limit, seen, inventoried)
    ensures !inventoried
  {
    forall id | id in CleanedFailures(db, before) ensures id in Orphans(later.db, before', ended) {
      assert RowAdvances(db.rows[id], later.db.rows[id]);
    }
    Contained(CleanedFailures(db, before), Backlog(later.db, before', ended));
  }

  /** Some query of a sweep can return the record, or the inventory find its object. */
  predicate InReach(s: Shelf, before: Time, ended: set<Lease>, id: PublicationId) {
    id in Candidates(s.db, before) || id in Orphans(s.db, before, ended) || Target(s, before, id)
  }

  /** An old leftover of a terminal record is in reach unless the record is finalized and
      its cleanup already recorded; then it is out of reach for good. */
  lemma LeftoverInReachIff(s: Shelf, before: Time, ended: set<Lease>, id: PublicationId)
    requires Shaped(s.db) && id in s.db.rows && Terminal(s.db.rows[id]) && id in s.attempts
    requires s.attempts[id].created < before && s.db.rows[id].updatedAt < before && s.db.rows[id].terminalAt.value < before
    ensures InReach(s, before, ended, id) <==> !(s.db.rows[id].state.Finalized? && s.db.rows[id].cleaned)
  {
    assert RowShape(s.db.rows[id]);
  }

  /** No sweep, at whatever time and limit, removes such a leftover. */
  lemma FinalizedLeftoverStays(s: Shelf, before: Time, ended: set<Lease>, journal: seq<PublicationId>, cursor: nat, limit: nat,
                               seen: set<PublicationId>, inventoried: bool, id: PublicationId)
    requires Shaped(s.db) && id in s.db.rows && s.db.rows[id].state.Finalized? && s.db.rows[id].cleaned && id in s.attempts
    requires Visits(s, before, ended, journal, cursor, limit, seen, inventoried)
    ensures id in Swept(s, seen).attempts && Swept(s, seen).db.rows[id] == s.db.rows[id]
  {
    assert RowShape(s.db.rows[id]);
    assert id !in Backlog(s.db, before, ended);
    assert id !in Found(s, before, ended, journal, cursor, limit);
  }

  /** An object a stale worker wrote after its record was abandoned and cleaned is removed
      by the next sweep that reaches the inventory, if its key was recorded or is on the
      inventory page. */
  lemma AbandonedLeftoverIsSwept(s: Shelf, before: Time, ended: set<Lease>, journal: seq<PublicationId>, cursor: nat, limit: nat,
                                 seen: set<PublicationId>, id: PublicationId)
    requires Shaped(s.db) && id in s.db.rows && s.db.rows[id].state.Abandoned? && s.db.rows[id].cleaned && id in s.attempts
    requires s.attempts[id].created < before && s.db.rows[id].updatedAt < before
    requires Visits(s, before, ended, journal, cursor, limit, seen, true)
    requires s.db.rows[id].observed.Some? || id in Page(journal, cursor, limit - |Backlog(s.db, before, ended)|)
    ensures id !in Swept(s, seen).attempts
  {
    LeftoverIsSeen(s, before, ended, journal, cursor, limit, seen, id);
    assert Dead(s.db, id);
  }

  lemma LeftoverIsSeen(s: Shelf, before: Time, ended: set<Lease>, journal: seq<PublicationId>, cursor: nat, limit: nat,
                       seen: set<PublicationId>, id: PublicationId)
    requires Visits(s, before, ended, journal, cursor, limit, seen, true)
    requires if id in Orphans(s.db, before, ended) then true
             else Target(s, before, id) && id in Page(journal, cursor, limit - |Backlog(s.db, before, ended)|)
    ensures id in seen
  {
    var backlog := Backlog(s.db, before, ended);
    if id !in backlog {
      assert id in OnPage(s, before, Page(journal, cursor, limit - |backlog|), backlog);
    }
  }
}
