/** Runs that fill the sweeps for good: any number of attempts that write their object and
    lose their lease, each abandoned and cleaned by the sweeper, leave as many records
    whose rows every later sweep returns again. */
module PublicationStarvation {
  import opened Common
  import opened Table = Ledger
  import opened PublicationRuns
  import OrphanSweep

  const Output: Spec := Spec(OutputKind, 10, None, None)
  const Content: Bytes := [7]
  const Sweeping: Agent := 0
  const Start: World := World(Ledger(map[], {}, map[], 0), map[], {}, {}, {}, map[], map[])

  /** Attempt n: record, lease and thread are all numbered n. */
  function Attempt(n: nat): seq<Op> {
    [StartLease(n, {OutputKind}), StartWorker(n, n, [Output]), ReserveOrFinalize(n, n), Write(n, Content), RecordWritten(n)]
  }

  function Sweeps(n: nat): seq<Op> {
    [ExpireLease(n), TakeStale(Sweeping, n), Tick(STALE_GRACE), TakeStale(Sweeping, n),
     SweepDelete(Sweeping), SweepRecord(Sweeping), Tick(1)]
  }

  function WithAttempt(ops: seq<Op>, n: nat): seq<Op> {
    ops + Attempt(n) + Sweeps(n)
  }

  function Attempts(n: nat): seq<Op> {
    if n == 0 then [] else WithAttempt(Attempts(n - 1), n - 1)
  }

  /** Everything so far is numbered below n, and each of the n records is a cleaned
      failure. */
  ghost predicate AllCleaned(w: World, n: nat) {
    && (forall id: nat :: id in w.db.rows <==> id < n)
    && (forall id :: id in w.db.rows ==> w.db.rows[id].lease == id && OrphanSweep.CleanedFailure(w.db.rows[id], w.db.now))
    && Below(w, n)
  }

  ghost predicate Below(w: World, n: nat) {
    && (forall i :: i in w.issued ==> i < n) && (forall i :: i in w.minted ==> i < n)
    && (forall i :: i in w.workers ==> i < n) && (forall i :: i in w.attempts ==> i < n)
  }

  /** Since `before`, only attempt n has been at work. */
  ghost predicate Only(before: World, w: World, n: nat) {
    && before.db.now <= w.db.now
    && (forall id: nat :: id in w.db.rows <==> id in before.db.rows || id == n)
    && (forall id :: id in before.db.rows && id != n ==> w.db.rows[id] == before.db.rows[id])
    && Below(w, n + 1)
  }

  ghost predicate Row(w: World, n: nat, state: RowState, version: nat, stale: Option<Time>) {
    && n in w.db.rows && w.db.rows[n].lease == n && w.db.rows[n].state == state && w.db.rows[n].version == version
    && w.db.rows[n].observed == Some(Content) && w.db.rows[n].staleSince == stale && !w.db.rows[n].cleaned
  }

  /** Thread n holds its freshly reserved record. */
  ghost predicate Holds(w: World, n: nat) {
    && n in w.db.current && n !in w.attempts
    && n in w.workers && w.workers[n] == Worker(n, [Output], [], Writing(n, 0))
    && n in w.db.rows && w.db.rows[n] == Table.Row(n, Output, Reserved, 0, None, None, None, false, w.db.now)
  }

  lemma StartClean()
    ensures AllCleaned(Start, 0)
  {
    assert Start.db.rows == map[] && Start.issued == {} && Start.minted == {};
    assert Start.workers == map[] && Start.attempts == map[];
  }

  lemma Starts(before: World, accepts: Bytes -> bool, n: nat)
    requires AllCleaned(before, n)
    ensures var w := Step(Step(before, accepts, Attempt(n)[0]), accepts, Attempt(n)[1]);
            && w.db.rows == before.db.rows && w.db.now == before.db.now && Below(w, n + 1) && n in w.db.current
            && w.minted == before.minted && w.attempts == before.attempts
            && n in w.workers && w.workers[n] == Worker(n, [Output], [], Reserving)
  {
  }

  lemma Reserves(before: World, w: World, accepts: Bytes -> bool, n: nat)
    requires AllCleaned(before, n)
    requires w.db.rows == before.db.rows && w.db.now == before.db.now && Below(w, n + 1) && n in w.db.current
    requires w.minted == before.minted && w.attempts == before.attempts
    requires n in w.workers && w.workers[n] == Worker(n, [Output], [], Reserving)
    ensures var w' := Step(w, accepts, Attempt(n)[2]);
            Only(before, w', n) && Holds(w', n)
  {
    forall id ensures !ReservedAs(w.db, id, n, OutputKind) {
    }
  }

  lemma Writes(before: World, w: World, accepts: Bytes -> bool, n: nat)
    requires Only(before, w, n) && Holds(w, n)
    ensures var w' := Step(Step(w, accepts, Attempt(n)[3]), accepts, Attempt(n)[4]);
            Only(before, w', n) && Row(w', n, ObjectWritten, 1, None)
  {
  }

  lemma Expires(before: World, w: World, accepts: Bytes -> bool, n: nat)
    requires Only(before, w, n) && Row(w, n, ObjectWritten, 1, None)
    ensures var w' := Step(w, accepts, Sweeps(n)[0]);
            Only(before, w', n) && Row(w', n, ObjectWritten, 1, None) && n !in w'.db.current
  {
  }

  lemma Stales(before: World, w: World, accepts: Bytes -> bool, n: nat)
    requires Only(before, w, n) && Row(w, n, ObjectWritten, 1, None) && n !in w.db.current
    ensures var w' := Step(w, accepts, Sweeps(n)[1]);
            Only(before, w', n) && Row(w', n, ObjectWritten, 2, Some(w'.db.now)) && n !in w'.db.current
  {
  }

  lemma Abandons(before: World, w: World, accepts: Bytes -> bool, n: nat)
    requires Only(before, w, n) && Row(w, n, ObjectWritten, 2, Some(w.db.now)) && n !in w.db.current
    ensures var w' := Step(Step(w, accepts, Sweeps(n)[2]), accepts, Sweeps(n)[3]);
            && Only(before, w', n) && n in w'.db.rows && Row(w', n, Abandoned, 3, w'.db.rows[n].staleSince)
            && Sweeping in w'.sweepers && w'.sweepers[Sweeping] == Deleting(n, 3)
  {
  }

  lemma Deletes(before: World, w: World, accepts: Bytes -> bool, n: nat)
    requires Only(before, w, n) && n in w.db.rows && Row(w, n, Abandoned, 3, w.db.rows[n].staleSince)
    requires Sweeping in w.sweepers && w.sweepers[Sweeping] == Deleting(n, 3)
    ensures var w' := Step(w, accepts, Sweeps(n)[4]);
            && Only(before, w', n) && n in w'.db.rows && Row(w', n, Abandoned, 3, w'.db.rows[n].staleSince)
            && Sweeping in w'.sweepers && w'.sweepers[Sweeping] == Deleted(n, 3)
  {
  }

  lemma Cleans(before: World, w: World, accepts: Bytes -> bool, n: nat)
    requires AllCleaned(before, n) && Only(before, w, n) && n in w.db.rows && Row(w, n, Abandoned, 3, w.db.rows[n].staleSince)
    requires Sweeping in w.sweepers && w.sweepers[Sweeping] == Deleted(n, 3)
    ensures AllCleaned(Step(Step(w, accepts, Sweeps(n)[5]), accepts, Sweeps(n)[6]), n + 1)
  {
  }

  lemma Two(w: World, accepts: Bytes -> bool, ops: seq<Op>, a: Op, b: Op)
    ensures After(w, accepts, ops + [a, b]) == Step(Step(After(w, accepts, ops), accepts, a), accepts, b)
  {
    assert (ops + [a, b])[..|ops| + 1] == ops + [a];
    assert (ops + [a])[..|ops|] == ops;
  }

  lemma Three(w: World, accepts: Bytes -> bool, ops: seq<Op>, a: Op, b: Op, c: Op)
    ensures After(w, accepts, ops + [a, b, c]) == Step(Step(Step(After(w, accepts, ops), accepts, a), accepts, b), accepts, c)
  {
    assert (ops + [a, b, c])[..|ops| + 2] == ops + [a, b];
    Two(w, accepts, ops, a, b);
  }

  lemma OneMoreReserved(accepts: Bytes -> bool, ops: seq<Op>, n: nat)
    requires AllCleaned(After(Start, accepts, ops), n)
    ensures var w := After(Start, accepts, ops + Attempt(n)[..3]); Only(After(Start, accepts, ops), w, n) && Holds(w, n)
  {
    var before, more := After(Start, accepts, ops), Attempt(n);
    assert more[..3] == [more[0], more[1], more[2]];
    Three(Start, accepts, ops, more[0], more[1], more[2]);
    Starts(before, accepts, n);
    Reserves(before, Step(Step(before, accepts, more[0]), accepts, more[1]), accepts, n);
  }

  lemma OneMoreWrite(accepts: Bytes -> bool, ops: seq<Op>, n: nat, before: World)
    requires Only(before, After(Start, accepts, ops), n) && Holds(After(Start, accepts, ops), n)
    ensures var w := After(Start, accepts, ops + Attempt(n)[3..]); Only(before, w, n) && Row(w, n, ObjectWritten, 1, None)
  {
    var more := Attempt(n);
    assert more[3..] == [more[3], more[4]];
    Two(Start, accepts, ops, more[3], more[4]);
    Writes(before, After(Start, accepts, ops), accepts, n);
  }

  lemma OneMoreStale(accepts: Bytes -> bool, ops: seq<Op>, n: nat, before: World)
    requires Only(before, After(Start, accepts, ops), n) && Row(After(Start, accepts, ops), n, ObjectWritten, 1, None)
    ensures var w := After(Start, accepts, ops + Sweeps(n)[..2]);
            Only(before, w, n) && Row(w, n, ObjectWritten, 2, Some(w.db.now)) && n !in w.db.current
  {
    var more := Sweeps(n);
    assert more[..2] == [more[0], more[1]];
    Two(Start, accepts, ops, more[0], more[1]);
    Expires(before, After(Start, accepts, ops), accepts, n);
    Stales(before, Step(After(Start, accepts, ops), accepts, more[0]), accepts, n);
  }

  lemma OneMoreAbandoned(accepts: Bytes -> bool, ops: seq<Op>, n: nat, before: World)
    requires var w := After(Start, accepts, ops);
             Only(before, w, n) && Row(w, n, ObjectWritten, 2, Some(w.db.now)) && n !in w.db.current
    ensures var w := After(Start, accepts, ops + Sweeps(n)[2..4]);
            && Only(before, w, n) && n in w.db.rows && Row(w, n, Abandoned, 3, w.db.rows[n].staleSince)
            && Sweeping in w.sweepers && w.sweepers[Sweeping] == Deleting(n, 3)
  {
    var more := Sweeps(n);
    assert more[2..4] == [more[2], more[3]];
    Two(Start, accepts, ops, more[2], more[3]);
    Abandons(before, After(Start, accepts, ops), accepts, n);
  }

  lemma OneMoreClean(accepts: Bytes -> bool, ops: seq<Op>, n: nat, before: World)
    requires AllCleaned(before, n) && Only(before, After(Start, accepts, ops), n)
    requires var w := After(Start, accepts, ops);
             && n in w.db.rows && Row(w, n, Abandoned, 3, w.db.rows[n].staleSince)
             && Sweeping in w.sweepers && w.sweepers[Sweeping] == Deleting(n, 3)
    ensures AllCleaned(After(Start, accepts, ops + Sweeps(n)[4..]), n + 1)
  {
    var more := Sweeps(n);
    assert more[4..] == [more[4], more[5], more[6]];
    Three(Start, accepts, ops, more[4], more[5], more[6]);
    Deletes(before, After(Start, accepts, ops), accepts, n);
    Cleans(before, Step(After(Start, accepts, ops), accepts, more[4]), accepts, n);
  }

  lemma OneMoreRecorded(accepts: Bytes -> bool, ops: seq<Op>, n: nat)
    requires AllCleaned(After(Start, accepts, ops), n)
    ensures var w := After(Start, accepts, ops + Attempt(n));
            Only(After(Start, accepts, ops), w, n) && Row(w, n, ObjectWritten, 1, None)
  {
    OneMoreReserved(accepts, ops, n);
    OneMoreWrite(accepts, ops + Attempt(n)[..3], n, After(Start, accepts, ops));
    assert ops + Attempt(n) == ops + Attempt(n)[..3] + Attempt(n)[3..];
  }

  lemma OneMoreGone(accepts: Bytes -> bool, ops: seq<Op>, n: nat, before: World)
    requires Only(before, After(Start, accepts, ops), n) && Row(After(Start, accepts, ops), n, ObjectWritten, 1, None)
    ensures var w := After(Start, accepts, ops + Sweeps(n)[..4]);
            && Only(before, w, n) && n in w.db.rows && Row(w, n, Abandoned, 3, w.db.rows[n].staleSince)
            && Sweeping in w.sweepers && w.sweepers[Sweeping] == Deleting(n, 3)
  {
    OneMoreStale(accepts, ops, n, before);
    OneMoreAbandoned(accepts, ops + Sweeps(n)[..2], n, before);
    assert ops + Sweeps(n)[..4] == ops + Sweeps(n)[..2] + Sweeps(n)[2..4];
  }

  lemma OneMoreSwept(accepts: Bytes -> bool, ops: seq<Op>, n: nat, before: World)
    requires AllCleaned(before, n)
    requires Only(before, After(Start, accepts, ops), n) && Row(After(Start, accepts, ops), n, ObjectWritten, 1, None)
    ensures AllCleaned(After(Start, accepts, ops + Sweeps(n)), n + 1)
  {
    OneMoreGone(accepts, ops, n, before);
    OneMoreClean(accepts, ops + Sweeps(n)[..4], n, before);
    assert ops + Sweeps(n) == ops + Sweeps(n)[..4] + Sweeps(n)[4..];
  }

  lemma OneMoreAttempt(accepts: Bytes -> bool, ops: seq<Op>, n: nat)
    requires AllCleaned(After(Start, accepts, ops), n)
    ensures AllCleaned(After(Start, accepts, WithAttempt(ops, n)), n + 1)
  {
    OneMoreRecorded(accepts, ops, n);
    OneMoreSwept(accepts, ops + Attempt(n), n, After(Start, accepts, ops));
  }

  lemma NoneYet(accepts: Bytes -> bool)
    ensures AllCleaned(After(Start, accepts, Attempts(0)), 0)
  {
    StartClean();
    assert Attempts(0) == [];
    assert After(Start, accepts, []) == Start;
  }

  lemma {:induction false} AttemptsClean(accepts: Bytes -> bool, n: nat)
    ensures AllCleaned(After(Start, accepts, Attempts(n)), n)
  {
    if n == 0 {
      NoneYet(accepts);
    } else {
      AttemptsClean(accepts, n - 1);
      OneMoreAttempt(accepts, Attempts(n - 1), n - 1);
    }
  }

  lemma {:induction false} CountBelow(ids: set<PublicationId>, n: nat)
    requires forall id: nat :: id in ids <==> id < n
    ensures |ids| == n
  {
    if n > 0 {
      CountBelow(ids - {n - 1}, n - 1);
    }
  }

  /** For every limit a run from the empty ledger ends with that many cleaned failures, and
      no sweep with that limit, at any later ledger, reaches the inventory. */
  lemma StarvationIsReachable(accepts: Bytes -> bool, limit: nat, later: OrphanSweep.Shelf, before: Time, ended: set<Lease>,
                              journal: seq<PublicationId>, cursor: nat, seen: set<PublicationId>, inventoried: bool)
    ensures Initial(Start)
    ensures var db := After(Start, accepts, Attempts(limit)).db;
            && |OrphanSweep.CleanedFailures(db, db.now)| == limit
            && (Advances(db, later.db) && db.now <= before ==>
                  OrphanSweep.Visits(later, before, ended, journal, cursor, limit, seen, inventoried) ==> !inventoried)
  {
    AttemptsClean(accepts, limit);
    var db := After(Start, accepts, Attempts(limit)).db;
    var ids := OrphanSweep.CleanedFailures(db, db.now);
    CountBelow(ids, limit);
    if Advances(db, later.db) && db.now <= before
       && OrphanSweep.Visits(later, before, ended, journal, cursor, limit, seen, inventoried) {
      OrphanSweep.CleanedFailuresStarveInventory(db, db.now, limit, later, before, ended, journal, cursor, seen, inventoried);
    }
  }
}
