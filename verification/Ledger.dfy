/** The artifact publication ledger: versioned compare-and-swap transitions guarded by
    the current lease, the two-phase stale grace of abandonment, and finalization.
    A SHA-256 of an object is modelled as the object's bytes. */
module Ledger {
  import opened Common

  type PublicationId = nat
  /** A job attempt under one lease epoch. */
  type Lease = nat
  type Time = int

  const STALE_GRACE: Time := 300

  datatype Kind = OutputKind | ManifestKind
  datatype Spec = Spec(kind: Kind, maxSize: nat, expected: Option<Bytes>, expectedSize: Option<nat>)

  datatype RowState = Reserved | ObjectWritten | Validated | Finalized | Rejected | Abandoned

  datatype Row = Row(
    lease: Lease,
    spec: Spec,
    state: RowState,
    version: nat,
    observed: Option<Bytes>,
    staleSince: Option<Time>,
    terminalAt: Option<Time>,
    cleaned: bool,
    updatedAt: Time)

  /** `current` are the leases that are active, unexpired and uncancelled; `required` the
      artifact kinds each lease's job must produce. */
  datatype Ledger = Ledger(rows: map<PublicationId, Row>, current: set<Lease>, required: map<Lease, set<Kind>>, now: Time)

  predicate Terminal(row: Row) {
    row.state.Finalized? || row.state.Rejected? || row.state.Abandoned?
  }

  function Set(db: Ledger, id: PublicationId, row: Row): Ledger {
    db.(rows := db.rows[id := row.(version := row.version + 1, updatedAt := db.now)])
  }

  ghost predicate ReservedAs(db: Ledger, id: PublicationId, lease: Lease, kind: Kind) {
    id in db.rows && db.rows[id].lease == lease && db.rows[id].spec.kind == kind
  }

  predicate SameSlot(a: Row, b: Row) {
    a.lease == b.lease && a.spec.kind == b.spec.kind
  }

  /** At most one row per attempt and kind. */
  ghost predicate UniqueKinds(db: Ledger) {
    forall i, j :: i in db.rows && j in db.rows && SameSlot(db.rows[i], db.rows[j]) ==> i == j
  }

  /** `reserve`: a fresh row, or the one already reserved for this attempt and kind.
      None stands for an exception. */
  ghost function Reserve(db: Ledger, lease: Lease, spec: Spec, newId: PublicationId): Option<(Ledger, PublicationId)> {
    if lease !in db.current then None
    else if exists id :: ReservedAs(db, id, lease, spec.kind) then
      var id :| ReservedAs(db, id, lease, spec.kind);
      if db.rows[id].spec == spec then Some((db, id)) else None
    else Some((db.(rows := db.rows[newId := Row(lease, spec, Reserved, 0, None, None, None, false, db.now)]), newId))
  }

  /** The row a worker's compare-and-swap applies to. */
  predicate Swaps(db: Ledger, lease: Lease, id: PublicationId, version: nat) {
    lease in db.current && id in db.rows && db.rows[id].lease == lease && db.rows[id].version == version
  }

  function RecordObject(db: Ledger, lease: Lease, id: PublicationId, version: nat, content: Bytes): Option<Ledger> {
    if !Swaps(db, lease, id, version) || !db.rows[id].state.Reserved? || |content| > db.rows[id].spec.maxSize
       || !Matches(db.rows[id].spec, content) then None
    else Some(Set(db, id, db.rows[id].(state := ObjectWritten, observed := Some(content))))
  }

  predicate Matches(spec: Spec, content: Bytes) {
    && (spec.expected.Some? ==> spec.expected.value == content)
    && (spec.expectedSize.Some? ==> spec.expectedSize.value == |content|)
  }

  function RecordValidated(db: Ledger, lease: Lease, id: PublicationId, version: nat, blob: Bytes): Option<Ledger> {
    if !Swaps(db, lease, id, version) || !db.rows[id].state.ObjectWritten? || db.rows[id].observed != Some(blob) then None
    else Some(Set(db, id, db.rows[id].(state := Validated)))
  }

  /** A row already in stale grace cannot be rejected. */
  function Reject(db: Ledger, lease: Lease, id: PublicationId, version: nat): Option<Ledger> {
    if !Swaps(db, lease, id, version) || Terminal(db.rows[id]) || db.rows[id].staleSince.Some? then None
    else Some(Set(db, id, db.rows[id].(state := Rejected, terminalAt := Some(db.now))))
  }

  /** `abandon`: the first call on a stale row starts its grace period (and raises), a
      call after the grace period terminates the row. */
  function Abandon(db: Ledger, id: PublicationId, version: nat): (Ledger, bool) {
    if id !in db.rows || db.rows[id].version != version || Terminal(db.rows[id]) || db.rows[id].lease in db.current
    then (db, false)
    else
      var row := db.rows[id];
      if row.staleSince.None? then (Set(db, id, row.(staleSince := Some(db.now))), false)
      else if db.now < row.staleSince.value + STALE_GRACE then (db, false)
      else (Set(db, id, row.(state := Abandoned, terminalAt := Some(db.now))), true)
  }

  datatype Ref = Ref(id: PublicationId, version: nat)

  ghost predicate Finalizable(db: Ledger, lease: Lease, refs: seq<Ref>) {
    && lease in db.current && refs != []
    && (forall j, k :: 0 <= j < k < |refs| ==> refs[j].id != refs[k].id)
    && (forall k :: 0 <= k < |refs| ==> Swaps(db, lease, refs[k].id, refs[k].version)
                                        && db.rows[refs[k].id].state.Validated? && db.rows[refs[k].id].staleSince.None?)
    && lease in db.required && |refs| == |db.required[lease]|
    && (set k | 0 <= k < |refs| && refs[k].id in db.rows :: db.rows[refs[k].id].spec.kind) == db.required[lease]
  }

  ghost function Ids(refs: seq<Ref>): set<PublicationId> {
    set k | 0 <= k < |refs| :: refs[k].id
  }

  /** `finalize`: all rows at once, and the lease ends with its attempt. */
  ghost function Finalize(db: Ledger, lease: Lease, refs: seq<Ref>): Option<Ledger> {
    if !Finalizable(db, lease, refs) then None
    else Some(db.(rows := map id | id in db.rows :: if id in Ids(refs) then FinalRow(db.rows[id], db.now) else db.rows[id],
                  current := db.current - {lease}))
  }

  function FinalRow(row: Row, now: Time): Row {
    row.(state := Finalized, version := row.version + 1, terminalAt := Some(now), updatedAt := now)
  }

  function RecordCleanup(db: Ledger, id: PublicationId, version: nat): Option<Ledger> {
    if id !in db.rows || db.rows[id].version != version || !Terminal(db.rows[id]) || db.rows[id].cleaned then None
    else Some(Set(db, id, db.rows[id].(cleaned := true)))
  }

  // ----------------------------------------------------------- what every row obeys

  /** The table's CHECK constraints that the transitions must keep. */
  predicate RowShape(row: Row) {
    && (row.state.Reserved? ==> row.observed.None?)
    && (row.state.ObjectWritten? || row.state.Validated? || row.state.Finalized? ==> row.observed.Some?)
    && (row.observed.Some? ==> |row.observed.value| <= row.spec.maxSize && Matches(row.spec, row.observed.value))
    && (Terminal(row) <==> row.terminalAt.Some?)
    && (row.cleaned ==> Terminal(row))
    && (row.state.Finalized? || row.state.Rejected? ==> row.staleSince.None?)
    && (row.state.Abandoned? ==> row.staleSince.Some? && row.staleSince.value + STALE_GRACE <= row.terminalAt.value)
  }

  ghost predicate Shaped(db: Ledger) {
    && UniqueKinds(db)
    && (forall id :: id in db.rows ==> RowShape(db.rows[id]))
    && (forall id :: id in db.rows && db.rows[id].state.Finalized? ==> db.rows[id].lease !in db.current)
  }

  /** How a row may change: identity and evidence are immutable, a terminal row only
      gains its cleanup mark and then never changes, and equal versions mean an equal row. */
  predicate RowAdvances(a: Row, b: Row) {
    && a.lease == b.lease && a.spec == b.spec && a.version <= b.version
    && (a.observed.Some? ==> b.observed == a.observed)
    && (Terminal(a) ==> b.state == a.state && b.observed == a.observed && b.terminalAt == a.terminalAt)
    && (a.cleaned ==> b == a)
    && (a.version == b.version ==> a == b)
  }

  ghost predicate Advances(a: Ledger, b: Ledger) {
    forall id :: id in a.rows ==> id in b.rows && RowAdvances(a.rows[id], b.rows[id])
  }

  lemma ReserveAdvances(db: Ledger, lease: Lease, spec: Spec, newId: PublicationId)
    requires Shaped(db) && newId !in db.rows
    ensures var r := Reserve(db, lease, spec, newId);
            r.Some? ==> Advances(db, r.value.0) && Shaped(r.value.0) && r.value.0.current == db.current
                        && ReservedAs(r.value.0, r.value.1, lease, spec.kind)
                        && r.value.0.rows[r.value.1].spec == spec
                        && (r.value.0 == db || r.value.0.rows.Keys == db.rows.Keys + {newId})
  {
    var r := Reserve(db, lease, spec, newId);
    if r.Some? && r.value.0 != db {
      assert !(exists id :: ReservedAs(db, id, lease, spec.kind));
      forall i | i in db.rows && db.rows[i].lease == lease ensures db.rows[i].spec.kind != spec.kind {
        assert !ReservedAs(db, i, lease, spec.kind);
      }
    }
  }

  lemma SetAdvances(db: Ledger, id: PublicationId, row: Row)
    requires Shaped(db) && id in db.rows
    requires row.lease == db.rows[id].lease && row.spec == db.rows[id].spec && row.version == db.rows[id].version
    requires RowShape(row) && (row.state.Finalized? ==> db.rows[id].state.Finalized?)
    requires RowAdvances(db.rows[id], row.(version := row.version + 1))
    ensures Advances(db, Set(db, id, row)) && Shaped(Set(db, id, row)) && OneRow(db, Set(db, id, row), id)
  {
  }

  /** Only row `id` changes. */
  ghost predicate OneRow(a: Ledger, b: Ledger, id: PublicationId) {
    && b.current == a.current && b.rows.Keys == a.rows.Keys
    && (forall i :: i in a.rows && i != id ==> b.rows[i] == a.rows[i])
  }

  lemma RecordObjectAdvances(db: Ledger, lease: Lease, id: PublicationId, version: nat, content: Bytes)
    requires Shaped(db)
    ensures var r := RecordObject(db, lease, id, version, content); r.Some? ==> Advances(db, r.value) && Shaped(r.value) && OneRow(db, r.value, id)
    ensures var r := RecordObject(db, lease, id, version, content);
            r.Some? ==> lease in db.current && r.value.rows[id].state.ObjectWritten? && r.value.rows[id].observed == Some(content)
  {
    if RecordObject(db, lease, id, version, content).Some? {
      SetAdvances(db, id, db.rows[id].(state := ObjectWritten, observed := Some(content)));
    }
  }

  lemma RecordValidatedAdvances(db: Ledger, lease: Lease, id: PublicationId, version: nat, blob: Bytes)
    requires Shaped(db)
    ensures var r := RecordValidated(db, lease, id, version, blob); r.Some? ==> Advances(db, r.value) && Shaped(r.value) && OneRow(db, r.value, id)
    ensures var r := RecordValidated(db, lease, id, version, blob);
            r.Some? ==> lease in db.current && r.value.rows[id].state.Validated? && db.rows[id].observed == Some(blob)
  {
    if RecordValidated(db, lease, id, version, blob).Some? {
      SetAdvances(db, id, db.rows[id].(state := Validated));
    }
  }

  lemma RejectAdvances(db: Ledger, lease: Lease, id: PublicationId, version: nat)
    requires Shaped(db)
    ensures var r := Reject(db, lease, id, version); r.Some? ==> Advances(db, r.value) && Shaped(r.value) && OneRow(db, r.value, id)
    ensures var r := Reject(db, lease, id, version);
            r.Some? ==> lease in db.current && !Terminal(db.rows[id]) && r.value.rows[id].state.Rejected?
  {
    if Reject(db, lease, id, version).Some? {
      SetAdvances(db, id, db.rows[id].(state := Rejected, terminalAt := Some(db.now)));
    }
  }

  lemma AbandonAdvances(db: Ledger, id: PublicationId, version: nat)
    requires Shaped(db)
    ensures var r := Abandon(db, id, version); Advances(db, r.0) && Shaped(r.0) && OneRow(db, r.0, id)
    ensures var r := Abandon(db, id, version);
            && (r.0 != db ==> id in db.rows && db.rows[id].lease !in db.current && !Terminal(db.rows[id]))
            && (r.1 ==> r.0.rows[id].state.Abandoned? && db.rows[id].staleSince.Some? && db.rows[id].staleSince.value + STALE_GRACE <= db.now)
  {
    if Abandon(db, id, version).0 != db {
      var row := db.rows[id];
      if row.staleSince.None? {
        SetAdvances(db, id, row.(staleSince := Some(db.now)));
      } else {
        SetAdvances(db, id, row.(state := Abandoned, terminalAt := Some(db.now)));
      }
    }
  }

  /** And the transitions are open to those they are for: a lease holder at the current
      version records matching bytes, validates what was recorded and may reject a live row
      out of stale grace; a terminal row's cleanup is recorded once. */
  lemma TransitionsOpen(db: Ledger, lease: Lease, id: PublicationId, content: Bytes)
    requires Shaped(db) && id in db.rows
    ensures var row := db.rows[id];
            && (Swaps(db, lease, id, row.version) && row.state.Reserved? ==>
                  |content| <= row.spec.maxSize && Matches(row.spec, content) ==>
                  RecordObject(db, lease, id, row.version, content).Some?)
            && (Swaps(db, lease, id, row.version) && row.state.ObjectWritten? && row.observed == Some(content) ==>
                  RecordValidated(db, lease, id, row.version, content).Some?)
            && (Swaps(db, lease, id, row.version) && !Terminal(row) && row.staleSince.None? ==>
                  Reject(db, lease, id, row.version).Some?)
            && (RecordCleanup(db, id, row.version).Some? <==> Terminal(row) && !row.cleaned)
            && (Abandon(db, id, row.version).1 <==>
                  !Terminal(row) && row.lease !in db.current && row.staleSince.Some? && row.staleSince.value + STALE_GRACE <= db.now)
            && (!Terminal(row) && row.lease !in db.current && row.staleSince.None? ==>
                  Abandon(db, id, row.version).0.rows[id].staleSince == Some(db.now))
  {
  }

  lemma CleanupAdvances(db: Ledger, id: PublicationId, version: nat)
    requires Shaped(db)
    ensures var r := RecordCleanup(db, id, version); r.Some? ==> Advances(db, r.value) && Shaped(r.value) && OneRow(db, r.value, id)
  {
    if RecordCleanup(db, id, version).Some? {
      SetAdvances(db, id, db.rows[id].(cleaned := true));
    }
  }

  lemma FinalizeAdvances(db: Ledger, lease: Lease, refs: seq<Ref>)
    requires Shaped(db)
    ensures var r := Finalize(db, lease, refs);
            r.Some? ==>
              && Advances(db, r.value) && Shaped(r.value) && lease in db.current && lease !in r.value.current
              && forall id :: id in db.rows && r.value.rows[id] != db.rows[id] ==>
                   id in Ids(refs) && db.rows[id].state.Validated? && r.value.rows[id].state.Finalized?
  {
    if Finalizable(db, lease, refs) {
      forall id | id in Ids(refs) ensures id in db.rows && db.rows[id].state.Validated? && db.rows[id].lease == lease
                                          && db.rows[id].staleSince.None? {
        var k :| 0 <= k < |refs| && refs[k].id == id;
        assert Swaps(db, lease, refs[k].id, refs[k].version);
      }
    }
  }

  /** The row was not final in `a` and is in `b`. */
  predicate Turned(a: Ledger, b: Ledger, id: PublicationId) {
    id in a.rows && id in b.rows && !a.rows[id].state.Finalized? && b.rows[id].state.Finalized?
  }

  ghost predicate TurnedAs(a: Ledger, b: Ledger, id: PublicationId, lease: Lease, kind: Kind) {
    Turned(a, b, id) && a.rows[id].lease == lease && a.rows[id].spec.kind == kind
  }

  ghost function KindsOf(db: Ledger, refs: seq<Ref>): set<Kind> {
    set k | 0 <= k < |refs| && refs[k].id in db.rows :: db.rows[refs[k].id].spec.kind
  }

  /** A finalization that succeeds is complete: the rows it turns final are the lease's own,
      one of each required kind and none of another. */
  lemma FinalizeIsComplete(db: Ledger, lease: Lease, refs: seq<Ref>)
    requires Shaped(db)
    ensures var r := Finalize(db, lease, refs);
            r.Some? ==>
              && lease in db.required
              && (forall id :: Turned(db, r.value, id) ==> db.rows[id].lease == lease && db.rows[id].spec.kind in db.required[lease])
              && (forall kind :: kind in db.required[lease] ==> exists id :: TurnedAs(db, r.value, id, lease, kind))
              && (forall i, j :: Turned(db, r.value, i) && Turned(db, r.value, j) ==>
                    db.rows[i].spec.kind == db.rows[j].spec.kind ==> i == j)
  {
    var r := Finalize(db, lease, refs);
    if r.Some? {
      var kinds := KindsOf(db, refs);
      assert kinds == db.required[lease];
      forall id | Turned(db, r.value, id) ensures db.rows[id].lease == lease && db.rows[id].spec.kind in kinds {
        var k :| 0 <= k < |refs| && refs[k].id == id;
        assert Swaps(db, lease, refs[k].id, refs[k].version);
      }
      forall kind | kind in db.required[lease] ensures exists id :: TurnedAs(db, r.value, id, lease, kind) {
        var k :| 0 <= k < |refs| && refs[k].id in db.rows && db.rows[refs[k].id].spec.kind == kind;
        assert Swaps(db, lease, refs[k].id, refs[k].version) && refs[k].id in Ids(refs);
        assert TurnedAs(db, r.value, refs[k].id, lease, kind);
      }
      forall i, j | Turned(db, r.value, i) && Turned(db, r.value, j) && db.rows[i].spec.kind == db.rows[j].spec.kind
        ensures i == j
      {
        assert SameSlot(db.rows[i], db.rows[j]);
      }
    }
  }

  /** The rows handed over are current, validated and out of stale grace. */
  predicate Ready(db: Ledger, lease: Lease, ref: Ref) {
    Swaps(db, lease, ref.id, ref.version) && db.rows[ref.id].state.Validated? && db.rows[ref.id].staleSince.None?
  }

  lemma {:induction false} DistinctCount(kinds: seq<Kind>)
    requires forall j, k :: 0 <= j < k < |kinds| ==> kinds[j] != kinds[k]
    ensures |set kind | kind in kinds| == |kinds|
  {
    if kinds == [] {
      assert (set kind | kind in kinds) == {};
    } else {
      var n := |kinds| - 1;
      DistinctCount(kinds[..n]);
      assert (set kind | kind in kinds) == (set kind | kind in kinds[..n]) + {kinds[n]};
    }
  }

  /** Rows of one lease are of different kinds. */
  lemma DifferentKinds(db: Ledger, lease: Lease, a: Ref, b: Ref)
    requires UniqueKinds(db) && Ready(db, lease, a) && Ready(db, lease, b) && a.id != b.id
    ensures db.rows[a.id].spec.kind != db.rows[b.id].spec.kind
  {
    assert !SameSlot(db.rows[a.id], db.rows[b.id]);
  }

  lemma KindsCount(db: Ledger, lease: Lease, refs: seq<Ref>)
    requires UniqueKinds(db) && (forall k :: 0 <= k < |refs| ==> Ready(db, lease, refs[k]))
    requires forall j, k :: 0 <= j < k < |refs| ==> refs[j].id != refs[k].id
    ensures |KindsOf(db, refs)| == |refs|
  {
    var kinds := seq(|refs|, k requires 0 <= k < |refs| && Ready(db, lease, refs[k]) => db.rows[refs[k].id].spec.kind);
    forall j, k | 0 <= j < k < |refs| ensures kinds[j] != kinds[k] {
      DifferentKinds(db, lease, refs[j], refs[k]);
    }
    DistinctCount(kinds);
    SameKinds(db, lease, refs, kinds);
  }

  lemma SameKinds(db: Ledger, lease: Lease, refs: seq<Ref>, kinds: seq<Kind>)
    requires |kinds| == |refs| && forall k :: 0 <= k < |refs| ==> Ready(db, lease, refs[k]) && kinds[k] == db.rows[refs[k].id].spec.kind
    ensures KindsOf(db, refs) == set kind | kind in kinds
  {
    forall kind | kind in kinds ensures kind in KindsOf(db, refs) {
      var k :| 0 <= k < |kinds| && kinds[k] == kind;
      assert refs[k].id in db.rows && db.rows[refs[k].id].spec.kind == kind;
    }
  }

  /** And a complete one succeeds: current lease, rows that are ready, each once, together of
      every required kind and no other. */
  lemma CompleteSetFinalizes(db: Ledger, lease: Lease, refs: seq<Ref>)
    requires Shaped(db) && lease in db.current && lease in db.required && refs != []
    requires forall j, k :: 0 <= j < k < |refs| ==> refs[j].id != refs[k].id
    requires forall k :: 0 <= k < |refs| ==> Ready(db, lease, refs[k]) && db.rows[refs[k].id].spec.kind in db.required[lease]
    requires forall kind :: kind in db.required[lease] ==>
               exists k :: 0 <= k < |refs| && refs[k].id in db.rows && db.rows[refs[k].id].spec.kind == kind
    ensures Finalize(db, lease, refs).Some?
  {
    KindsCount(db, lease, refs);
    assert KindsOf(db, refs) == db.required[lease];
    forall k | 0 <= k < |refs|
      ensures Swaps(db, lease, refs[k].id, refs[k].version) && db.rows[refs[k].id].state.Validated?
              && db.rows[refs[k].id].staleSince.None?
    {
      assert Ready(db, lease, refs[k]);
    }
  }
}
