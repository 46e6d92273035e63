/** What every interleaving of publication keeps. */
module PublicationSafety {
  import opened Common
  import opened Ledger
  import opened PublicationRuns

  predicate Live(db: Ledger, id: PublicationId) {
    id in db.rows && !Terminal(db.rows[id])
  }

  /** A validated or finalized row's evidence is in the canonical store and was accepted
      by the validator; a live row's object is the one it recorded. */
  ghost predicate Backed(w: World, accepts: Bytes -> bool, id: PublicationId)
    requires id in w.db.rows
  {
    var row := w.db.rows[id];
    && (row.state.Validated? || row.state.Finalized? ==>
          row.observed.Some? && row.observed.value in w.canonical && accepts(row.observed.value))
    && (!Terminal(row) && row.observed.Some? ==> id in w.attempts && w.attempts[id] == row.observed.value)
  }

  /** The row was in `state` at `version`, and still is unless its version moved on. */
  predicate Seen(db: Ledger, lease: Lease, id: PublicationId, version: nat, state: RowState) {
    id in db.rows && db.rows[id].lease == lease && version <= db.rows[id].version
    && (db.rows[id].version == version ==> db.rows[id].state == state)
  }

  predicate SeenWith(db: Ledger, lease: Lease, id: PublicationId, version: nat, state: RowState, content: Bytes) {
    Seen(db, lease, id, version, state) && db.rows[id].observed == Some(content)
  }

  ghost predicate PcHolds(w: World, accepts: Bytes -> bool, lease: Lease, pc: Pc) {
    match pc
    case Writing(id, v) => Seen(w.db, lease, id, v, Reserved)
    case Written(id, v, c) =>
      Seen(w.db, lease, id, v, Reserved) && |c| <= w.db.rows[id].spec.maxSize
      && (Live(w.db, id) ==> id in w.attempts && w.attempts[id] == c)
    case Validating(id, v, o) => SeenWith(w.db, lease, id, v, ObjectWritten, o)
    case Promoting(id, v, o) => SeenWith(w.db, lease, id, v, ObjectWritten, o) && accepts(o)
    case Promoted(id, v, o) => SeenWith(w.db, lease, id, v, ObjectWritten, o) && accepts(o) && o in w.canonical
    case Verifying(id, v, o) => SeenWith(w.db, lease, id, v, Validated, o)
    case Rejecting(id, v) => id in w.db.rows
    case _ => true
  }

  /** Records handed to finalization: seen validated, canonical bytes re-hashed. */
  ghost predicate Verified(w: World, lease: Lease, ref: Ref) {
    && Seen(w.db, lease, ref.id, ref.version, Validated)
    && w.db.rows[ref.id].observed.Some? && w.db.rows[ref.id].observed.value in w.canonical
  }

  ghost predicate WorkerHolds(w: World, accepts: Bytes -> bool, t: Worker) {
    && PcHolds(w, accepts, t.lease, t.pc)
    && (forall k :: 0 <= k < |t.done| ==> Verified(w, t.lease, t.done[k]))
    && (t.pc.Cleaning? || t.pc.Cleaned? ==>
          forall k :: 0 <= k < |t.done| ==> t.done[k].id in w.db.rows && w.db.rows[t.done[k].id].state.Finalized?)
  }

  ghost predicate SweeperHolds(w: World, s: Sweeper) {
    match s
    case Idle => true
    case Deleting(id, v) => id in w.db.rows && Terminal(w.db.rows[id])
    case Deleted(id, v) => id in w.db.rows && Terminal(w.db.rows[id])
    case DeletingUnknown(id) => id !in w.db.rows && id in w.minted
  }

  ghost predicate Invariant(w: World, accepts: Bytes -> bool) {
    && Shaped(w.db) && w.db.current <= w.issued
    && w.db.rows.Keys <= w.minted && w.attempts.Keys <= w.minted
    && (forall id :: id in w.db.rows ==> w.db.rows[id].lease in w.issued)
    && (forall id :: id in w.db.rows ==> Backed(w, accepts, id))
    && (forall a :: a in w.workers ==> w.workers[a].lease in w.issued && WorkerHolds(w, accepts, w.workers[a]))
    && (forall s :: s in w.sweepers ==> SweeperHolds(w, w.sweepers[s]))
  }

  // -------------------------------------------------------------- how the world moves

  /** Rows advance, canonical objects stay, new rows take unused ids, and the objects of
      live rows are neither replaced nor removed. */
  ghost predicate Moves(w: World, w': World) {
    && Advances(w.db, w'.db) && w.canonical <= w'.canonical && w.minted <= w'.minted && w.issued <= w'.issued
    && (forall id :: id in w'.db.rows && id !in w.db.rows ==> id !in w.minted)
    && (forall id :: id in w.attempts && Live(w.db, id) ==> id in w'.attempts && w'.attempts[id] == w.attempts[id])
  }

  lemma PcStable(w: World, w': World, accepts: Bytes -> bool, lease: Lease, pc: Pc)
    requires Moves(w, w') && PcHolds(w, accepts, lease, pc)
    ensures PcHolds(w', accepts, lease, pc)
  {
  }

  lemma WorkerStable(w: World, w': World, accepts: Bytes -> bool, t: Worker)
    requires Moves(w, w') && WorkerHolds(w, accepts, t)
    ensures WorkerHolds(w', accepts, t)
  {
    PcStable(w, w', accepts, t.lease, t.pc);
    forall k | 0 <= k < |t.done| ensures Verified(w', t.lease, t.done[k]) {
      assert Verified(w, t.lease, t.done[k]);
    }
  }

  lemma SweeperStable(w: World, w': World, s: Sweeper)
    requires Moves(w, w') && SweeperHolds(w, s)
    ensures SweeperHolds(w', s)
  {
  }

  /** Everything but the agent that moved. */
  ghost predicate Frame(w: World, w': World, accepts: Bytes -> bool) {
    && Moves(w, w')
    && Shaped(w'.db) && w'.db.current <= w'.issued
    && w'.db.rows.Keys <= w'.minted && w'.attempts.Keys <= w'.minted
    && (forall id :: id in w'.db.rows ==> w'.db.rows[id].lease in w'.issued)
    && (forall id :: id in w'.db.rows ==> Backed(w', accepts, id))
  }

  lemma WorkerMoves(w: World, w': World, accepts: Bytes -> bool, agent: Agent, t: Worker)
    requires Invariant(w, accepts) && Frame(w, w', accepts)
    requires w'.workers == w.workers[agent := t] && w'.sweepers == w.sweepers
    requires t.lease in w'.issued && WorkerHolds(w', accepts, t)
    ensures Invariant(w', accepts)
  {
    forall a | a in w'.workers ensures w'.workers[a].lease in w'.issued && WorkerHolds(w', accepts, w'.workers[a]) {
      if a != agent {
        WorkerStable(w, w', accepts, w.workers[a]);
      }
    }
    forall s | s in w'.sweepers ensures SweeperHolds(w', w'.sweepers[s]) {
      SweeperStable(w, w', w.sweepers[s]);
    }
  }

  lemma SweeperMoves(w: World, w': World, accepts: Bytes -> bool)
    requires Invariant(w, accepts) && Frame(w, w', accepts) && w'.workers == w.workers
    requires forall s :: s in w'.sweepers ==> (s in w.sweepers && w'.sweepers[s] == w.sweepers[s]) || SweeperHolds(w', w'.sweepers[s])
    ensures Invariant(w', accepts)
  {
    forall a | a in w'.workers ensures w'.workers[a].lease in w'.issued && WorkerHolds(w', accepts, w'.workers[a]) {
      WorkerStable(w, w', accepts, w.workers[a]);
    }
    forall s | s in w'.sweepers ensures SweeperHolds(w', w'.sweepers[s]) {
      if s in w.sweepers && w'.sweepers[s] == w.sweepers[s] {
        SweeperStable(w, w', w.sweepers[s]);
      }
    }
  }

  ghost predicate Keeps(w: World, w': World, accepts: Bytes -> bool) {
    Invariant(w', accepts) && Moves(w, w')
  }

  predicate Clean(w: World, t: Worker) {
    forall k :: 0 <= k < |t.done| ==> t.done[k].id in w.db.rows && w.db.rows[t.done[k].id].state.Finalized?
  }

  /** One thread moves to `pc`, whatever else its step did. */
  lemma AgentStep(w: World, w': World, accepts: Bytes -> bool, agent: Agent, pc: Pc)
    requires Invariant(w, accepts) && Frame(w, w', accepts) && agent in w.workers
    requires w'.workers == w.workers[agent := w.workers[agent].(pc := pc)] && w'.sweepers == w.sweepers
    requires PcHolds(w', accepts, w.workers[agent].lease, pc)
    requires pc.Cleaning? || pc.Cleaned? ==> Clean(w', w.workers[agent])
    ensures Keeps(w, w', accepts)
  {
    var t := w.workers[agent];
    WorkerStable(w, w', accepts, t);
    WorkerMoves(w, w', accepts, agent, t.(pc := pc));
  }

  // ----------------------------------------------------------- steps with no ledger write

  /** Only the agent changes. */
  lemma Stays(w: World, accepts: Bytes -> bool, agent: Agent, t: Worker)
    requires Invariant(w, accepts) && t.lease in w.issued && WorkerHolds(w, accepts, t)
    ensures Keeps(w, w.(workers := w.workers[agent := t]), accepts)
  {
    WorkerMoves(w, w.(workers := w.workers[agent := t]), accepts, agent, t);
  }

  lemma ObjectFrame(w: World, w': World, accepts: Bytes -> bool, id: PublicationId, content: Bytes)
    requires Invariant(w, accepts) && id in w.minted && (id in w.attempts ==> w.attempts[id] == content)
    requires w'.db == w.db && w'.canonical == w.canonical && w'.minted == w.minted && w'.issued == w.issued
    requires w'.attempts == w.attempts[id := content]
    ensures Frame(w, w', accepts)
  {
    forall i | i in w'.db.rows ensures Backed(w', accepts, i) {
      assert Backed(w, accepts, i);
    }
  }

  lemma DeletionFrame(w: World, w': World, accepts: Bytes -> bool, id: PublicationId)
    requires Invariant(w, accepts) && !Live(w.db, id)
    requires w'.db == w.db && w'.canonical == w.canonical && w'.minted == w.minted && w'.issued == w.issued
    requires w'.attempts == w.attempts - {id}
    ensures Frame(w, w', accepts)
  {
    forall i | i in w'.db.rows ensures Backed(w', accepts, i) {
      assert Backed(w, accepts, i);
    }
  }

  lemma CanonicalFrame(w: World, w': World, accepts: Bytes -> bool)
    requires Invariant(w, accepts) && w.canonical <= w'.canonical
    requires w'.db == w.db && w'.attempts == w.attempts && w'.minted == w.minted && w'.issued == w.issued
    ensures Frame(w, w', accepts)
  {
    forall i | i in w'.db.rows ensures Backed(w', accepts, i) {
      assert Backed(w, accepts, i);
    }
  }

  lemma WriteKeeps(w: World, accepts: Bytes -> bool, agent: Agent, content: Bytes)
    requires Invariant(w, accepts) && agent in w.workers && w.workers[agent].pc.Writing?
    ensures Keeps(w, StepWrite(w, agent, content), accepts)
  {
    var t := w.workers[agent];
    var w' := StepWrite(w, agent, content);
    assert WorkerHolds(w, accepts, t);
    if w'.workers[agent].pc.Written? {
      ObjectFrame(w, w', accepts, t.pc.id, content);
      AgentStep(w, w', accepts, agent, w'.workers[agent].pc);
    } else {
      Stays(w, accepts, agent, w'.workers[agent]);
    }
  }

  lemma ValidateKeeps(w: World, accepts: Bytes -> bool, agent: Agent)
    requires Invariant(w, accepts) && agent in w.workers && w.workers[agent].pc.Validating?
    ensures Keeps(w, StepValidate(w, accepts, agent), accepts)
  {
    Stays(w, accepts, agent, StepValidate(w, accepts, agent).workers[agent]);
  }

  lemma PromoteKeeps(w: World, accepts: Bytes -> bool, agent: Agent)
    requires Invariant(w, accepts) && agent in w.workers && w.workers[agent].pc.Promoting?
    ensures Keeps(w, StepPromote(w, agent), accepts)
  {
    var t := w.workers[agent];
    var w' := StepPromote(w, agent);
    assert WorkerHolds(w, accepts, t);
    CanonicalFrame(w, w', accepts);
    AgentStep(w, w', accepts, agent, w'.workers[agent].pc);
  }

  lemma VerifyKeeps(w: World, accepts: Bytes -> bool, agent: Agent)
    requires Invariant(w, accepts) && agent in w.workers && w.workers[agent].pc.Verifying?
    ensures Keeps(w, StepVerify(w, agent), accepts)
  {
    Stays(w, accepts, agent, StepVerify(w, agent).workers[agent]);
  }

  lemma CleanDeleteKeeps(w: World, accepts: Bytes -> bool, agent: Agent)
    requires Invariant(w, accepts) && agent in w.workers && w.workers[agent].pc.Cleaning?
    ensures Keeps(w, StepCleanDelete(w, agent), accepts)
  {
    var t := w.workers[agent];
    var w' := StepCleanDelete(w, agent);
    assert WorkerHolds(w, accepts, t);
    if t.pc.next < |t.done| {
      DeletionFrame(w, w', accepts, t.done[t.pc.next].id);
      AgentStep(w, w', accepts, agent, w'.workers[agent].pc);
    } else {
      Stays(w, accepts, agent, w'.workers[agent]);
    }
  }

  // ------------------------------------------------------------------ ledger writes

  /** A ledger write that changes one row at most. */
  lemma LedgerFrame(w: World, w': World, accepts: Bytes -> bool, id: PublicationId)
    requires Invariant(w, accepts) && Advances(w.db, w'.db) && Shaped(w'.db)
    requires w'.canonical == w.canonical && w'.attempts == w.attempts && w'.minted == w.minted && w'.issued == w.issued
    requires OneRow(w.db, w'.db, id)
    requires id in w'.db.rows ==> Backed(w', accepts, id)
    ensures Frame(w, w', accepts)
  {
    forall i | i in w'.db.rows ensures Backed(w', accepts, i) {
      assert Backed(w, accepts, i);
    }
  }

  lemma RecordWrittenKeeps(w: World, accepts: Bytes -> bool, agent: Agent)
    requires Invariant(w, accepts) && agent in w.workers && w.workers[agent].pc.Written?
    ensures Keeps(w, StepRecordWritten(w, agent), accepts)
  {
    var t := w.workers[agent];
    var w' := StepRecordWritten(w, agent);
    assert WorkerHolds(w, accepts, t);
    if w'.workers[agent].pc.Validating? {
      RecordObjectAdvances(w.db, t.lease, t.pc.id, t.pc.version, t.pc.content);
      LedgerFrame(w, w', accepts, t.pc.id);
      AgentStep(w, w', accepts, agent, w'.workers[agent].pc);
    } else {
      Stays(w, accepts, agent, w'.workers[agent]);
    }
  }

  lemma RecordPromotedKeeps(w: World, accepts: Bytes -> bool, agent: Agent)
    requires Invariant(w, accepts) && agent in w.workers && w.workers[agent].pc.Promoted?
    ensures Keeps(w, StepRecordPromoted(w, agent), accepts)
  {
    var t := w.workers[agent];
    var w' := StepRecordPromoted(w, agent);
    assert WorkerHolds(w, accepts, t);
    if w'.workers[agent].pc.Verifying? {
      RecordValidatedAdvances(w.db, t.lease, t.pc.id, t.pc.version, t.pc.blob);
      assert Backed(w, accepts, t.pc.id);
      LedgerFrame(w, w', accepts, t.pc.id);
      AgentStep(w, w', accepts, agent, w'.workers[agent].pc);
    } else {
      Stays(w, accepts, agent, w'.workers[agent]);
    }
  }

  lemma RejectKeeps(w: World, accepts: Bytes -> bool, agent: Agent)
    requires Invariant(w, accepts) && agent in w.workers && w.workers[agent].pc.Rejecting?
    ensures Keeps(w, StepReject(w, agent), accepts)
  {
    var t := w.workers[agent];
    var w' := StepReject(w, agent);
    assert WorkerHolds(w, accepts, t);
    RejectAdvances(w.db, t.lease, t.pc.id, t.pc.version);
    assert Backed(w, accepts, t.pc.id);
    LedgerFrame(w, w', accepts, t.pc.id);
    AgentStep(w, w', accepts, agent, w'.workers[agent].pc);
  }

  lemma CleanRecordKeeps(w: World, accepts: Bytes -> bool, agent: Agent)
    requires Invariant(w, accepts) && agent in w.workers && w.workers[agent].pc.Cleaned?
    ensures Keeps(w, StepCleanRecord(w, agent), accepts)
  {
    var t := w.workers[agent];
    var w' := StepCleanRecord(w, agent);
    assert WorkerHolds(w, accepts, t);
    if t.pc.next < |t.done| && t.done[t.pc.next].id in w.db.rows {
      var id := t.done[t.pc.next].id;
      CleanupAdvances(w.db, id, w.db.rows[id].version);
      assert Backed(w, accepts, id);
      LedgerFrame(w, w', accepts, id);
      AgentStep(w, w', accepts, agent, w'.workers[agent].pc);
    } else {
      Stays(w, accepts, agent, w'.workers[agent]);
    }
  }

  lemma ReserveKeeps(w: World, accepts: Bytes -> bool, agent: Agent, newId: PublicationId)
    requires Invariant(w, accepts) && agent in w.workers && w.workers[agent].pc.Reserving?
    ensures Keeps(w, StepReserve(w, agent, newId), accepts)
  {
    var t := w.workers[agent];
    var w' := StepReserve(w, agent, newId);
    assert WorkerHolds(w, accepts, t);
    if w' != w {
      var r := Reserve(w.db, t.lease, t.todo[0], newId);
      ReserveAdvances(w.db, t.lease, t.todo[0], newId);
      if r.Some? && r.value.1 in r.value.0.rows {
        ReserveFrame(w, w', accepts, newId);
          assert Backed(w', accepts, r.value.1);
        AgentStep(w, w', accepts, agent, w'.workers[agent].pc);
      } else {
        Stays(w, accepts, agent, w'.workers[agent]);
      }
    }
  }

  lemma ReserveFrame(w: World, w': World, accepts: Bytes -> bool, newId: PublicationId)
    requires Invariant(w, accepts) && Advances(w.db, w'.db) && Shaped(w'.db) && newId !in w.minted
    requires w'.canonical == w.canonical && w'.attempts == w.attempts && w'.minted == w.minted + {newId} && w'.issued == w.issued
    requires w'.db.current == w.db.current
    requires forall i :: i in w.db.rows ==> i in w'.db.rows && w'.db.rows[i] == w.db.rows[i]
    requires forall i :: i in w'.db.rows && i !in w.db.rows ==>
               i == newId && w'.db.rows[i].state.Reserved? && w'.db.rows[i].lease in w.db.current
    ensures Frame(w, w', accepts)
  {
    forall i | i in w'.db.rows ensures Backed(w', accepts, i) {
      if i in w.db.rows {
        assert Backed(w, accepts, i);
      }
    }
  }

  lemma FinalizeFrame(w: World, w': World, accepts: Bytes -> bool, lease: Lease, refs: seq<Ref>)
    requires Invariant(w, accepts) && Finalize(w.db, lease, refs) == Some(w'.db)
    requires w'.canonical == w.canonical && w'.attempts == w.attempts && w'.minted == w.minted && w'.issued == w.issued
    ensures Frame(w, w', accepts)
    ensures forall k :: 0 <= k < |refs| ==> refs[k].id in w'.db.rows && w'.db.rows[refs[k].id].state.Finalized?
  {
    FinalizeAdvances(w.db, lease, refs);
    forall i | i in w'.db.rows ensures Backed(w', accepts, i) {
      assert Backed(w, accepts, i);
      if i in Ids(refs) {
        var k :| 0 <= k < |refs| && refs[k].id == i;
        assert Swaps(w.db, lease, refs[k].id, refs[k].version) && w.db.rows[refs[k].id].state.Validated?;
      }
    }
    forall k | 0 <= k < |refs| ensures refs[k].id in w'.db.rows && w'.db.rows[refs[k].id].state.Finalized? {
      assert Swaps(w.db, lease, refs[k].id, refs[k].version);
      assert refs[k].id in Ids(refs);
    }
  }

  lemma FinalizeKeeps(w: World, accepts: Bytes -> bool, agent: Agent)
    requires Invariant(w, accepts) && agent in w.workers
    ensures Keeps(w, StepFinalize(w, agent), accepts)
  {
    var t := w.workers[agent];
    var w' := StepFinalize(w, agent);
    assert WorkerHolds(w, accepts, t);
    if Finalize(w.db, t.lease, t.done).Some? {
      FinalizeFrame(w, w', accepts, t.lease, t.done);
      AgentStep(w, w', accepts, agent, w'.workers[agent].pc);
    } else {
      Stays(w, accepts, agent, w'.workers[agent]);
    }
  }

  lemma EarlyStepKeeps(w: World, accepts: Bytes -> bool, op: Op)
    requires Invariant(w, accepts)
    requires op.ReserveOrFinalize? || op.Write? || op.RecordWritten? || op.Validate?
    ensures Keeps(w, Step(w, accepts, op), accepts)
  {
    match op
    case ReserveOrFinalize(a, newId) =>
      if a in w.workers && w.workers[a].pc.Reserving? {
        if w.workers[a].todo == [] {
          FinalizeKeeps(w, accepts, a);
        } else {
          ReserveKeeps(w, accepts, a, newId);
        }
      }
    case Write(a, content) => if a in w.workers && w.workers[a].pc.Writing? { WriteKeeps(w, accepts, a, content); }
    case RecordWritten(a) => if a in w.workers && w.workers[a].pc.Written? { RecordWrittenKeeps(w, accepts, a); }
    case Validate(a) => if a in w.workers && w.workers[a].pc.Validating? { ValidateKeeps(w, accepts, a); }
  }

  lemma LateStepKeeps(w: World, accepts: Bytes -> bool, op: Op)
    requires Invariant(w, accepts)
    requires op.Promote? || op.RecordPromoted? || op.Verify? || op.DoReject?
    ensures Keeps(w, Step(w, accepts, op), accepts)
  {
    match op
    case Promote(a) => if a in w.workers && w.workers[a].pc.Promoting? { PromoteKeeps(w, accepts, a); }
    case RecordPromoted(a) => if a in w.workers && w.workers[a].pc.Promoted? { RecordPromotedKeeps(w, accepts, a); }
    case Verify(a) => if a in w.workers && w.workers[a].pc.Verifying? { VerifyKeeps(w, accepts, a); }
    case DoReject(a) => if a in w.workers && w.workers[a].pc.Rejecting? { RejectKeeps(w, accepts, a); }
  }

  lemma EndStepKeeps(w: World, accepts: Bytes -> bool, op: Op)
    requires Invariant(w, accepts)
    requires op.CleanDelete? || op.CleanRecord? || op.Crash? || op.StartWorker?
    ensures Keeps(w, Step(w, accepts, op), accepts)
  {
    match op
    case CleanDelete(a) => if a in w.workers && w.workers[a].pc.Cleaning? { CleanDeleteKeeps(w, accepts, a); }
    case CleanRecord(a) => if a in w.workers && w.workers[a].pc.Cleaned? { CleanRecordKeeps(w, accepts, a); }
    case Crash(a) =>
      if a in w.workers {
        assert WorkerHolds(w, accepts, w.workers[a]);
        Stays(w, accepts, a, w.workers[a].(pc := Stopped));
      }
    case StartWorker(a, lease, todo) =>
      if a !in w.workers && lease in w.issued { Stays(w, accepts, a, Worker(lease, todo, [], Reserving)); }
  }

  // ----------------------------------------------------------------- the other steps

  lemma LeaseFrame(w: World, w': World, accepts: Bytes -> bool)
    requires Invariant(w, accepts)
    requires w'.db.rows == w.db.rows && w'.db.current <= w'.issued && w.issued <= w'.issued
    requires w'.canonical == w.canonical && w'.attempts == w.attempts && w'.minted == w.minted
    requires forall l :: l in w'.db.current ==> l in w.db.current || l !in w.issued
    ensures Frame(w, w', accepts)
  {
    forall i | i in w'.db.rows ensures Backed(w', accepts, i) {
      assert Backed(w, accepts, i);
    }
  }

  lemma TakeStaleKeeps(w: World, accepts: Bytes -> bool, s: Agent, id: PublicationId)
    requires Invariant(w, accepts)
    ensures Keeps(w, StepTakeStale(w, s, id), accepts)
  {
    var w' := StepTakeStale(w, s, id);
    if w' != w {
      AbandonAdvances(w.db, id, w.db.rows[id].version);
      assert Backed(w, accepts, id);
      LedgerFrame(w, w', accepts, id);
      SweeperMoves(w, w', accepts);
    }
  }

  lemma SweepDeleteKeeps(w: World, accepts: Bytes -> bool, s: Agent)
    requires Invariant(w, accepts)
    ensures Keeps(w, StepSweepDelete(w, s), accepts)
  {
    var w' := StepSweepDelete(w, s);
    if s in w.sweepers && (w.sweepers[s].Deleting? || w.sweepers[s].DeletingUnknown?) {
      assert SweeperHolds(w, w.sweepers[s]);
      DeletionFrame(w, w', accepts, w.sweepers[s].id);
      SweeperMoves(w, w', accepts);
    }
  }

  lemma SweepRecordKeeps(w: World, accepts: Bytes -> bool, s: Agent)
    requires Invariant(w, accepts)
    ensures Keeps(w, StepSweepRecord(w, s), accepts)
  {
    var w' := StepSweepRecord(w, s);
    if s in w.sweepers && w.sweepers[s].Deleted? {
      var id := w.sweepers[s].id;
      assert SweeperHolds(w, w.sweepers[s]);
      CleanupAdvances(w.db, id, w.sweepers[s].version);
      assert Backed(w, accepts, id);
      LedgerFrame(w, w', accepts, id);
      SweeperMoves(w, w', accepts);
    }
  }

  lemma SweeperOnly(w: World, accepts: Bytes -> bool, s: Agent, now: Sweeper)
    requires Invariant(w, accepts) && SweeperHolds(w, now)
    ensures Keeps(w, w.(sweepers := w.sweepers[s := now]), accepts)
  {
    SweeperMoves(w, w.(sweepers := w.sweepers[s := now]), accepts);
  }

  lemma ClockStepKeeps(w: World, accepts: Bytes -> bool, op: Op)
    requires Invariant(w, accepts) && (op.StartLease? || op.ExpireLease? || op.Tick?)
    ensures Keeps(w, Step(w, accepts, op), accepts)
  {
    LeaseFrame(w, StepOther(w, op), accepts);
    SweeperMoves(w, StepOther(w, op), accepts);
  }

  lemma TakeStepKeeps(w: World, accepts: Bytes -> bool, op: Op)
    requires Invariant(w, accepts) && (op.TakeTerminal? || op.TakeUnknown?)
    ensures Keeps(w, Step(w, accepts, op), accepts)
  {
    if StepOther(w, op) != w {
      SweeperOnly(w, accepts, op.sweeper, StepOther(w, op).sweepers[op.sweeper]);
    }
  }

  lemma StaleStepKeeps(w: World, accepts: Bytes -> bool, op: Op)
    requires Invariant(w, accepts) && op.TakeStale?
    ensures Keeps(w, Step(w, accepts, op), accepts)
  {
    TakeStaleKeeps(w, accepts, op.sweeper, op.id);
  }

  lemma SweepStepKeeps(w: World, accepts: Bytes -> bool, op: Op)
    requires Invariant(w, accepts) && (op.SweepDelete? || op.SweepRecord?)
    ensures Keeps(w, Step(w, accepts, op), accepts)
  {
    match op
    case SweepDelete(s) => SweepDeleteKeeps(w, accepts, s);
    case SweepRecord(s) => SweepRecordKeeps(w, accepts, s);
  }

  lemma StepKeeps(w: World, accepts: Bytes -> bool, op: Op)
    requires Invariant(w, accepts)
    ensures Keeps(w, Step(w, accepts, op), accepts)
  {
    if op.StartLease? || op.ExpireLease? || op.Tick? {
      ClockStepKeeps(w, accepts, op);
    } else if op.TakeTerminal? || op.TakeUnknown? {
      TakeStepKeeps(w, accepts, op);
    } else if op.TakeStale? {
      StaleStepKeeps(w, accepts, op);
    } else if op.SweepDelete? || op.SweepRecord? {
      SweepStepKeeps(w, accepts, op);
    } else if op.ReserveOrFinalize? || op.Write? || op.RecordWritten? || op.Validate? {
      EarlyStepKeeps(w, accepts, op);
    } else if op.Promote? || op.RecordPromoted? || op.Verify? || op.DoReject? {
      LateStepKeeps(w, accepts, op);
    } else {
      EndStepKeeps(w, accepts, op);
    }
  }

  lemma {:induction false} RunKeeps(w: World, accepts: Bytes -> bool, ops: seq<Op>)
    requires Invariant(w, accepts)
    ensures Invariant(After(w, accepts, ops), accepts)
    decreases |ops|
  {
    if ops != [] {
      var before := After(w, accepts, ops[..|ops| - 1]);
      RunKeeps(w, accepts, ops[..|ops| - 1]);
      StepKeeps(before, accepts, ops[|ops| - 1]);
    }
  }

  // ------------------------------------------------------------------- main theorems

  /** In every interleaving a validated or finalized record has a canonical object with
      exactly its observed bytes, and those bytes were accepted by the validator and keep
      within the sealed size and declared evidence. */
  lemma ValidatedIsCanonical(w: World, accepts: Bytes -> bool, ops: seq<Op>, id: PublicationId)
    requires Initial(w)
    ensures var w' := After(w, accepts, ops);
            id in w'.db.rows && (w'.db.rows[id].state.Validated? || w'.db.rows[id].state.Finalized?) ==>
              && w'.db.rows[id].observed.Some?
              && var content := w'.db.rows[id].observed.value;
                 && content in w'.canonical && accepts(content)
                 && |content| <= w'.db.rows[id].spec.maxSize && Matches(w'.db.rows[id].spec, content)
  {
    RunKeeps(w, accepts, ops);
    var w' := After(w, accepts, ops);
    if id in w'.db.rows {
      assert Backed(w', accepts, id);
    }
  }

  /** Whenever a worker calls finalize, each record it passes was seen validated and its
      canonical bytes were re-hashed; and if the call succeeds, it finalizes exactly the
      passed records, one of each required kind, and ends the lease. */
  lemma FinalizesVerifiedRecords(w: World, accepts: Bytes -> bool, ops: seq<Op>, agent: Agent)
    requires Initial(w) && agent in After(w, accepts, ops).workers
    ensures var w' := After(w, accepts, ops);
            var t := w'.workers[agent];
            && (forall k :: 0 <= k < |t.done| ==> Verified(w', t.lease, t.done[k]))
            && (Finalize(w'.db, t.lease, t.done).Some? ==>
                  var db := Finalize(w'.db, t.lease, t.done).value;
                  && t.lease !in db.current && t.lease in w'.db.required
                  && (forall kind :: kind in w'.db.required[t.lease] ==> exists id :: TurnedAs(w'.db, db, id, t.lease, kind))
                  && forall id :: id in w'.db.rows && w'.db.rows[id].lease == t.lease && db.rows[id].state.Finalized? ==>
                       id in Ids(t.done) && w'.db.rows[id].state.Validated?)
  {
    RunKeeps(w, accepts, ops);
    var w' := After(w, accepts, ops);
    var t := w'.workers[agent];
    FinalizeIsComplete(w'.db, t.lease, t.done);
    assert WorkerHolds(w', accepts, t);
    if Finalizable(w'.db, t.lease, t.done) {
      forall id | id in Ids(t.done) ensures id in w'.db.rows && w'.db.rows[id].state.Validated? {
        var k :| 0 <= k < |t.done| && t.done[k].id == id;
        assert Swaps(w'.db, t.lease, t.done[k].id, t.done[k].version);
      }
    }
  }

  ghost predicate DeletesOnlyDead(w: World, w': World) {
    forall id :: id in w.attempts && id !in w'.attempts ==> id !in w.db.rows || Terminal(w.db.rows[id])
  }

  /** Whoever finalizes a lease is the only one: after it, whatever runs, no thread's call
      to finalize under that lease succeeds. */
  lemma OneFinalizationPerLease(w: World, accepts: Bytes -> bool, ops: seq<Op>, agent: Agent, more: seq<Op>, refs: seq<Ref>)
    requires Initial(w) && agent in After(w, accepts, ops).workers
    requires var w' := After(w, accepts, ops); Finalize(w'.db, w'.workers[agent].lease, w'.workers[agent].done).Some?
    ensures var w' := After(w, accepts, ops);
            Finalize(After(StepFinalize(w', agent), accepts, more).db, w'.workers[agent].lease, refs).None?
  {
    RunKeeps(w, accepts, ops);
    var w' := After(w, accepts, ops);
    var t := w'.workers[agent];
    FinalizeKeeps(w', accepts, agent);
    var final := StepFinalize(w', agent);
    FinalizeFrame(w', final, accepts, t.lease, t.done);
    var id := t.done[0].id;
    assert Swaps(w'.db, t.lease, id, t.done[0].version);
    assert id in final.db.rows && final.db.rows[id].state.Finalized? && final.db.rows[id].lease == t.lease;
    TerminalForever(final, accepts, more);
    RunKeeps(final, accepts, more);
    var later := After(final, accepts, more);
    assert RowAdvances(final.db.rows[id], later.db.rows[id]);
  }

  /** Deletion safety: whatever step is taken, an attempt object disappears only if its
      record is terminal or never existed, and canonical objects never disappear. */
  lemma DeletionIsSafe(w: World, accepts: Bytes -> bool, ops: seq<Op>, op: Op)
    requires Initial(w)
    ensures var w1 := After(w, accepts, ops);
            DeletesOnlyDead(w1, Step(w1, accepts, op)) && w1.canonical <= Step(w1, accepts, op).canonical
  {
    RunKeeps(w, accepts, ops);
    StepKeeps(After(w, accepts, ops), accepts, op);
  }

  /** A record's fate is final: evidence once recorded and a terminal state once reached
      never change again, and its canonical object stays. */
  lemma {:induction false} TerminalForever(w: World, accepts: Bytes -> bool, ops: seq<Op>)
    requires Invariant(w, accepts)
    ensures var w' := After(w, accepts, ops); Advances(w.db, w'.db) && w.canonical <= w'.canonical
    decreases |ops|
  {
    if ops != [] {
      var n := |ops| - 1;
      var before := After(w, accepts, ops[..n]);
      TerminalForever(w, accepts, ops[..n]);
      RunKeeps(w, accepts, ops[..n]);
      StepKeeps(before, accepts, ops[n]);
      var after := After(w, accepts, ops);
      forall id | id in w.db.rows ensures id in after.db.rows && RowAdvances(w.db.rows[id], after.db.rows[id]) {
        assert RowAdvances(w.db.rows[id], before.db.rows[id]) && RowAdvances(before.db.rows[id], after.db.rows[id]);
      }
    }
  }

  /** Without outside interference the drift checks never fire on a live record: what a
      thread is about to validate or promote is what the record says. */
  lemma LiveObjectsNeverDrift(w: World, accepts: Bytes -> bool, ops: seq<Op>, agent: Agent)
    requires Initial(w) && agent in After(w, accepts, ops).workers
    ensures var w' := After(w, accepts, ops);
            var pc := w'.workers[agent].pc;
            (pc.Validating? || pc.Promoting?) && Live(w'.db, pc.id) ==>
              pc.id in w'.attempts && w'.attempts[pc.id] == pc.observed
  {
    RunKeeps(w, accepts, ops);
    var w' := After(w, accepts, ops);
    var pc := w'.workers[agent].pc;
    assert WorkerHolds(w', accepts, w'.workers[agent]);
    if pc.Validating? || pc.Promoting? {
      assert Backed(w', accepts, pc.id);
    }
  }
}
