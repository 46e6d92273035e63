/** A job succeeds with all of its artifacts: in every interleaving, an attempt with one
    finalized record has a finalized record of each required kind. */
module PublicationComplete {
  import opened Common
  import opened Ledger
  import opened PublicationRuns
  import opened PublicationSafety

  ghost predicate FinalAs(db: Ledger, id: PublicationId, lease: Lease, kind: Kind) {
    id in db.rows && db.rows[id].state.Finalized? && db.rows[id].lease == lease && db.rows[id].spec.kind == kind
  }

  /** The lease's job has exactly its required artifacts. */
  ghost predicate Complete(db: Ledger, lease: Lease) {
    && lease in db.required
    && (forall kind :: kind in db.required[lease] ==> exists id :: FinalAs(db, id, lease, kind))
    && (forall id :: id in db.rows && db.rows[id].state.Finalized? && db.rows[id].lease == lease ==>
          db.rows[id].spec.kind in db.required[lease])
  }

  ghost predicate AllComplete(db: Ledger) {
    forall id :: id in db.rows && db.rows[id].state.Finalized? ==> Complete(db, db.rows[id].lease)
  }

  /** Rows advance, no other row becomes final, and the required kinds of leases already
      issued stay. */
  ghost predicate Steady(w: World, w': World) {
    && Advances(w.db, w'.db)
    && (forall id :: id in w'.db.rows && w'.db.rows[id].state.Finalized? ==> id in w.db.rows && w.db.rows[id].state.Finalized?)
    && (forall lease :: lease in w.issued && lease in w.db.required ==>
          lease in w'.db.required && w'.db.required[lease] == w.db.required[lease])
  }

  lemma SteadyKeeps(w: World, w': World, accepts: Bytes -> bool)
    requires Invariant(w, accepts) && Steady(w, w') && AllComplete(w.db)
    ensures AllComplete(w'.db)
  {
    forall id | id in w'.db.rows && w'.db.rows[id].state.Finalized? ensures Complete(w'.db, w'.db.rows[id].lease) {
      var lease := w.db.rows[id].lease;
      assert RowAdvances(w.db.rows[id], w'.db.rows[id]) && Complete(w.db, lease);
      forall kind | kind in w'.db.required[lease] ensures exists other :: FinalAs(w'.db, other, lease, kind) {
        var other :| FinalAs(w.db, other, lease, kind);
        assert RowAdvances(w.db.rows[other], w'.db.rows[other]);
        assert FinalAs(w'.db, other, lease, kind);
      }
      forall other | other in w'.db.rows && w'.db.rows[other].state.Finalized? && w'.db.rows[other].lease == lease
        ensures w'.db.rows[other].spec.kind in w'.db.required[lease]
      {
        assert RowAdvances(w.db.rows[other], w'.db.rows[other]);
      }
    }
  }

  lemma EarlyStepSteady(w: World, accepts: Bytes -> bool, op: Op)
    requires op.Write? || op.RecordWritten? || op.Validate? || op.Promote? || op.RecordPromoted? || op.Verify?
    ensures var w' := Step(w, accepts, op);
            && w'.db.required == w.db.required
            && (forall id :: id in w'.db.rows && w'.db.rows[id].state.Finalized? ==> id in w.db.rows && w.db.rows[id].state.Finalized?)
  {
  }

  lemma LateStepSteady(w: World, accepts: Bytes -> bool, op: Op)
    requires op.DoReject? || op.CleanDelete? || op.CleanRecord? || op.Crash? || op.StartWorker?
    ensures var w' := Step(w, accepts, op);
            && w'.db.required == w.db.required
            && (forall id :: id in w'.db.rows && w'.db.rows[id].state.Finalized? ==> id in w.db.rows && w.db.rows[id].state.Finalized?)
  {
  }

  lemma OtherStepSteady(w: World, accepts: Bytes -> bool, op: Op)
    requires op.ExpireLease? || op.Tick? || op.TakeTerminal? || op.TakeStale? || op.TakeUnknown? || op.SweepDelete? || op.SweepRecord?
             || op.StartLease?
    ensures var w' := Step(w, accepts, op);
            && (forall lease :: lease in w.issued && lease in w.db.required ==>
                  lease in w'.db.required && w'.db.required[lease] == w.db.required[lease])
            && (forall id :: id in w'.db.rows && w'.db.rows[id].state.Finalized? ==> id in w.db.rows && w.db.rows[id].state.Finalized?)
  {
  }

  lemma ReserveSteady(w: World, agent: Agent, newId: PublicationId)
    requires agent in w.workers
    ensures var w' := StepReserve(w, agent, newId);
            && w'.db.required == w.db.required
            && (forall id :: id in w'.db.rows && w'.db.rows[id].state.Finalized? ==> id in w.db.rows && w.db.rows[id].state.Finalized?)
  {
  }

  /** Finalization completes its lease: none of the lease's rows was final before, since a
      lease with a final row is no longer current. */
  lemma FinalizeCompletes(w: World, accepts: Bytes -> bool, agent: Agent)
    requires Invariant(w, accepts) && AllComplete(w.db) && agent in w.workers
    ensures AllComplete(StepFinalize(w, agent).db)
  {
    var lease, refs := w.workers[agent].lease, w.workers[agent].done;
    var r := Finalize(w.db, lease, refs);
    if r.Some? {
      FinalizeIsComplete(w.db, lease, refs);
      FinalizeAdvances(w.db, lease, refs);
      forall id | id in r.value.rows && r.value.rows[id].state.Finalized? ensures Complete(r.value, r.value.rows[id].lease) {
        if r.value.rows[id].lease == lease {
          LeaseCompletes(w.db, lease, refs);
        } else {
          OthersStayComplete(w.db, lease, refs, id);
        }
      }
    }
  }

  lemma LeaseCompletes(db: Ledger, lease: Lease, refs: seq<Ref>)
    requires Shaped(db) && Finalize(db, lease, refs).Some?
    ensures Complete(Finalize(db, lease, refs).value, lease)
  {
    var db' := Finalize(db, lease, refs).value;
    FinalizeIsComplete(db, lease, refs);
    FinalizeAdvances(db, lease, refs);
    forall kind | kind in db'.required[lease] ensures exists id :: FinalAs(db', id, lease, kind) {
      var id :| TurnedAs(db, db', id, lease, kind);
      assert RowAdvances(db.rows[id], db'.rows[id]);
      assert FinalAs(db', id, lease, kind);
    }
    forall id | id in db'.rows && db'.rows[id].state.Finalized? && db'.rows[id].lease == lease
      ensures db'.rows[id].spec.kind in db'.required[lease]
    {
      assert RowAdvances(db.rows[id], db'.rows[id]);
      assert Turned(db, db', id);
    }
  }

  lemma OthersStayComplete(db: Ledger, lease: Lease, refs: seq<Ref>, id: PublicationId)
    requires Shaped(db) && AllComplete(db) && Finalize(db, lease, refs).Some?
    requires var db' := Finalize(db, lease, refs).value;
             id in db'.rows && db'.rows[id].state.Finalized? && db'.rows[id].lease != lease
    ensures var db' := Finalize(db, lease, refs).value; Complete(db', db'.rows[id].lease)
  {
    var db' := Finalize(db, lease, refs).value;
    FinalizeIsComplete(db, lease, refs);
    FinalizeAdvances(db, lease, refs);
    var other := db'.rows[id].lease;
    assert RowAdvances(db.rows[id], db'.rows[id]) && !Turned(db, db', id);
    assert Complete(db, other);
    forall kind | kind in db'.required[other] ensures exists i :: FinalAs(db', i, other, kind) {
      var i :| FinalAs(db, i, other, kind);
      assert RowAdvances(db.rows[i], db'.rows[i]);
      assert FinalAs(db', i, other, kind);
    }
    forall i | i in db'.rows && db'.rows[i].state.Finalized? && db'.rows[i].lease == other
      ensures db'.rows[i].spec.kind in db'.required[other]
    {
      assert RowAdvances(db.rows[i], db'.rows[i]) && !Turned(db, db', i);
    }
  }

  lemma StepCompletes(w: World, accepts: Bytes -> bool, op: Op)
    requires Invariant(w, accepts) && AllComplete(w.db)
    ensures AllComplete(Step(w, accepts, op).db)
  {
    var w' := Step(w, accepts, op);
    StepKeeps(w, accepts, op);
    if op.ReserveOrFinalize? {
      if op.agent in w.workers && w.workers[op.agent].pc.Reserving? {
        if w.workers[op.agent].todo == [] {
          FinalizeCompletes(w, accepts, op.agent);
        } else {
          ReserveSteady(w, op.agent, op.newId);
          SteadyKeeps(w, w', accepts);
        }
      }
    } else {
      if op.Write? || op.RecordWritten? || op.Validate? || op.Promote? || op.RecordPromoted? || op.Verify? {
        EarlyStepSteady(w, accepts, op);
      } else if op.DoReject? || op.CleanDelete? || op.CleanRecord? || op.Crash? || op.StartWorker? {
        LateStepSteady(w, accepts, op);
      } else {
        OtherStepSteady(w, accepts, op);
      }
      SteadyKeeps(w, w', accepts);
    }
  }

  lemma {:induction false} RunCompletes(w: World, accepts: Bytes -> bool, ops: seq<Op>)
    requires Initial(w)
    ensures AllComplete(After(w, accepts, ops).db)
    decreases |ops|
  {
    if ops != [] {
      RunKeeps(w, accepts, ops[..|ops| - 1]);
      RunCompletes(w, accepts, ops[..|ops| - 1]);
      StepCompletes(After(w, accepts, ops[..|ops| - 1]), accepts, ops[|ops| - 1]);
    }
  }

  /** In every interleaving, next to a finalized record stand finalized records of the same
      attempt for every required kind, and it is of a required kind itself. */
  lemma FinalizedAttemptsAreComplete(w: World, accepts: Bytes -> bool, ops: seq<Op>, id: PublicationId)
    requires Initial(w)
    ensures var db := After(w, accepts, ops).db;
            id in db.rows && db.rows[id].state.Finalized? ==>
              var lease := db.rows[id].lease;
              && lease in db.required && db.rows[id].spec.kind in db.required[lease]
              && (forall kind :: kind in db.required[lease] ==> exists other :: FinalAs(db, other, lease, kind))
  {
    RunCompletes(w, accepts, ops);
  }
}
