/** L2 fails closed over whole histories: once an invocation has failed, at whatever
    point, none of the entries it wrote can be read, then or ever after. */
module CacheFailClosed {
  import opened Common
  import opened CacheKeys
  import opened StagedPath
  import opened CacheHistory
  import opened CacheSafety
  import L2 = ConditionCache

  function NewlyStored(inv: Invocation): seq<ConditionKey> {
    if inv.l2.Some? then inv.l2.value.newlyStored else []
  }

  /** Only a committed or unwinding invocation has writes it can still withdraw. */
  predicate Accounts(inv: Invocation) {
    NewlyStored(inv) != [] ==> Committing(inv.phase) || inv.phase.Unwinding?
  }

  /** What an invocation wrote is listed for rollback, absent or unreadable. */
  ghost predicate Closed(w: World) {
    && (forall id :: id in w.invs ==> Accounts(w.invs[id]))
    && (forall id :: id in w.invs ==> L2.Withdrawn(w.l2, id, L2.Keys(NewlyStored(w.invs[id]))))
  }

  /** The store keeps its promise about the results it reports. */
  ghost predicate HonestOp(w: World, op: Op) {
    op.CommitL2? && op.id in w.invs && w.invs[op.id].l2.Some? ==>
      forall j: nat :: j < |w.invs[op.id].l2.value.pending| ==>
        L2.Honest(op.puts(j), w.invs[op.id].l2.value.pending[j].0)
  }

  ghost predicate HonestRun(w: World, b: Backend, p: Policy, ops: seq<Op>)
    decreases |ops|
  {
    ops == [] || (HonestRun(w, b, p, ops[..|ops| - 1])
                  && HonestOp(After(w, b, p, ops[..|ops| - 1]), ops[|ops| - 1]))
  }

  /** A step that writes nothing in the name of `id` keeps its writes withdrawn. */
  lemma OthersKeepWithdrawn(s: L2.State, s': L2.State, writers: set<Id>, id: Id, except: set<ConditionKey>)
    requires Evolves(s, s', writers) && id !in writers
    requires L2.Withdrawn(s, id, except)
    ensures L2.Withdrawn(s', id, except)
  {
  }

  /** How a step changes the rollback lists. */
  ghost predicate ListsKept(w: World, w': World, op: Op) {
    && (forall id :: id in w'.invs && id !in w.invs ==> NewlyStored(w'.invs[id]) == [])
    && (forall id :: id in w.invs && id in w'.invs && !(op.CommitL2? && op.id == id) && !(op.Unwind? && op.id == id) ==>
          && NewlyStored(w'.invs[id]) == NewlyStored(w.invs[id])
          && (Accounts(w.invs[id]) ==> Accounts(w'.invs[id])))
  }

  lemma BeginListsKept(w: World, p: Policy, op: Op)
    requires op.Begin? || op.BeginL2?
    ensures ListsKept(w, if op.Begin? then StepBegin(w, p, op) else StepBeginL2(w, p, op), op)
  {
  }

  lemma ExecutingListKept(inv: Invocation, run: Option<StagedRun>, p: Policy)
    requires inv.history != []
    ensures NewlyStored(Executing(inv, run, p)) == NewlyStored(inv)
    ensures inv.phase.L2Begun? && Accounts(inv) ==> Accounts(Executing(inv, run, p))
  {
  }

  lemma ExecuteListsKept(w: World, b: Backend, p: Policy, op: Op)
    requires op.Execute?
    ensures ListsKept(w, StepExecute(w, b, p, op), op)
  {
    if op.id in w.invs {
      var inv := w.invs[op.id].(history := w.invs[op.id].history + op.drift);
      if inv.history != [] {
        ExecutingListKept(inv, RunOf(inv, b, op.views), p);
      }
    }
  }

  lemma CommitL2ListsKept(w: World, p: Policy, op: Op)
    requires op.CommitL2?
    ensures ListsKept(w, StepCommitL2(w, p, op), op)
  {
  }

  lemma CommitL1ListsKept(w: World, p: Policy, op: Op)
    requires op.CommitL1?
    ensures ListsKept(w, StepCommitL1(w, p, op), op)
  {
  }

  lemma FinishListsKept(w: World, p: Policy, op: Op)
    requires op.Finish?
    ensures ListsKept(w, StepFinish(w, p, op), op)
  {
  }

  lemma FailListsKept(w: World, op: Op)
    requires op.Fail?
    ensures ListsKept(w, StepFail(w, op), op)
  {
  }

  lemma RestListsKept(w: World, op: Op)
    ensures op.Unwind? ==> ListsKept(w, StepUnwind(w, op), op)
    ensures op.Drift? ==> ListsKept(w, StepDrift(w, op), op)
    ensures ListsKept(w, StepStores(w, op), op)
  {
  }

  lemma StepListsKept(w: World, b: Backend, p: Policy, op: Op)
    requires !op.Restart?
    ensures ListsKept(w, Step(w, b, p, op), op)
  {
    if op.Begin? || op.BeginL2? {
      BeginListsKept(w, p, op);
    } else if op.Execute? {
      ExecuteListsKept(w, b, p, op);
    } else if op.CommitL2? {
      CommitL2ListsKept(w, p, op);
    } else if op.CommitL1? {
      CommitL1ListsKept(w, p, op);
    } else if op.Finish? {
      FinishListsKept(w, p, op);
    } else if op.Fail? {
      FailListsKept(w, op);
    } else {
      RestListsKept(w, op);
    }
  }

  /** The committing invocation itself. */
  lemma CommitCloses(w: World, p: Policy, op: Op)
    requires op.CommitL2? && Closed(w) && HonestOp(w, op) && op.id in w.invs
    ensures var w' := StepCommitL2(w, p, op);
            Accounts(w'.invs[op.id]) && L2.Withdrawn(w'.l2, op.id, L2.Keys(NewlyStored(w'.invs[op.id])))
  {
    var inv := w.invs[op.id];
    if Writes(w, op) && inv.phase.Executed? {
      assert L2.Keys(NewlyStored(inv)) == {};
      var t := inv.l2.value;
      var revalidated := inv.history != [] &&
        FromRequest(Current(inv.(history := inv.history + op.drift)), inv.deployment, p) == Some(t.parent);
      L2.CommitFailsClosed(w.l2, op.id, t.pending, op.puts, op.cancelled, revalidated, op.deletes);
    }
  }

  /** One rollback step of the unwinding invocation. */
  lemma UnwindCloses(w: World, op: Op)
    requires op.Unwind? && Closed(w) && op.id in w.invs
    ensures var w' := StepUnwind(w, op);
            Accounts(w'.invs[op.id]) && L2.Withdrawn(w'.l2, op.id, L2.Keys(NewlyStored(w'.invs[op.id])))
  {
    var inv := w.invs[op.id];
    if inv.phase.Unwinding? && NewlyStored(inv) != [] {
      var stored := inv.l2.value.newlyStored;
      var n := |stored| - 1;
      assert stored == stored[..n] + [stored[n]];
      assert L2.Keys(stored) == L2.Keys(stored[..n]) + {stored[n]};
      L2.DeleteWithdraws(w.l2, stored[n], op.id, op.deletion, L2.Keys(stored[..n]));
    }
  }

  lemma StepCloses(w: World, b: Backend, p: Policy, op: Op)
    requires !op.Restart? && Closed(w) && Attributed(w) && HonestOp(w, op)
    ensures Closed(Step(w, b, p, op))
  {
    var w' := Step(w, b, p, op);
    StepContinues(w, b, p, op);
    StepEvolves(w, b, p, op);
    StepListsKept(w, b, p, op);
    forall id | id in w'.invs
      ensures Accounts(w'.invs[id]) && L2.Withdrawn(w'.l2, id, L2.Keys(NewlyStored(w'.invs[id])))
    {
      if id !in w.invs {
        assert L2.Withdrawn(w.l2, id, {});
        OthersKeepWithdrawn(w.l2, w'.l2, if Writes(w, op) then {op.id} else {}, id, {});
      } else if op.CommitL2? && op.id == id {
        CommitCloses(w, p, op);
      } else if op.Unwind? && op.id == id {
        UnwindCloses(w, op);
      } else {
        OthersKeepWithdrawn(w.l2, w'.l2, if Writes(w, op) then {op.id} else {}, id, L2.Keys(NewlyStored(w.invs[id])));
      }
    }
  }

  lemma {:induction false} RunCloses(w: World, b: Backend, p: Policy, ops: seq<Op>)
    requires Closed(w) && Attributed(w) && HonestRun(w, b, p, ops)
    ensures Closed(After(w, b, p, ops)) && Attributed(After(w, b, p, ops))
    decreases |ops|
  {
    if ops != [] {
      var n := |ops| - 1;
      RunCloses(w, b, p, ops[..n]);
      if ops[n].Restart? {
        RestartAttributed(After(w, b, p, ops[..n]));
      } else {
        StepCloses(After(w, b, p, ops[..n]), b, p, ops[n]);
        StepAttributed(After(w, b, p, ops[..n]), b, p, ops[n]);
      }
    }
  }

  /** Fail closed.  At every point of every history, a readable L2 entry was written by
      an earlier process or by an invocation that did not fail and still lists the entry
      as newly stored; in particular a failed invocation's entries are all absent or
      belong to a disabled deployment. */
  lemma FailedInvocationsLeaveNothing(w: World, b: Backend, p: Policy, ops: seq<Op>, key: ConditionKey)
    requires Initial(w) && HonestRun(w, b, p, ops)
    ensures var w' := After(w, b, p, ops);
            L2.Readable(w'.l2, key) ==>
              var writer := w'.l2.store[key].writer;
              || writer in w'.prior
              || (&& writer in w'.invs && key in NewlyStored(w'.invs[writer])
                  && (Committing(w'.invs[writer].phase) || w'.invs[writer].phase.Unwinding?))
  {
    RunCloses(w, b, p, ops);
    var w' := After(w, b, p, ops);
    if L2.Readable(w'.l2, key) {
      var writer := w'.l2.store[key].writer;
      if writer in w'.invs {
        assert L2.Withdrawn(w'.l2, writer, L2.Keys(NewlyStored(w'.invs[writer])));
        assert Accounts(w'.invs[writer]);
      }
    }
  }
}
