/** Which returned invocations passed no key comparison at all: those without an L2
    transaction whose L1 transaction, if any, an invalidation had made stale. */
module CacheUnchecked {
  import opened Common
  import opened CacheKeys
  import opened StagedPath
  import opened CacheHistory
  import opened CacheSafety

  /** At its end without a passed comparison. */
  predicate Unsure(inv: Invocation) {
    (inv.phase.L1Committed? || inv.phase.Returned?) && !inv.checked
  }

  predicate Excused(inv: Invocation, generation: nat) {
    Unsure(inv) ==> (inv.l1.Some? ==> inv.l1.value.generation < generation) && (inv.phase.Returned? ==> inv.l2.None?)
  }

  ghost predicate AllExcused(w: World) {
    forall id :: id in w.invs ==> Excused(w.invs[id], w.l1.generation)
  }

  /** Only the two last steps make an invocation unsure. */
  ghost predicate NoneNewlyUnsure(w: World, w': World) {
    forall id :: id in w'.invs && Unsure(w'.invs[id]) ==>
      id in w.invs && Unsure(w.invs[id]) && w'.invs[id].phase == w.invs[id].phase
      && w'.invs[id].l1 == w.invs[id].l1 && w'.invs[id].l2 == w.invs[id].l2
  }

  lemma BeginUnsure(w: World, p: Policy, op: Op)
    requires op.Begin? || op.BeginL2?
    ensures NoneNewlyUnsure(w, if op.Begin? then StepBegin(w, p, op) else StepBeginL2(w, p, op))
  {
  }

  lemma ExecutingPhase(inv: Invocation, run: Option<StagedRun>, p: Policy)
    requires inv.history != []
    ensures !Unsure(Executing(inv, run, p))
  {
  }

  lemma ExecuteUnsure(w: World, b: Backend, p: Policy, op: Op)
    requires op.Execute?
    ensures NoneNewlyUnsure(w, StepExecute(w, b, p, op))
  {
    if op.id in w.invs {
      var inv := w.invs[op.id].(history := w.invs[op.id].history + op.drift);
      if inv.history != [] {
        ExecutingPhase(inv, RunOf(inv, b, op.views), p);
      }
    }
  }

  lemma CommitL2Unsure(w: World, p: Policy, op: Op)
    requires op.CommitL2?
    ensures NoneNewlyUnsure(w, StepCommitL2(w, p, op))
  {
  }

  lemma FailUnsure(w: World, op: Op)
    requires op.Fail?
    ensures NoneNewlyUnsure(w, StepFail(w, op))
  {
  }

  lemma UnwindUnsure(w: World, op: Op)
    requires op.Unwind?
    ensures NoneNewlyUnsure(w, StepUnwind(w, op))
  {
  }

  lemma DriftUnsure(w: World, op: Op)
    requires op.Drift?
    ensures NoneNewlyUnsure(w, StepDrift(w, op))
  {
  }

  lemma CommitL1Excuses(w: World, p: Policy, op: Op)
    requires op.CommitL1? && AllExcused(w) && GenerationsPast(w)
    ensures AllExcused(StepCommitL1(w, p, op))
  {
    if op.id in w.invs && w.invs[op.id].l1.Some? {
      L1PutsKeepGeneration(w.l1, w.invs[op.id].l1.value.pending, op.l1Puts, 0);
    }
  }

  lemma FinishExcuses(w: World, p: Policy, op: Op)
    requires op.Finish? && AllExcused(w)
    ensures AllExcused(StepFinish(w, p, op))
  {
  }

  lemma KeptExcuses(w: World, w': World)
    requires AllExcused(w) && NoneNewlyUnsure(w, w') && w.l1.generation <= w'.l1.generation
    ensures AllExcused(w')
  {
    forall id | id in w'.invs ensures Excused(w'.invs[id], w'.l1.generation) {
      if Unsure(w'.invs[id]) {
        assert Excused(w.invs[id], w.l1.generation);
      }
    }
  }

  lemma StepExcuses(w: World, b: Backend, p: Policy, op: Op)
    requires AllExcused(w) && GenerationsPast(w)
    ensures AllExcused(Step(w, b, p, op))
  {
    if op.CommitL1? {
      CommitL1Excuses(w, p, op);
    } else if op.Finish? {
      FinishExcuses(w, p, op);
    } else if !op.Restart? {
      StepEvolves1(w, b, p, op);
      OtherStepUnsure(w, b, p, op);
      KeptExcuses(w, Step(w, b, p, op));
    }
  }

  lemma OtherStepUnsure(w: World, b: Backend, p: Policy, op: Op)
    requires !op.CommitL1? && !op.Finish? && !op.Restart?
    ensures NoneNewlyUnsure(w, Step(w, b, p, op))
  {
    if op.Begin? || op.BeginL2? {
      BeginUnsure(w, p, op);
    } else if op.Execute? {
      ExecuteUnsure(w, b, p, op);
    } else if op.CommitL2? {
      CommitL2Unsure(w, p, op);
    } else if op.Fail? {
      FailUnsure(w, op);
    } else if op.Unwind? {
      UnwindUnsure(w, op);
    } else if op.Drift? {
      DriftUnsure(w, op);
    } else {
      StoresContinue(w, op);
    }
  }

  /** In every history, an invocation that returned without any passed comparison had no L2
      transaction, and its L1 transaction, if it had one, was begun before an invalidation
      of that tier. */
  lemma {:induction false} UncheckedMeansStale(w: World, b: Backend, p: Policy, ops: seq<Op>)
    requires Initial(w)
    ensures AllExcused(After(w, b, p, ops))
    ensures var w' := After(w, b, p, ops);
            forall id :: id in w'.invs && w'.invs[id].phase.Returned? && !w'.invs[id].checked ==>
              w'.invs[id].l2.None? && (w'.invs[id].l1.Some? ==> w'.invs[id].l1.value.generation < w'.l1.generation)
    decreases |ops|
  {
    if ops != [] {
      var before := After(w, b, p, ops[..|ops| - 1]);
      UncheckedMeansStale(w, b, p, ops[..|ops| - 1]);
      RunGenerations(w, b, p, ops[..|ops| - 1]);
      StepExcuses(before, b, p, ops[|ops| - 1]);
    }
    forall id | id in After(w, b, p, ops).invs ensures Excused(After(w, b, p, ops).invs[id], After(w, b, p, ops).l1.generation) {
    }
  }
}
