/** Fail-closed across processes: which disabling of a deployment survives a restart, and
    which failed invocation's entry can come back. */
module CacheRestart {
  import opened Common
  import opened CacheKeys
  import opened StagedPath
  import opened CacheHistory
  import opened CacheSafety
  import opened CacheFailClosed
  import L2 = ConditionCache

  // --------------------------------------------------------------- exactly what returns

  /** The next process serves an entry exactly when it is there, intact and under no fuse
      file: flags in memory do not count. */
  lemma RestartServesIff(s: L2.State, key: ConditionKey)
    ensures L2.Readable(L2.Restart(s), key) <==>
              key in s.store && L2.Intact(s.store[key]) && !L2.Fused(s, L2.Fingerprint(key))
  {
  }

  lemma FailedEntryIsOff(w: World, id: Id, key: ConditionKey)
    requires Closed(w) && id in w.invs && w.invs[id].phase.Failed? && key in w.l2.store && w.l2.store[key].writer == id
    ensures L2.Disabled(w.l2, L2.Fingerprint(key))
  {
    assert Accounts(w.invs[id]);
    assert L2.Withdrawn(w.l2, id, L2.Keys(NewlyStored(w.invs[id])));
  }

  /** An intact entry a failed invocation left behind is unreadable when it has failed, and
      readable in the next process exactly when its deployment was disabled by flags in
      memory only. */
  lemma FailedEntryServedNextIff(w: World, b: Backend, p: Policy, ops: seq<Op>, id: Id, key: ConditionKey)
    requires Initial(w) && HonestRun(w, b, p, ops)
    requires var w' := After(w, b, p, ops);
             && id in w'.invs && w'.invs[id].phase.Failed?
             && key in w'.l2.store && w'.l2.store[key].writer == id && L2.Intact(w'.l2.store[key])
    ensures var w' := After(w, b, p, ops);
            && L2.Disabled(w'.l2, L2.Fingerprint(key)) && !L2.Readable(w'.l2, key)
            && (L2.Readable(StepRestart(w').l2, key) <==> !L2.Fused(w'.l2, L2.Fingerprint(key)))
  {
    RunCloses(w, b, p, ops);
    var w' := After(w, b, p, ops);
    FailedEntryIsOff(w', id, key);
    RestartServesIff(w'.l2, key);
  }

  /** One delete of a rollback fails to keep its entry from the next process exactly when
      the check of the fuses itself failed, or the delete raised without effect and neither
      fuse file could be created. */
  lemma RollbackServedNextIff(s: L2.State, key: ConditionKey, call: L2.DeleteCall)
    requires L2.Readable(s, key)
    ensures L2.Readable(L2.Restart(L2.SafeDelete(s, key, call)), key) <==>
              call.statFails || (call.raises && !call.removed && call.fuse == L2.FuseIo(L2.NotCreated, L2.NotCreated))
  {
  }

  /** Once the cache is closed every rollback is without effect; and what was readable when
      it was closed is readable in the next process, unless the close itself failed and
      left the global fuse file. */
  lemma {:induction false} CloseDisarmsRollback(s: L2.State, raises: bool, write: L2.FuseWrite, keys: seq<ConditionKey>,
                             calls: nat -> L2.DeleteCall, key: ConditionKey)
    requires L2.Readable(s, key)
    ensures var closed := L2.Close(s, raises, write);
            && L2.Rollback(closed, keys, calls) == closed
            && (L2.Readable(L2.Restart(closed), key) <==> !raises || write.NotCreated?)
    decreases |keys|
  {
    if keys != [] {
      CloseDisarmsRollback(s, raises, write, keys[..|keys| - 1], calls, key);
    }
  }

  // ------------------------------------------------------------ when nothing comes back

  /** A fuse attempt leaves a file that covers what it disables. */
  predicate DurableFuse(io: L2.FuseIo) {
    io.deployment.Written? || !io.global.NotCreated?
  }

  predicate DurablePut(call: L2.PutCall) {
    !call.statFails && DurableFuse(call.fuse)
  }

  predicate DurableDelete(call: L2.DeleteCall) {
    !call.statFails && DurableFuse(call.fuse)
  }

  /** No check of the fuses fails, every fuse attempt leaves a file, and the cache is not
      closed, except by a close that leaves one too, while the process goes on. */
  ghost predicate DurableOp(op: Op) {
    match op
    case BeginL2(_, _, gets) => forall k: nat :: !gets(k).statFails
    case CommitL2(_, puts, _, _, deletes) =>
      (forall k: nat :: DurablePut(puts(k))) && (forall k: nat :: DurableDelete(deletes(k)))
    case Unwind(_, deletion) => DurableDelete(deletion)
    case RejectL2(_, deletion) => DurableDelete(deletion)
    case InvalidateL2(_, call) => DurableFuse(call.fuse)
    case InvalidateAllL2(call, _) => !call.fuse.global.NotCreated?
    case ReleaseL2(_, _, _, fuse) => DurableFuse(fuse)
    case CloseL2(raises, write) => raises && !write.NotCreated?
    case _ => true
  }

  ghost predicate DurableRun(ops: seq<Op>) {
    forall k :: 0 <= k < |ops| ==> DurableOp(ops[k])
  }

  /** Whatever is disabled is so by a fuse file. */
  predicate DurablyOff(s: L2.State) {
    s.globalFuse || (!s.globallyDisabled && s.disabled <= s.fuses)
  }

  lemma PutDurable(s: L2.State, key: ConditionKey, payload: Bytes, writer: Id, call: L2.PutCall)
    requires DurablyOff(s) && DurablePut(call)
    ensures DurablyOff(L2.SafePut(s, key, payload, writer, call).0)
  {
  }

  lemma DeleteDurable(s: L2.State, key: ConditionKey, call: L2.DeleteCall)
    requires DurablyOff(s) && DurableDelete(call)
    ensures DurablyOff(L2.SafeDelete(s, key, call))
  {
  }

  lemma CommitPutsDurable(s: L2.State, writer: Id, stored: seq<ConditionKey>, pending: seq<(ConditionKey, Bytes)>,
                          calls: nat -> L2.PutCall, cancelled: nat -> bool, k: nat)
    requires DurablyOff(s) && forall j: nat :: DurablePut(calls(j))
    ensures DurablyOff(L2.CommitPuts(s, writer, stored, pending, calls, cancelled, k).0)
    decreases |pending|
  {
    if !cancelled(k) && pending != [] {
      PutDurable(s, pending[0].0, pending[0].1, writer, calls(k));
      var (s1, result) := L2.SafePut(s, pending[0].0, pending[0].1, writer, calls(k));
      CommitPutsDurable(s1, writer, if result == L2.Stored then stored + [pending[0].0] else stored,
                        pending[1..], calls, cancelled, k + 1);
    }
  }

  lemma RollbackDurable(s: L2.State, keys: seq<ConditionKey>, calls: nat -> L2.DeleteCall)
    requires DurablyOff(s) && forall j: nat :: DurableDelete(calls(j))
    ensures DurablyOff(L2.Rollback(s, keys, calls))
    decreases |keys|
  {
    if keys != [] {
      var n := |keys| - 1;
      DeleteDurable(s, keys[n], calls(n));
      RollbackDurable(L2.SafeDelete(s, keys[n], calls(n)), keys[..n], calls);
    }
  }

  lemma CommitWritesDurable(s: L2.State, writer: Id, pending: seq<(ConditionKey, Bytes)>, calls: nat -> L2.PutCall,
                            cancelled: nat -> bool, revalidated: bool, deletes: nat -> L2.DeleteCall)
    requires DurablyOff(s) && (forall j: nat :: DurablePut(calls(j))) && (forall j: nat :: DurableDelete(deletes(j)))
    ensures DurablyOff(L2.CommitWrites(s, writer, pending, calls, cancelled, revalidated, deletes).0)
  {
    CommitPutsDurable(s, writer, [], pending, calls, cancelled, 0);
    var (s1, stored, raised) := L2.CommitPuts(s, writer, [], pending, calls, cancelled, 0);
    RollbackDurable(s1, stored, deletes);
  }

  lemma ReadDurable(s: L2.State, key: ConditionKey, call: L2.GetCall)
    requires DurablyOff(s) && !call.statFails
    ensures DurablyOff(L2.Read(s, key, call).0)
  {
  }

  lemma ReadRolesDurable(s: L2.State, parent: CacheKey, roles: seq<FeatureRole>, p: Policy, calls: nat -> L2.GetCall)
    requires DurablyOff(s) && forall k: nat :: !calls(k).statFails
    ensures DurablyOff(L2.ReadRoles(s, parent, roles, p, calls).0)
  {
    if roles != [] {
      var n := |roles| - 1;
      ReadRolesDurable(s, parent, roles[..n], p, calls);
      ReadDurable(L2.ReadRoles(s, parent, roles[..n], p, calls).0, KeyForParent(parent, roles[n], p), calls(n));
    }
  }

  lemma InvalidateDurable(s: L2.State, fp: string, call: L2.InvalidateCall)
    requires DurablyOff(s) && DurableFuse(call.fuse)
    ensures DurablyOff(L2.InvalidateDeployment(s, fp, call))
  {
  }

  lemma StoresDurable(w: World, op: Op)
    requires DurablyOff(w.l2) && DurableOp(op)
    ensures DurablyOff(StepStores(w, op).l2)
  {
    match op
    case InvalidateL2(fp, call) => InvalidateDurable(w.l2, fp, call);
    case RejectL2(key, call) => DeleteDurable(w.l2, key, call);
    case _ =>
  }

  lemma BeginL2Durable(w: World, p: Policy, op: Op)
    requires op.BeginL2? && DurablyOff(w.l2) && DurableOp(op)
    ensures DurablyOff(StepBeginL2(w, p, op).l2)
  {
    if op.id in w.invs && w.invs[op.id].history != [] {
      var inv := w.invs[op.id];
      var key := FromRequest(Current(inv), inv.deployment, p);
      if key.Some? {
        ReadRolesDurable(w.l2, key.value, FeatureRoles(CacheHistory.Task(inv)), p, op.gets);
      }
    }
  }

  lemma CommitL2Durable(w: World, p: Policy, op: Op)
    requires op.CommitL2? && DurablyOff(w.l2) && DurableOp(op)
    ensures DurablyOff(StepCommitL2(w, p, op).l2)
  {
    if Writes(w, op) {
      var inv := w.invs[op.id];
      var revalidated := inv.history != [] &&
        FromRequest(Current(inv.(history := inv.history + op.drift)), inv.deployment, p) == Some(inv.l2.value.parent);
      CommitWritesDurable(w.l2, op.id, inv.l2.value.pending, op.puts, op.cancelled, revalidated, op.deletes);
    }
  }

  lemma UnwindDurable(w: World, op: Op)
    requires op.Unwind? && DurablyOff(w.l2) && DurableOp(op)
    ensures DurablyOff(StepUnwind(w, op).l2)
  {
    if op.id in w.invs && w.invs[op.id].l2.Some? && w.invs[op.id].l2.value.newlyStored != [] {
      var stored := w.invs[op.id].l2.value.newlyStored;
      DeleteDurable(w.l2, stored[|stored| - 1], op.deletion);
    }
  }

  lemma RestartDurable(s: L2.State)
    ensures DurablyOff(L2.Restart(s))
  {
  }

  lemma StepDurable(w: World, b: Backend, p: Policy, op: Op)
    requires DurablyOff(w.l2) && DurableOp(op)
    ensures DurablyOff(Step(w, b, p, op).l2)
  {
    if op.BeginL2? {
      BeginL2Durable(w, p, op);
    } else if op.CommitL2? {
      CommitL2Durable(w, p, op);
    } else if op.Unwind? {
      UnwindDurable(w, op);
    } else if op.Restart? {
      RestartDurable(w.l2);
    } else if op.Begin? || op.Execute? || op.CommitL1? || op.Finish? || op.Fail? || op.Drift? {
      StepLeavesL2(w, b, p, op);
    } else {
      StoresDurable(w, op);
    }
  }

  /** No entry of a writer that failed in an earlier process can be served. */
  ghost predicate FailedGone(w: World) {
    && w.failed <= w.prior
    && (forall key :: key in w.l2.store && w.l2.store[key].writer in w.failed ==> L2.Disabled(w.l2, L2.Fingerprint(key)))
  }

  lemma StepKeepsGone(w: World, b: Backend, p: Policy, op: Op)
    requires FailedGone(w) && Attributed(w) && !op.Restart?
    ensures FailedGone(Step(w, b, p, op))
  {
    StepEvolves(w, b, p, op);
    StepContinues(w, b, p, op);
  }

  lemma RestartKeepsGone(w: World)
    requires FailedGone(w) && Closed(w) && DurablyOff(w.l2)
    ensures FailedGone(StepRestart(w))
  {
    var w' := StepRestart(w);
    forall key | key in w'.l2.store && w'.l2.store[key].writer in w'.failed ensures L2.Disabled(w'.l2, L2.Fingerprint(key)) {
      var writer := w.l2.store[key].writer;
      if writer !in w.failed {
        assert writer in w.invs && w.invs[writer].phase.Failed?;
        assert Accounts(w.invs[writer]) && L2.Withdrawn(w.l2, writer, L2.Keys(NewlyStored(w.invs[writer])));
      }
      assert L2.Disabled(w.l2, L2.Fingerprint(key));
    }
  }

  lemma {:induction false} RunKeepsGone(w: World, b: Backend, p: Policy, ops: seq<Op>)
    requires Initial(w) && HonestRun(w, b, p, ops) && DurableRun(ops)
    ensures var w' := After(w, b, p, ops); FailedGone(w') && DurablyOff(w'.l2) && Closed(w') && Attributed(w')
    decreases |ops|
  {
    RunCloses(w, b, p, ops);
    if ops != [] {
      var before, op := After(w, b, p, ops[..|ops| - 1]), ops[|ops| - 1];
      RunKeepsGone(w, b, p, ops[..|ops| - 1]);
      StepDurable(before, b, p, op);
      if op.Restart? {
        RestartKeepsGone(before);
      } else {
        StepKeepsGone(before, b, p, op);
      }
    }
  }

  /** Fail closed over any number of processes: if no check of the fuses fails, every fuse
      attempt leaves a file and the cache is closed by a restart only, then no readable
      entry was ever written by an invocation that failed, in this process or before. */
  lemma FailClosedAcrossRestarts(w: World, b: Backend, p: Policy, ops: seq<Op>, key: ConditionKey)
    requires Initial(w) && HonestRun(w, b, p, ops) && DurableRun(ops)
    ensures var w' := After(w, b, p, ops);
            L2.Readable(w'.l2, key) ==>
              var writer := w'.l2.store[key].writer;
              writer !in w'.failed && (writer in w'.invs ==> !w'.invs[writer].phase.Failed?)
  {
    RunKeepsGone(w, b, p, ops);
    var w' := After(w, b, p, ops);
    if L2.Readable(w'.l2, key) && w'.l2.store[key].writer in w'.invs {
      var writer := w'.l2.store[key].writer;
      assert Accounts(w'.invs[writer]) && L2.Withdrawn(w'.l2, writer, L2.Keys(NewlyStored(w'.invs[writer])));
    }
  }
}
