/** Safety of both tiers over whole histories: invalidation is a fence, transactions
    begun before it never write, failed invocations leave nothing readable, and a
    disabled deployment is served again only from entries written after it was emptied. */
module CacheSafety {
  import opened Common
  import opened CacheKeys
  import opened StagedPath
  import opened CacheHistory
  import L1 = L0L1Cache
  import L2 = ConditionCache

  // ---------------------------------------------- how one step may change the L2 tier

  /** Every entry either was there before or was written now, by one of `writers`, under
      the generation before the step; a deployment that gets enabled is left empty, by a
      step that opened a new generation. */
  ghost predicate Evolves(s: L2.State, s': L2.State, writers: set<Id>) {
    && s.generation <= s'.generation
    && (forall key :: key in s'.store ==>
          || (key in s.store && s'.store[key].writer == s.store[key].writer && s'.store[key].generation == s.store[key].generation)
          || (s'.store[key].writer in writers && s'.store[key].generation == s.generation))
    && (forall key :: key in s'.store && L2.Disabled(s, L2.Fingerprint(key)) ==> L2.Disabled(s', L2.Fingerprint(key)))
    && (forall fp :: L2.Disabled(s, fp) && !L2.Disabled(s', fp) ==> s.generation < s'.generation)
  }

  lemma EvolvesTransitively(s: L2.State, s1: L2.State, s2: L2.State, writers: set<Id>)
    requires Evolves(s, s1, writers) && Evolves(s1, s2, writers)
    requires s.generation == s1.generation && s1.generation == s2.generation
    ensures Evolves(s, s2, writers)
  {
    assert forall fp :: L2.Disabled(s, fp) ==> L2.Disabled(s1, fp);
  }

  lemma PutEvolves(s: L2.State, key: ConditionKey, payload: Bytes, writer: Id, call: L2.PutCall)
    ensures var s' := L2.SafePut(s, key, payload, writer, call).0;
            Evolves(s, s', {writer}) && s'.generation == s.generation
  {
  }

  lemma DeleteEvolves(s: L2.State, key: ConditionKey, call: L2.DeleteCall)
    ensures var s' := L2.SafeDelete(s, key, call); Evolves(s, s', {}) && s'.generation == s.generation
  {
  }

  lemma CommitPutsEvolves(s: L2.State, writer: Id, stored: seq<ConditionKey>, pending: seq<(ConditionKey, Bytes)>,
                          calls: nat -> L2.PutCall, cancelled: nat -> bool, k: nat)
    ensures var s' := L2.CommitPuts(s, writer, stored, pending, calls, cancelled, k).0;
            Evolves(s, s', {writer}) && s'.generation == s.generation
    decreases |pending|
  {
    if !cancelled(k) && pending != [] {
      var (s1, result) := L2.SafePut(s, pending[0].0, pending[0].1, writer, calls(k));
      var stored1 := if result == L2.Stored then stored + [pending[0].0] else stored;
      PutEvolves(s, pending[0].0, pending[0].1, writer, calls(k));
      CommitPutsEvolves(s1, writer, stored1, pending[1..], calls, cancelled, k + 1);
      EvolvesTransitively(s, s1, L2.CommitPuts(s1, writer, stored1, pending[1..], calls, cancelled, k + 1).0, {writer});
    }
  }

  lemma RollbackEvolves(s: L2.State, keys: seq<ConditionKey>, calls: nat -> L2.DeleteCall)
    ensures Evolves(s, L2.Rollback(s, keys, calls), {}) && L2.Rollback(s, keys, calls).generation == s.generation
    decreases |keys|
  {
    if keys != [] {
      var n := |keys| - 1;
      var s1 := L2.SafeDelete(s, keys[n], calls(n));
      DeleteEvolves(s, keys[n], calls(n));
      RollbackEvolves(s1, keys[..n], calls);
      EvolvesTransitively(s, s1, L2.Rollback(s1, keys[..n], calls), {});
    }
  }

  lemma CommitWritesEvolves(s: L2.State, writer: Id, pending: seq<(ConditionKey, Bytes)>, calls: nat -> L2.PutCall,
                            cancelled: nat -> bool, revalidated: bool, deletes: nat -> L2.DeleteCall)
    ensures Evolves(s, L2.CommitWrites(s, writer, pending, calls, cancelled, revalidated, deletes).0, {writer})
  {
    var (s1, stored, raised) := L2.CommitPuts(s, writer, [], pending, calls, cancelled, 0);
    CommitPutsEvolves(s, writer, [], pending, calls, cancelled, 0);
    if raised || !revalidated {
      RollbackEvolves(s1, stored, deletes);
      assert Evolves(s1, L2.Rollback(s1, stored, deletes), {writer});
      EvolvesTransitively(s, s1, L2.Rollback(s1, stored, deletes), {writer});
    }
  }

  lemma ReadEvolves(s: L2.State, key: ConditionKey, call: L2.GetCall)
    ensures var s' := L2.Read(s, key, call).0; Evolves(s, s', {}) && s'.generation == s.generation
  {
  }

  lemma ReadRolesEvolves(s: L2.State, parent: CacheKey, roles: seq<FeatureRole>, p: Policy, calls: nat -> L2.GetCall)
    ensures var s' := L2.ReadRoles(s, parent, roles, p, calls).0; Evolves(s, s', {}) && s'.generation == s.generation
  {
    if roles != [] {
      var n := |roles| - 1;
      var s1 := L2.ReadRoles(s, parent, roles[..n], p, calls).0;
      ReadRolesEvolves(s, parent, roles[..n], p, calls);
      var s2 := L2.Read(s1, KeyForParent(parent, roles[n], p), calls(n)).0;
      ReadEvolves(s1, KeyForParent(parent, roles[n], p), calls(n));
      EvolvesTransitively(s, s1, s2, {});
    }
  }

  lemma InvalidationsEvolve(s: L2.State, fp: string, call: L2.InvalidateCall, cleared: set<string>)
    ensures Evolves(s, L2.InvalidateDeployment(s, fp, call), {})
    ensures Evolves(s, L2.InvalidateAll(s, call, cleared), {})
  {
  }

  lemma ReleaseEvolves(s: L2.State, fp: string, raises: bool, removed: set<ConditionKey>, fuse: L2.FuseIo)
    ensures Evolves(s, L2.Release(s, fp, raises, removed, fuse), {})
  {
  }

  /** Only a commit whose transaction still stands writes. */
  ghost predicate Writes(w: World, op: Op) {
    op.CommitL2? && op.id in w.invs && w.invs[op.id].l2.Some? && w.invs[op.id].l2.value.generation == w.l2.generation
  }

  lemma StoresEvolve(w: World, op: Op)
    ensures Evolves(w.l2, StepStores(w, op).l2, {})
  {
    match op
    case InvalidateL2(fp, call) => InvalidationsEvolve(w.l2, fp, call, {});
    case InvalidateAllL2(call, cleared) => InvalidationsEvolve(w.l2, "", call, cleared);
    case ReleaseL2(fp, raises, keys, fuse) => ReleaseEvolves(w.l2, fp, raises, keys, fuse);
    case RejectL2(key, call) => DeleteEvolves(w.l2, key, call);
    case _ =>
  }

  lemma BeginL2Evolves(w: World, p: Policy, op: Op)
    requires op.BeginL2?
    ensures Evolves(w.l2, StepBeginL2(w, p, op).l2, {})
  {
    if op.id in w.invs && w.invs[op.id].history != [] {
      var inv := w.invs[op.id];
      var key := FromRequest(Current(inv), inv.deployment, p);
      if key.Some? {
        ReadRolesEvolves(w.l2, key.value, FeatureRoles(CacheHistory.Task(inv)), p, op.gets);
      }
    }
  }

  lemma CommitL2Evolves(w: World, p: Policy, op: Op)
    requires op.CommitL2?
    ensures Evolves(w.l2, StepCommitL2(w, p, op).l2, if Writes(w, op) then {op.id} else {})
  {
    if Writes(w, op) {
      var inv := w.invs[op.id];
      var revalidated := inv.history != [] &&
        FromRequest(Current(inv.(history := inv.history + op.drift)), inv.deployment, p) == Some(inv.l2.value.parent);
      CommitWritesEvolves(w.l2, op.id, inv.l2.value.pending, op.puts, op.cancelled, revalidated, op.deletes);
    }
  }

  lemma UnwindEvolves(w: World, op: Op)
    requires op.Unwind?
    ensures Evolves(w.l2, StepUnwind(w, op).l2, {})
  {
    if op.id in w.invs && w.invs[op.id].l2.Some? && w.invs[op.id].l2.value.newlyStored != [] {
      var stored := w.invs[op.id].l2.value.newlyStored;
      DeleteEvolves(w.l2, stored[|stored| - 1], op.deletion);
    }
  }

  lemma StepEvolves(w: World, b: Backend, p: Policy, op: Op)
    requires !op.Restart?
    ensures Evolves(w.l2, Step(w, b, p, op).l2, if Writes(w, op) then {op.id} else {})
  {
    if op.BeginL2? {
      BeginL2Evolves(w, p, op);
    } else if op.CommitL2? {
      CommitL2Evolves(w, p, op);
    } else if op.Unwind? {
      UnwindEvolves(w, op);
    } else if op.Begin? || op.Execute? || op.CommitL1? || op.Finish? || op.Fail? || op.Drift? {
      StepLeavesL2(w, b, p, op);
    } else {
      StoresEvolve(w, op);
    }
  }

  lemma StepLeavesL2(w: World, b: Backend, p: Policy, op: Op)
    requires op.Begin? || op.Execute? || op.CommitL1? || op.Finish? || op.Fail? || op.Drift?
    ensures Step(w, b, p, op).l2 == w.l2
  {
  }

  // ------------------------------------------------------------ transactions are stable

  ghost predicate SameTransactions(inv: Invocation, inv': Invocation) {
    && (inv.l1.Some? ==> inv'.l1.Some? && inv'.l1.value.generation == inv.l1.value.generation)
    && (inv.l2.Some? ==> inv'.l2.Some? && inv'.l2.value.generation == inv.l2.value.generation)
  }

  lemma L1PutsKeepGeneration(s: L1.State, pending: seq<(L1.Slot, L1.Content)>, calls: nat -> L1.PutCall, k: nat)
    ensures L1.Puts(s, pending, calls, k).generation == s.generation
    decreases |pending|
  {
    if pending != [] {
      L1PutsKeepGeneration(L1.SafePut(s, pending[0].0, pending[0].1, calls(k)).0, pending[1..], calls, k + 1);
    }
  }

  ghost predicate InvocationsContinue(w: World, w': World) {
    && (forall id :: id in w.invs ==> id in w'.invs && SameTransactions(w.invs[id], w'.invs[id]))
    && (forall id :: id in w'.invs && id !in w.invs ==> id !in w.prior && w'.invs[id].l2.None?)
    && (forall id :: id in w'.invs && w'.invs[id].l1.Some? ==>
          (id in w.invs && w.invs[id].l1.Some?) || w'.invs[id].l1.value.generation == w.l1.generation)
    && (forall id :: id in w'.invs && w'.invs[id].l2.Some? ==>
          (id in w.invs && w.invs[id].l2.Some?) || w'.invs[id].l2.value.generation == w.l2.generation)
  }

  lemma BeginContinues(w: World, p: Policy, op: Op)
    requires op.Begin? || op.BeginL2?
    ensures InvocationsContinue(w, if op.Begin? then StepBegin(w, p, op) else StepBeginL2(w, p, op))
  {
  }

  lemma ExecuteContinues(w: World, b: Backend, p: Policy, op: Op)
    requires op.Execute?
    ensures InvocationsContinue(w, StepExecute(w, b, p, op))
  {
  }

  lemma CommitL2Continues(w: World, p: Policy, op: Op)
    requires op.CommitL2?
    ensures InvocationsContinue(w, StepCommitL2(w, p, op))
  {
  }

  lemma CommitL1Continues(w: World, p: Policy, op: Op)
    requires op.CommitL1?
    ensures InvocationsContinue(w, StepCommitL1(w, p, op))
  {
  }

  lemma FinishContinues(w: World, p: Policy, op: Op)
    requires op.Finish?
    ensures InvocationsContinue(w, StepFinish(w, p, op))
  {
  }

  lemma FailContinues(w: World, op: Op)
    requires op.Fail?
    ensures InvocationsContinue(w, StepFail(w, op))
  {
  }

  lemma UnwindContinues(w: World, op: Op)
    requires op.Unwind?
    ensures InvocationsContinue(w, StepUnwind(w, op))
  {
  }

  lemma DriftContinues(w: World, op: Op)
    requires op.Drift?
    ensures InvocationsContinue(w, StepDrift(w, op))
  {
  }

  lemma StoresContinue(w: World, op: Op)
    ensures StepStores(w, op).invs == w.invs && StepStores(w, op).prior == w.prior && StepStores(w, op).failed == w.failed
  {
  }

  // ---------------------------------------------- how one step may change the L1 tier

  ghost predicate Evolves1(s: L1.State, s': L1.State) {
    && s.generation <= s'.generation
    && (forall slot :: slot in s'.store ==>
          || (slot in s.store && s'.store[slot].generation == s.store[slot].generation)
          || (s'.store[slot].generation == s.generation && !L1.Disabled(s, L1.Fingerprint(slot))))
    && (forall fp :: L1.Disabled(s, fp) ==> L1.Disabled(s', fp))
  }

  lemma PutsEvolve1(s: L1.State, pending: seq<(L1.Slot, L1.Content)>, calls: nat -> L1.PutCall, k: nat)
    ensures var s' := L1.Puts(s, pending, calls, k); Evolves1(s, s') && s'.generation == s.generation
    decreases |pending|
  {
    if pending != [] {
      PutsEvolve1(L1.SafePut(s, pending[0].0, pending[0].1, calls(k)).0, pending[1..], calls, k + 1);
    }
  }

  lemma StoresEvolve1(w: World, op: Op)
    ensures Evolves1(w.l1, StepStores(w, op).l1)
  {
  }

  lemma CommitL1Evolves1(w: World, p: Policy, op: Op)
    requires op.CommitL1?
    ensures Evolves1(w.l1, StepCommitL1(w, p, op).l1)
  {
    if op.id in w.invs && w.invs[op.id].l1.Some? {
      PutsEvolve1(w.l1, w.invs[op.id].l1.value.pending, op.l1Puts, 0);
    }
  }

  lemma StepLeavesL1(w: World, b: Backend, p: Policy, op: Op)
    requires op.BeginL2? || op.Execute? || op.CommitL2? || op.Finish? || op.Fail? || op.Unwind? || op.Drift?
    ensures Step(w, b, p, op).l1 == w.l1
  {
  }

  lemma BeginEvolves1(w: World, p: Policy, op: Op)
    requires op.Begin?
    ensures Evolves1(w.l1, StepBegin(w, p, op).l1)
  {
  }

  lemma StepEvolves1(w: World, b: Backend, p: Policy, op: Op)
    requires !op.Restart?
    ensures Evolves1(w.l1, Step(w, b, p, op).l1)
  {
    if op.Begin? {
      BeginEvolves1(w, p, op);
    } else if op.CommitL1? {
      CommitL1Evolves1(w, p, op);
    } else if op.BeginL2? || op.Execute? || op.CommitL2? || op.Finish? || op.Fail? || op.Unwind? || op.Drift? {
      StepLeavesL1(w, b, p, op);
    } else {
      StoresEvolve1(w, op);
    }
  }

  // -------------------------------------------------------------------- over any run

  lemma StepKeepsPrior(w: World, b: Backend, p: Policy, op: Op)
    requires !op.Restart?
    ensures Step(w, b, p, op).prior == w.prior && Step(w, b, p, op).failed == w.failed
  {
  }

  lemma StepContinues(w: World, b: Backend, p: Policy, op: Op)
    requires !op.Restart?
    ensures InvocationsContinue(w, Step(w, b, p, op))
    ensures Step(w, b, p, op).prior == w.prior && Step(w, b, p, op).failed == w.failed
  {
    StepKeepsPrior(w, b, p, op);
    if op.Begin? || op.BeginL2? {
      BeginContinues(w, p, op);
    } else if op.Execute? {
      ExecuteContinues(w, b, p, op);
    } else if op.CommitL2? {
      CommitL2Continues(w, p, op);
    } else if op.CommitL1? {
      CommitL1Continues(w, p, op);
    } else if op.Finish? {
      FinishContinues(w, p, op);
    } else if op.Fail? {
      FailContinues(w, op);
    } else if op.Unwind? {
      UnwindContinues(w, op);
    } else if op.Drift? {
      DriftContinues(w, op);
    } else {
      StoresContinue(w, op);
    }
  }

  /** Entries belong to earlier processes, or carry their writer's own generation. */
  ghost predicate Attributed(w: World) {
    && (forall id :: id in w.invs ==> id !in w.prior)
    && (forall key :: key in w.l2.store ==>
          var e := w.l2.store[key];
          if e.writer in w.prior then e.generation == 0
          else e.writer in w.invs && w.invs[e.writer].l2.Some? && w.invs[e.writer].l2.value.generation == e.generation)
  }

  lemma RestartAttributed(w: World)
    requires Attributed(w)
    ensures Attributed(StepRestart(w))
  {
  }

  lemma StepAttributed(w: World, b: Backend, p: Policy, op: Op)
    requires Attributed(w) && !op.Restart?
    ensures Attributed(Step(w, b, p, op))
  {
    StepContinues(w, b, p, op);
    StepEvolves(w, b, p, op);
    var w' := Step(w, b, p, op);
    forall key | key in w'.l2.store
      ensures var e := w'.l2.store[key];
              if e.writer in w'.prior then e.generation == 0
              else e.writer in w'.invs && w'.invs[e.writer].l2.Some? && w'.invs[e.writer].l2.value.generation == e.generation
    {
      var e := w'.l2.store[key];
      if key in w.l2.store && e.writer == w.l2.store[key].writer && e.generation == w.l2.store[key].generation {
      } else {
        assert Writes(w, op) && e.writer == op.id;
      }
    }
  }

  lemma {:induction false} RunAttributed(w: World, b: Backend, p: Policy, ops: seq<Op>)
    requires Attributed(w)
    ensures Attributed(After(w, b, p, ops))
    decreases |ops|
  {
    if ops != [] {
      var n := |ops| - 1;
      RunAttributed(w, b, p, ops[..n]);
      if ops[n].Restart? {
        RestartAttributed(After(w, b, p, ops[..n]));
      } else {
        StepAttributed(After(w, b, p, ops[..n]), b, p, ops[n]);
      }
    }
  }

  /** From generation g on, the deployment is only served from entries written in g or
      later. */
  ghost predicate ServedSince(s: L2.State, fp: string, g: nat) {
    && g <= s.generation + 1
    && (L2.Disabled(s, fp) ||
        (g <= s.generation &&
         forall key :: key in s.store && L2.Fingerprint(key) == fp ==> g <= s.store[key].generation))
  }

  ghost predicate ServedSince1(s: L1.State, fp: string, g: nat) {
    && g <= s.generation
    && (L1.Disabled(s, fp) || forall slot :: slot in s.store && L1.Fingerprint(slot) == fp ==> g <= s.store[slot].generation)
  }

  lemma {:induction false} RunServes(w: World, b: Backend, p: Policy, ops: seq<Op>, fp: string, g: nat)
    requires ServedSince(w.l2, fp, g) && WithinProcess(ops)
    ensures ServedSince(After(w, b, p, ops).l2, fp, g)
    decreases |ops|
  {
    if ops != [] {
      var n := |ops| - 1;
      RunServes(w, b, p, ops[..n], fp, g);
      StepEvolves(After(w, b, p, ops[..n]), b, p, ops[n]);
    }
  }

  lemma {:induction false} RunServes1(w: World, b: Backend, p: Policy, ops: seq<Op>, fp: string, g: nat)
    requires ServedSince1(w.l1, fp, g) && WithinProcess(ops)
    ensures ServedSince1(After(w, b, p, ops).l1, fp, g)
    decreases |ops|
  {
    if ops != [] {
      var n := |ops| - 1;
      RunServes1(w, b, p, ops[..n], fp, g);
      StepEvolves1(After(w, b, p, ops[..n]), b, p, ops[n]);
    }
  }

  lemma {:induction false} RunContinues(w: World, b: Backend, p: Policy, ops: seq<Op>)
    requires WithinProcess(ops)
    ensures var w' := After(w, b, p, ops);
            && w.l1.generation <= w'.l1.generation && w.l2.generation <= w'.l2.generation
            && forall id :: id in w.invs ==> id in w'.invs && SameTransactions(w.invs[id], w'.invs[id])
    decreases |ops|
  {
    if ops != [] {
      var n := |ops| - 1;
      RunContinues(w, b, p, ops[..n]);
      StepContinues(After(w, b, p, ops[..n]), b, p, ops[n]);
      StepEvolves(After(w, b, p, ops[..n]), b, p, ops[n]);
      StepEvolves1(After(w, b, p, ops[..n]), b, p, ops[n]);
    }
  }

  ghost predicate GenerationsPast(w: World) {
    forall id :: id in w.invs ==>
      && (w.invs[id].l1.Some? ==> w.invs[id].l1.value.generation <= w.l1.generation)
      && (w.invs[id].l2.Some? ==> w.invs[id].l2.value.generation <= w.l2.generation)
  }

  lemma {:induction false} RunGenerations(w: World, b: Backend, p: Policy, ops: seq<Op>)
    requires GenerationsPast(w)
    ensures GenerationsPast(After(w, b, p, ops))
    decreases |ops|
  {
    if ops != [] {
      var n := |ops| - 1;
      RunGenerations(w, b, p, ops[..n]);
      if !ops[n].Restart? {
        StepContinues(After(w, b, p, ops[..n]), b, p, ops[n]);
        StepEvolves(After(w, b, p, ops[..n]), b, p, ops[n]);
        StepEvolves1(After(w, b, p, ops[..n]), b, p, ops[n]);
      }
    }
  }

  /** Whoever wrote a readable entry of generation g or later began in g or later. */
  lemma WritersAreRecent(w: World, key: ConditionKey, g: nat)
    requires Attributed(w) && ServedSince(w.l2, L2.Fingerprint(key), g) && g > 0
    ensures L2.Readable(w.l2, key) ==>
              var writer := w.l2.store[key].writer;
              && writer in w.invs && w.invs[writer].l2.Some? && w.invs[writer].l2.value.generation >= g
  {
  }

  lemma InvalidationServes(w: World, op: Op, fp: string)
    requires op.InvalidateAllL2? || (op.InvalidateL2? && op.fingerprint == fp)
    ensures ServedSince(StepStores(w, op).l2, fp, w.l2.generation + 1)
    ensures StepStores(w, op).invs == w.invs
  {
  }

  /** Invalidation is a fence (L2).  Whatever the store did during the invalidation and
      whatever runs afterwards, an entry of an affected deployment that can be read was
      written by a transaction begun after the invalidation. */
  lemma InvalidationIsAFence(w0: World, b: Backend, p: Policy, before: seq<Op>, op: Op, after: seq<Op>, key: ConditionKey)
    requires Initial(w0) && WithinProcess(after)
    requires op.InvalidateAllL2? || (op.InvalidateL2? && op.fingerprint == L2.Fingerprint(key))
    ensures var w := After(w0, b, p, before);
            var w' := After(Step(w, b, p, op), b, p, after);
            L2.Readable(w'.l2, key) ==>
              var writer := w'.l2.store[key].writer;
              && writer in w'.invs && w'.invs[writer].l2.Some?
              && w'.invs[writer].l2.value.generation > w.l2.generation
              && (writer in w.invs ==> w.invs[writer].l2.None?)
  {
    var w := After(w0, b, p, before);
    var w1 := Step(w, b, p, op);
    RunAttributed(w0, b, p, before);
    RunGenerations(w0, b, p, before);
    StepAttributed(w, b, p, op);
    InvalidationServes(w, op, L2.Fingerprint(key));
    Settled(w1, b, p, after, key, w.l2.generation + 1);
  }

  lemma Settled(w: World, b: Backend, p: Policy, after: seq<Op>, key: ConditionKey, g: nat)
    requires WithinProcess(after) && Attributed(w) && ServedSince(w.l2, L2.Fingerprint(key), g) && g > 0
    ensures var w' := After(w, b, p, after);
            L2.Readable(w'.l2, key) ==>
              var writer := w'.l2.store[key].writer;
              && writer in w'.invs && w'.invs[writer].l2.Some? && w'.invs[writer].l2.value.generation >= g
              && (writer in w.invs && w.invs[writer].l2.Some? ==> w.invs[writer].l2.value.generation >= g)
  {
    RunAttributed(w, b, p, after);
    RunServes(w, b, p, after, L2.Fingerprint(key), g);
    RunContinues(w, b, p, after);
    WritersAreRecent(After(w, b, p, after), key, g);
  }

  /** The L0/L1 tier: the same fence by entry generations. */
  lemma InvalidationIsAFence1(w: World, b: Backend, p: Policy, op: Op, after: seq<Op>, slot: L1.Slot)
    requires WithinProcess(after)
    requires op.InvalidateAllL1? || (op.InvalidateL1? && op.fingerprint == L1.Fingerprint(slot))
    ensures var l1 := After(Step(w, b, p, op), b, p, after).l1;
            L1.Readable(l1, slot) ==> l1.store[slot].generation > w.l1.generation
  {
    var w1 := Step(w, b, p, op);
    assert ServedSince1(w1.l1, L1.Fingerprint(slot), w.l1.generation + 1);
    RunServes1(w1, b, p, after, L1.Fingerprint(slot), w.l1.generation + 1);
  }

  /** No transaction begun before an invalidation of its tier (of any deployment, in
      fact) ever writes: at whatever later point it commits, the stores stay as they are. */
  lemma OldTransactionsNeverWrite(w0: World, b: Backend, p: Policy, before: seq<Op>, op: Op, after: seq<Op>, commit: Op)
    requires Initial(w0) && WithinProcess(after) && (commit.CommitL1? || commit.CommitL2?)
    requires commit.id in After(w0, b, p, before).invs
    requires commit.CommitL1? ==> op.InvalidateL1? || op.InvalidateAllL1?
    requires commit.CommitL2? ==> op.InvalidateL2? || op.InvalidateAllL2?
    ensures var w := After(w0, b, p, before);
            var w' := After(Step(w, b, p, op), b, p, after);
            && (commit.CommitL1? && w.invs[commit.id].l1.Some? ==> Step(w', b, p, commit).l1 == w'.l1)
            && (commit.CommitL2? && w.invs[commit.id].l2.Some? ==> Step(w', b, p, commit).l2 == w'.l2)
  {
    var w := After(w0, b, p, before);
    var w1 := Step(w, b, p, op);
    RunGenerations(w0, b, p, before);
    assert w1.invs == w.invs;
    RunContinues(w1, b, p, after);
    var w' := After(w1, b, p, after);
    if commit.CommitL1? && w.invs[commit.id].l1.Some? {
      StaleCommitL1(w', p, commit);
    }
    if commit.CommitL2? && w.invs[commit.id].l2.Some? {
      StaleCommitL2(w', p, commit);
    }
  }

  lemma StaleCommitL1(w: World, p: Policy, op: Op)
    requires op.CommitL1? && op.id in w.invs && w.invs[op.id].l1.Some?
    requires w.invs[op.id].l1.value.generation < w.l1.generation
    ensures StepCommitL1(w, p, op).l1 == w.l1
  {
  }

  lemma StaleCommitL2(w: World, p: Policy, op: Op)
    requires op.CommitL2? && op.id in w.invs && w.invs[op.id].l2.Some?
    requires w.invs[op.id].l2.value.generation < w.l2.generation
    ensures StepCommitL2(w, p, op).l2 == w.l2
  {
  }

  /** A deployment found disabled at any point is served again, if ever, only from
      entries written under a later generation: everything it held was deleted. */
  lemma DisabledUntilEmptied(w: World, b: Backend, p: Policy, after: seq<Op>, key: ConditionKey)
    requires WithinProcess(after) && L2.Disabled(w.l2, L2.Fingerprint(key))
    ensures var l2 := After(w, b, p, after).l2;
            L2.Readable(l2, key) ==> l2.store[key].generation > w.l2.generation
  {
    assert ServedSince(w.l2, L2.Fingerprint(key), w.l2.generation + 1);
    RunServes(w, b, p, after, L2.Fingerprint(key), w.l2.generation + 1);
  }
}
