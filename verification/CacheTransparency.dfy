/** Cache transparency over whole histories. */
module CacheTransparency {
  import opened Common
  import opened CacheKeys
  import opened StagedPath
  import opened CacheHistory
  import L1 = L0L1Cache
  import L2 = ConditionCache

  // ------------------------------------------------------- what the stores must hold

  ghost predicate PreprocessEntry(b: Backend, p: Policy, key: CacheKey, bytes: Bytes) {
    forall i: Inputs, d: Deployment :: FromRequest(i, d, p) == Some(key) ==> PreprocessExport(b, bytes, i, d)
  }

  ghost predicate FeatureEntry(b: Backend, p: Policy, key: CacheKey, role: FeatureRole, bytes: Bytes) {
    forall i: Inputs, d: Deployment :: FromRequest(i, d, p) == Some(key) ==> FeatureExport(b, role, bytes, i, d)
  }

  ghost predicate SoundContent(b: Backend, p: Policy, slot: L1.Slot, content: L1.Content) {
    match slot.tier
    case L0Metadata => content == L1.Canonical(slot.key)
    case L1Preprocess => content.Exported? && PreprocessEntry(b, p, slot.key, content.bytes)
  }

  ghost predicate SoundL1(b: Backend, p: Policy, s: L1.State) {
    forall slot :: slot in s.store ==> SoundContent(b, p, slot, s.store[slot].sealed)
  }

  /** Every digest-intact L2 entry holds the backend's own export for its key. */
  ghost predicate SoundL2(b: Backend, p: Policy, s: L2.State) {
    forall key :: key in s.store ==> FeatureEntry(b, p, key.parent, key.role, s.store[key].sealed)
  }

  lemma PreprocessEntryFrom(b: Backend, p: Policy, key: CacheKey, bytes: Bytes, i: Inputs, d: Deployment)
    requires FromRequest(i, d, p) == Some(key) && PreprocessExport(b, bytes, i, d)
    ensures PreprocessEntry(b, p, key, bytes)
  {
    forall j: Inputs, e: Deployment | FromRequest(j, e, p) == Some(key) ensures PreprocessExport(b, bytes, j, e) {
      KeyDeterminesObservation(i, d, j, e, p);
    }
  }

  lemma FeatureEntryFrom(b: Backend, p: Policy, key: CacheKey, role: FeatureRole, bytes: Bytes, i: Inputs, d: Deployment)
    requires FromRequest(i, d, p) == Some(key) && FeatureExport(b, role, bytes, i, d)
    ensures FeatureEntry(b, p, key, role, bytes)
  {
    forall j: Inputs, e: Deployment | FromRequest(j, e, p) == Some(key) ensures FeatureExport(b, role, bytes, j, e) {
      KeyDeterminesObservation(i, d, j, e, p);
    }
  }

  // --------------------------------------------------------- stores stay sound

  lemma BeginReadsSound(b: Backend, p: Policy, s: L1.State, key: CacheKey, l0: L1.GetCall, l1: L1.GetCall)
    requires SoundL1(b, p, s)
    ensures var (s', payload, hit) := L1.BeginReads(s, key, l0, l1);
            SoundL1(b, p, s') && (payload.Some? ==> PreprocessEntry(b, p, key, payload.value))
  {
    var (s1, metadata) := L1.Read(s, L1.Slot(L1.L0Metadata, key), Some(L1.Canonical(key)), l0);
    assert SoundL1(b, p, s1);
    var slot := L1.Slot(L1.L1Preprocess, key);
    assert slot in s1.store ==> SoundContent(b, p, slot, s1.store[slot].sealed);
  }

  lemma PutsSound(b: Backend, p: Policy, s: L1.State, pending: seq<(L1.Slot, L1.Content)>, calls: nat -> L1.PutCall, k: nat)
    requires SoundL1(b, p, s)
    requires forall j :: 0 <= j < |pending| ==> SoundContent(b, p, pending[j].0, pending[j].1)
    ensures SoundL1(b, p, L1.Puts(s, pending, calls, k))
    decreases |pending|
  {
    if pending != [] {
      var s1 := L1.SafePut(s, pending[0].0, pending[0].1, calls(k)).0;
      assert SoundL1(b, p, s1);
      PutsSound(b, p, s1, pending[1..], calls, k + 1);
    }
  }

  ghost predicate SoundCached(b: Backend, p: Policy, parent: CacheKey, cached: map<FeatureRole, Bytes>) {
    forall role :: role in cached ==> FeatureEntry(b, p, parent, role, cached[role])
  }

  lemma ReadRolesSound(b: Backend, p: Policy, s: L2.State, parent: CacheKey, roles: seq<FeatureRole>, calls: nat -> L2.GetCall)
    requires SoundL2(b, p, s)
    ensures var (s', cached) := L2.ReadRoles(s, parent, roles, p, calls);
            SoundL2(b, p, s') && SoundCached(b, p, parent, cached)
  {
    if roles != [] {
      var n := |roles| - 1;
      ReadRolesSound(b, p, s, parent, roles[..n], calls);
      var (s1, cached) := L2.ReadRoles(s, parent, roles[..n], p, calls);
      var key := KeyForParent(parent, roles[n], p);
      var (s2, payload) := L2.Read(s1, key, calls(n));
      assert key in s1.store ==> FeatureEntry(b, p, key.parent, key.role, s1.store[key].sealed);
      assert SoundL2(b, p, s2);
    }
  }

  ghost predicate SoundPending(b: Backend, p: Policy, pending: seq<(ConditionKey, Bytes)>) {
    forall j :: 0 <= j < |pending| ==> FeatureEntry(b, p, pending[j].0.parent, pending[j].0.role, pending[j].1)
  }

  lemma CommitPutsSound(b: Backend, p: Policy, s: L2.State, writer: Id, stored: seq<ConditionKey>,
                        pending: seq<(ConditionKey, Bytes)>, calls: nat -> L2.PutCall, cancelled: nat -> bool, k: nat)
    requires SoundL2(b, p, s) && SoundPending(b, p, pending)
    ensures SoundL2(b, p, L2.CommitPuts(s, writer, stored, pending, calls, cancelled, k).0)
    decreases |pending|
  {
    if !cancelled(k) && pending != [] {
      var (s1, result) := L2.SafePut(s, pending[0].0, pending[0].1, writer, calls(k));
      assert SoundL2(b, p, s1);
      assert SoundPending(b, p, pending[1..]);
      CommitPutsSound(b, p, s1, writer, if result.Stored? then stored + [pending[0].0] else stored,
                      pending[1..], calls, cancelled, k + 1);
    }
  }

  lemma RollbackSound(b: Backend, p: Policy, s: L2.State, keys: seq<ConditionKey>, calls: nat -> L2.DeleteCall)
    requires SoundL2(b, p, s)
    ensures SoundL2(b, p, L2.Rollback(s, keys, calls))
    decreases |keys|
  {
    if keys != [] {
      var n := |keys| - 1;
      RollbackSound(b, p, L2.SafeDelete(s, keys[n], calls(n)), keys[..n], calls);
    }
  }

  // --------------------------------------------------------- what each invocation keeps

  ghost predicate NoRecurrence(history: seq<Inputs>) {
    && history != []
    && (forall k :: 0 <= k < |history| ==> history[k].request == history[0].request)
    && (forall j, k :: 0 <= j < k < |history| ==> history[j] != history[k])
  }

  /** A cached preprocess value is only combined with an L2 transaction of the same key. */
  predicate Aligned(inv: Invocation) {
    CachedPreprocess(inv).Some? && inv.l2.Some? ==> inv.l1.value.key == inv.l2.value.parent
  }

  /** Nothing the invocation read or ran on has changed since. */
  predicate Steadfast(inv: Invocation) {
    && |inv.history| == inv.start + 1
    && (CachedPreprocess(inv).Some? ==> inv.start == 0)
  }

  ghost predicate SoundRun(b: Backend, p: Policy, inv: Invocation)
    requires inv.start < |inv.history|
  {
    && inv.payloads == Uncached(b, inv.history[inv.start], inv.deployment).payloads
    && (inv.l2.Some? ==> SoundPending(b, p, inv.l2.value.pending))
    && (inv.l1.Some? && inv.start == 0 ==>
          forall j :: 0 <= j < |inv.l1.value.pending| ==>
            SoundContent(b, p, inv.l1.value.pending[j].0, inv.l1.value.pending[j].1))
  }

  ghost predicate SoundInvocation(b: Backend, p: Policy, inv: Invocation) {
    && NoRecurrence(inv.history) && inv.start < |inv.history| && Aligned(inv)
    && (inv.l1.Some? ==>
          && FromRequest(inv.history[0], inv.deployment, p) == Some(inv.l1.value.key)
          && (inv.l1.value.cached.Some? ==> PreprocessEntry(b, p, inv.l1.value.key, inv.l1.value.cached.value)))
    && (inv.l2.Some? ==>
          && FromRequest(inv.history[inv.start], inv.deployment, p) == Some(inv.l2.value.parent)
          && SoundCached(b, p, inv.l2.value.parent, inv.l2.value.cached))
    && (inv.phase.L1Begun? ==> inv.start == 0 && inv.l2.None?)
    && (Early(inv.phase) ==> !inv.checked)
    && ((inv.phase.Executed? || Committing(inv.phase)) && Steadfast(inv) ==> SoundRun(b, p, inv))
    && (inv.checked && Committing(inv.phase) ==>
          inv.payloads == Uncached(b, inv.history[inv.start], inv.deployment).payloads)
  }

  ghost predicate SoundWorld(b: Backend, p: Policy, w: World) {
    && SoundL1(b, p, w.l1) && SoundL2(b, p, w.l2)
    && (forall id :: id in w.invs ==> SoundInvocation(b, p, w.invs[id]))
  }

  /** The caller's side of the bargain for transparency: an invocation that took a cached
      preprocess value and begins an L2 transaction begins it on unchanged inputs. */
  predicate AlignedOp(w: World, p: Policy, op: Op) {
    op.BeginL2? && op.id in w.invs && w.invs[op.id].history != [] && CachedPreprocess(w.invs[op.id]).Some? ==>
      var t := BeginTransaction(w.l2, w.invs[op.id], p, op.l2Enabled, op.gets).1;
      t.Some? ==> t.value.parent == w.invs[op.id].l1.value.key
  }

  ghost predicate AlignedRun(w: World, b: Backend, p: Policy, ops: seq<Op>)
    decreases |ops|
  {
    ops == [] || (AlignedRun(w, b, p, ops[..|ops| - 1])
                  && AlignedOp(After(w, b, p, ops[..|ops| - 1]), p, ops[|ops| - 1]))
  }

  // ------------------------------------------------------------------- step by step

  lemma FreshKeepsNoRecurrence(history: seq<Inputs>, drift: seq<Inputs>)
    requires NoRecurrence(history) && Fresh(history, drift)
    ensures NoRecurrence(history + drift)
  {
    var all := history + drift;
    forall j, k | 0 <= j < k < |all| ensures all[j] != all[k] {
      if k >= |history| && j < |history| {
        assert all[j] in history;
      }
    }
  }

  /** A passed key comparison pins the inputs: the last inputs are those at index k. */
  lemma KeyPins(history: seq<Inputs>, k: nat, d: Deployment, p: Policy, key: CacheKey)
    requires NoRecurrence(history) && k < |history|
    requires FromRequest(history[k], d, p) == Some(key)
    requires FromRequest(history[|history| - 1], d, p) == Some(key)
    ensures k == |history| - 1
  {
    KeyDeterminesObservation(history[k], d, history[|history| - 1], d, p);
  }

  lemma ViewsPinned(v: Views, since: seq<Inputs>)
    requires ViewsFrom(v, since) && |since| == 1
    ensures AllSee(v, since[0])
  {
  }

  lemma UpdateSound(w: World, b: Backend, p: Policy, id: Id, inv: Invocation, w': World)
    requires SoundWorld(b, p, w) && SoundInvocation(b, p, inv)
    requires SoundL1(b, p, w'.l1) && SoundL2(b, p, w'.l2) && w'.invs == w.invs[id := inv]
    ensures SoundWorld(b, p, w')
  {
  }

  lemma DriftKeeps(b: Backend, p: Policy, inv: Invocation, drift: seq<Inputs>)
    requires SoundInvocation(b, p, inv) && Fresh(inv.history, drift)
    ensures SoundInvocation(b, p, inv.(history := inv.history + drift))
  {
    FreshKeepsNoRecurrence(inv.history, drift);
    var later := inv.(history := inv.history + drift);
    assert later.history[inv.start] == inv.history[inv.start] && later.history[0] == inv.history[0];
    assert Steadfast(later) ==> Steadfast(inv);
  }

  lemma BeginL2Keeps(b: Backend, p: Policy, inv: Invocation, t: Option<L2Transaction>)
    requires SoundInvocation(b, p, inv) && inv.phase.L1Begun?
    requires t.Some? ==> FromRequest(Current(inv), inv.deployment, p) == Some(t.value.parent)
                         && SoundCached(b, p, t.value.parent, t.value.cached)
                         && (CachedPreprocess(inv).Some? ==> inv.l1.value.key == t.value.parent)
    ensures SoundInvocation(b, p, inv.(start := |inv.history| - 1, phase := L2Begun, l2 := t))
  {
  }

  lemma BeginTransactionSound(b: Backend, p: Policy, s: L2.State, inv: Invocation, enabled: bool, gets: nat -> L2.GetCall)
    requires SoundL2(b, p, s) && inv.history != []
    ensures var (s', t) := BeginTransaction(s, inv, p, enabled, gets);
            && SoundL2(b, p, s')
            && (t.Some? ==> FromRequest(Current(inv), inv.deployment, p) == Some(t.value.parent)
                            && SoundCached(b, p, t.value.parent, t.value.cached))
  {
    var key := FromRequest(Current(inv), inv.deployment, p);
    if key.Some? {
      ReadRolesSound(b, p, s, key.value, FeatureRoles(CacheHistory.Task(inv)), gets);
    }
  }

  lemma BeginL2Sound(w: World, b: Backend, p: Policy, op: Op)
    requires SoundWorld(b, p, w) && op.BeginL2? && AlignedOp(w, p, op)
    ensures SoundWorld(b, p, StepBeginL2(w, p, op))
  {
    var w' := StepBeginL2(w, p, op);
    if w' != w {
      var inv := w.invs[op.id];
      BeginTransactionSound(b, p, w.l2, inv, op.l2Enabled, op.gets);
      BeginL2Keeps(b, p, inv, BeginTransaction(w.l2, inv, p, op.l2Enabled, op.gets).1);
      UpdateSound(w, b, p, op.id, w'.invs[op.id], w');
    }
  }

  /** Execution on unchanged inputs gives the uncached payloads, and everything it
      stages for the caches is an export of the backend. */
  lemma ExecutingSound(b: Backend, p: Policy, inv: Invocation, views: Views)
    requires Faithful(b) && SoundInvocation(b, p, inv) && inv.phase.L2Begun? && Steadfast(inv)
    requires ViewsFrom(views, inv.history[inv.start..])
    requires RunOf(inv, b, views).Some?
    ensures var run := RunOf(inv, b, views).value;
            SoundRun(b, p, Executing(inv, Some(run), p))
  {
    var i, d := inv.history[inv.start], inv.deployment;
    ViewsPinned(views, inv.history[inv.start..]);
    var run := Run(b, CacheHistory.Task(inv), CachedPreprocess(inv), CachedFeatures(inv), views, d).value;
    RunIsTransparent(b, CachedPreprocess(inv), CachedFeatures(inv), views, i, d);
    var roles := FeatureRoles(CacheHistory.Task(inv));
    if inv.l2.Some? && |run.features| == |roles| {
      var captures := Captures(roles, run.features);
      var pending := PendingL2(inv.l2.value.parent, captures, p);
      forall j | 0 <= j < |pending| ensures FeatureEntry(b, p, pending[j].0.parent, pending[j].0.role, pending[j].1) {
        assert captures[j] in captures;
        FeatureEntryFrom(b, p, inv.l2.value.parent, captures[j].0, captures[j].1, i, d);
      }
    }
    if inv.l1.Some? && inv.start == 0 && run.preprocess.captured.Some? {
      PreprocessEntryFrom(b, p, inv.l1.value.key, run.preprocess.captured.value, i, d);
    }
  }

  lemma ExecutingKeeps(b: Backend, p: Policy, inv: Invocation, views: Views)
    requires Faithful(b) && SoundInvocation(b, p, inv) && inv.phase.L2Begun?
    requires ViewsFrom(views, inv.history[inv.start..])
    requires RunOf(inv, b, views).Some?
    ensures var run := RunOf(inv, b, views).value;
            SoundInvocation(b, p, Executing(inv, Some(run), p))
  {
    var run := RunOf(inv, b, views).value;
    if Steadfast(inv) {
      ExecutingSound(b, p, inv, views);
    }
    var after := Executing(inv, Some(run), p);
    assert Steadfast(after) ==> Steadfast(inv);
    assert after.l1.Some? ==> inv.l1.Some? && after.l1.value.key == inv.l1.value.key && after.l1.value.cached == inv.l1.value.cached;
    assert after.l2.Some? ==> inv.l2.Some? && after.l2.value.parent == inv.l2.value.parent && after.l2.value.cached == inv.l2.value.cached;
  }

  lemma ExecuteSound(w: World, b: Backend, p: Policy, op: Op)
    requires Faithful(b) && SoundWorld(b, p, w) && op.Execute?
    ensures SoundWorld(b, p, StepExecute(w, b, p, op))
  {
    var w' := StepExecute(w, b, p, op);
    if w' != w {
      var inv := w.invs[op.id].(history := w.invs[op.id].history + op.drift);
      DriftKeeps(b, p, w.invs[op.id], op.drift);
      if RunOf(inv, b, op.views).Some? {
        ExecutingKeeps(b, p, inv, op.views);
      } else {
        UnwindingKeeps(b, p, inv);
      }
      UpdateSound(w, b, p, op.id, w'.invs[op.id], w');
    }
  }

  lemma UnwindingKeeps(b: Backend, p: Policy, inv: Invocation)
    requires SoundInvocation(b, p, inv)
    ensures SoundInvocation(b, p, inv.(phase := Unwinding)) && SoundInvocation(b, p, inv.(phase := Failed))
    ensures inv.l2.Some? ==>
              forall stored :: SoundInvocation(b, p, inv.(phase := Unwinding, l2 := Some(inv.l2.value.(newlyStored := stored))))
  {
  }

  /** Inputs that pass the L2 key comparison are those everything ran on. */
  lemma L2KeyPins(b: Backend, p: Policy, inv: Invocation)
    requires SoundInvocation(b, p, inv) && inv.l2.Some?
    requires FromRequest(Current(inv), inv.deployment, p) == Some(inv.l2.value.parent)
    ensures Steadfast(inv)
  {
    KeyPins(inv.history, inv.start, inv.deployment, p, inv.l2.value.parent);
    if CachedPreprocess(inv).Some? {
      KeyPins(inv.history, 0, inv.deployment, p, inv.l2.value.parent);
    }
  }

  lemma CommitL2Keeps(b: Backend, p: Policy, inv: Invocation, drift: seq<Inputs>, stored: seq<ConditionKey>, raised: bool)
    requires SoundInvocation(b, p, inv) && inv.l2.Some? && inv.phase.Executed? && Fresh(inv.history, drift)
    requires FromRequest(Current(inv), inv.deployment, p) == Some(inv.l2.value.parent)
    requires !raised ==>
               FromRequest(Current(inv.(history := inv.history + drift)), inv.deployment, p) == Some(inv.l2.value.parent)
    ensures SoundInvocation(b, p, inv.(history := inv.history + drift, checked := true,
                                       l2 := Some(inv.l2.value.(pending := [], newlyStored := stored)),
                                       phase := if raised then Unwinding else L2Committed))
  {
    L2KeyPins(b, p, inv);
    DriftKeeps(b, p, inv, drift);
    if !raised {
      L2KeyPins(b, p, inv.(history := inv.history + drift));
    }
  }

  lemma CommitWritesSound(b: Backend, p: Policy, s: L2.State, writer: Id, pending: seq<(ConditionKey, Bytes)>,
                          puts: nat -> L2.PutCall, cancelled: nat -> bool, revalidated: bool, deletes: nat -> L2.DeleteCall)
    requires SoundL2(b, p, s) && SoundPending(b, p, pending)
    ensures SoundL2(b, p, L2.CommitWrites(s, writer, pending, puts, cancelled, revalidated, deletes).0)
  {
    var (s1, stored, raised) := L2.CommitPuts(s, writer, [], pending, puts, cancelled, 0);
    CommitPutsSound(b, p, s, writer, [], pending, puts, cancelled, 0);
    RollbackSound(b, p, s1, stored, deletes);
  }

  /** The transaction still stands: its generation and its key are current. */
  predicate L2Stands(w: World, p: Policy, inv: Invocation)
    requires inv.history != []
  {
    && inv.l2.Some? && inv.l2.value.generation == w.l2.generation
    && FromRequest(Current(inv), inv.deployment, p) == Some(inv.l2.value.parent)
  }

  lemma StaleCommitL2Keeps(b: Backend, p: Policy, inv: Invocation)
    requires SoundInvocation(b, p, inv) && inv.phase.Executed?
    ensures SoundInvocation(b, p, inv.(phase := Unwinding)) && SoundInvocation(b, p, inv.(phase := L2Committed))
    ensures inv.l2.Some? ==>
              SoundInvocation(b, p, inv.(l2 := Some(inv.l2.value.(pending := [])), phase := L2Committed))
  {
  }

  lemma StaleCommitL2Sound(w: World, b: Backend, p: Policy, op: Op)
    requires SoundWorld(b, p, w) && op.CommitL2?
    requires op.id in w.invs && w.invs[op.id].history != [] && !L2Stands(w, p, w.invs[op.id])
    ensures SoundWorld(b, p, StepCommitL2(w, p, op))
  {
    var w' := StepCommitL2(w, p, op);
    if w' != w {
      StaleCommitL2Keeps(b, p, w.invs[op.id]);
      UpdateSound(w, b, p, op.id, w'.invs[op.id], w');
    }
  }

  lemma CommitL2Sound(w: World, b: Backend, p: Policy, op: Op)
    requires SoundWorld(b, p, w) && op.CommitL2?
    ensures SoundWorld(b, p, StepCommitL2(w, p, op))
  {
    var w' := StepCommitL2(w, p, op);
    if w' != w {
      var inv := w.invs[op.id];
      if L2Stands(w, p, inv) {
        var t := inv.l2.value;
        var later := inv.(history := inv.history + op.drift);
        var revalidated := FromRequest(Current(later), inv.deployment, p) == Some(t.parent);
        var (l2, stored, outcome) := L2.CommitWrites(w.l2, op.id, t.pending, op.puts, op.cancelled, revalidated, op.deletes);
        L2KeyPins(b, p, inv);
        CommitL2Keeps(b, p, inv, op.drift, stored, outcome.Raised?);
        CommitWritesSound(b, p, w.l2, op.id, t.pending, op.puts, op.cancelled, revalidated, op.deletes);
        UpdateSound(w, b, p, op.id, w'.invs[op.id], w');
      } else {
        StaleCommitL2Sound(w, b, p, op);
      }
    }
  }

  lemma CommitL1Keeps(b: Backend, p: Policy, inv: Invocation, committed: bool)
    requires SoundInvocation(b, p, inv) && inv.phase.L2Committed?
    requires committed ==>
               inv.l1.Some? && FromRequest(Current(inv), inv.deployment, p) == Some(inv.l1.value.key)
    ensures SoundInvocation(b, p, inv.(phase := L1Committed, checked := inv.checked || committed))
    ensures committed ==> Steadfast(inv) && inv.start == 0
  {
    if committed {
      KeyPins(inv.history, 0, inv.deployment, p, inv.l1.value.key);
    }
  }

  lemma L1CommitSound(b: Backend, p: Policy, s: L1.State, key: CacheKey, generation: nat, current: Option<CacheKey>,
                      pending: seq<(L1.Slot, L1.Content)>, puts: nat -> L1.PutCall)
    requires SoundL1(b, p, s)
    requires current == Some(key) ==> forall j :: 0 <= j < |pending| ==> SoundContent(b, p, pending[j].0, pending[j].1)
    ensures var (s', outcome) := L1.Commit(s, key, generation, current, pending, puts);
            SoundL1(b, p, s') && (outcome.Committed? ==> current == Some(key))
  {
    if generation == s.generation && current == Some(key) {
      PutsSound(b, p, s, pending, puts, 0);
    }
  }

  lemma CommitL1Sound(w: World, b: Backend, p: Policy, op: Op)
    requires SoundWorld(b, p, w) && op.CommitL1?
    ensures SoundWorld(b, p, StepCommitL1(w, p, op))
  {
    var w' := StepCommitL1(w, p, op);
    if w' != w {
      var inv := w.invs[op.id];
      UnwindingKeeps(b, p, inv);
      CommitL1Keeps(b, p, inv, false);
      if inv.l1.Some? {
        var t := inv.l1.value;
        var current := FromRequest(Current(inv), inv.deployment, p);
        if current == Some(t.key) {
          CommitL1Keeps(b, p, inv, true);
        }
        L1CommitSound(b, p, w.l1, t.key, t.generation, current, t.pending, op.l1Puts);
      }
      UpdateSound(w, b, p, op.id, w'.invs[op.id], w');
    }
  }

  lemma FinishKeeps(b: Backend, p: Policy, inv: Invocation)
    requires SoundInvocation(b, p, inv) && inv.phase.L1Committed?
    requires inv.l2.Some? ==> FromRequest(Current(inv), inv.deployment, p) == Some(inv.l2.value.parent)
    ensures SoundInvocation(b, p, inv.(phase := Returned, checked := inv.checked || inv.l2.Some?))
  {
    if inv.l2.Some? {
      L2KeyPins(b, p, inv);
    }
  }

  lemma FinishSound(w: World, b: Backend, p: Policy, op: Op)
    requires SoundWorld(b, p, w) && op.Finish?
    ensures SoundWorld(b, p, StepFinish(w, p, op))
  {
    var w' := StepFinish(w, p, op);
    if w' != w {
      if w'.invs[op.id].phase.Returned? {
        FinishKeeps(b, p, w.invs[op.id]);
      } else {
        UnwindingKeeps(b, p, w.invs[op.id]);
      }
      UpdateSound(w, b, p, op.id, w'.invs[op.id], w');
    }
  }

  lemma DriftSound(w: World, b: Backend, p: Policy, op: Op)
    requires SoundWorld(b, p, w) && op.Drift?
    ensures SoundWorld(b, p, StepDrift(w, op))
  {
    if op.id in w.invs && Fresh(w.invs[op.id].history, op.drift) {
      DriftKeeps(b, p, w.invs[op.id], op.drift);
    }
  }

  lemma BeginSound(w: World, b: Backend, p: Policy, op: Op)
    requires SoundWorld(b, p, w) && op.Begin?
    ensures SoundWorld(b, p, StepBegin(w, p, op))
  {
    var key := FromRequest(op.inputs, op.deployment, p);
    if key.Some? {
      BeginReadsSound(b, p, w.l1, key.value, op.metadataCall, op.payloadCall);
    }
  }

  lemma FailSound(w: World, b: Backend, p: Policy, op: Op)
    requires SoundWorld(b, p, w) && op.Fail?
    ensures SoundWorld(b, p, StepFail(w, op))
  {
    var w' := StepFail(w, op);
    if w' != w {
      UnwindingKeeps(b, p, w.invs[op.id]);
      UpdateSound(w, b, p, op.id, w'.invs[op.id], w');
    }
  }

  lemma DeleteSound(b: Backend, p: Policy, s: L2.State, key: ConditionKey, call: L2.DeleteCall)
    requires SoundL2(b, p, s)
    ensures SoundL2(b, p, L2.SafeDelete(s, key, call))
  {
  }

  lemma UnwindSound(w: World, b: Backend, p: Policy, op: Op)
    requires SoundWorld(b, p, w) && op.Unwind?
    ensures SoundWorld(b, p, StepUnwind(w, op))
  {
    var w' := StepUnwind(w, op);
    if w' != w {
      var inv := w.invs[op.id];
      UnwindingKeeps(b, p, inv);
      if inv.l2.Some? && inv.l2.value.newlyStored != [] {
        DeleteSound(b, p, w.l2, inv.l2.value.newlyStored[|inv.l2.value.newlyStored| - 1], op.deletion);
      }
      UpdateSound(w, b, p, op.id, w'.invs[op.id], w');
    }
  }

  lemma StoresSound(w: World, b: Backend, p: Policy, op: Op)
    requires SoundWorld(b, p, w)
    ensures SoundWorld(b, p, StepStores(w, op))
  {
    StoresKeepSeals(w, op);
    var w' := StepStores(w, op);
    assert SoundL1(b, p, w'.l1);
    assert SoundL2(b, p, w'.l2);
    assert w'.invs == w.invs;
  }

  /** The surroundings only ever drop entries or damage payloads. */
  lemma StoresKeepSeals(w: World, op: Op)
    ensures StepStores(w, op).invs == w.invs
    ensures forall slot :: slot in StepStores(w, op).l1.store ==>
              slot in w.l1.store && StepStores(w, op).l1.store[slot].sealed == w.l1.store[slot].sealed
    ensures forall key :: key in StepStores(w, op).l2.store ==>
              key in w.l2.store && StepStores(w, op).l2.store[key].sealed == w.l2.store[key].sealed
  {
    var w' := StepStores(w, op);
    forall slot | slot in w'.l1.store ensures slot in w.l1.store && w'.l1.store[slot].sealed == w.l1.store[slot].sealed {
    }
    forall key | key in w'.l2.store ensures key in w.l2.store && w'.l2.store[key].sealed == w.l2.store[key].sealed {
    }
  }

  lemma RestartSound(w: World, b: Backend, p: Policy)
    requires SoundWorld(b, p, w)
    ensures SoundWorld(b, p, StepRestart(w))
  {
  }

  lemma StepSound(w: World, b: Backend, p: Policy, op: Op)
    requires Faithful(b) && SoundWorld(b, p, w) && AlignedOp(w, p, op)
    ensures SoundWorld(b, p, Step(w, b, p, op))
  {
    if op.Begin? {
      BeginSound(w, b, p, op);
    } else if op.BeginL2? {
      BeginL2Sound(w, b, p, op);
    } else if op.Execute? {
      ExecuteSound(w, b, p, op);
    } else if op.CommitL2? {
      CommitL2Sound(w, b, p, op);
    } else if op.CommitL1? {
      CommitL1Sound(w, b, p, op);
    } else if op.Finish? {
      FinishSound(w, b, p, op);
    } else if op.Drift? {
      DriftSound(w, b, p, op);
    } else if op.Fail? {
      FailSound(w, b, p, op);
    } else if op.Unwind? {
      UnwindSound(w, b, p, op);
    } else if op.Restart? {
      RestartSound(w, b, p);
    } else {
      StoresSound(w, b, p, op);
    }
  }

  lemma {:induction false} RunSound(w: World, b: Backend, p: Policy, ops: seq<Op>)
    requires Faithful(b) && SoundWorld(b, p, w) && AlignedRun(w, b, p, ops)
    ensures SoundWorld(b, p, After(w, b, p, ops))
    decreases |ops|
  {
    if ops != [] {
      var n := |ops| - 1;
      RunSound(w, b, p, ops[..n]);
      StepSound(After(w, b, p, ops[..n]), b, p, ops[n]);
    }
  }

  /** Cache transparency.  In every history over a faithful backend, starting from a
      sound disk cache, an invocation that returned, and whose inputs did not change or
      passed at least one key comparison, returned the four stage payloads of the uncached
      run on the inputs it started from, which are the backend's own calls nested; and every digest-intact L2 entry is the backend's
      export for its key. */
  lemma CacheIsTransparent(w: World, b: Backend, p: Policy, ops: seq<Op>, id: Id)
    requires Faithful(b) && Initial(w) && SoundL2(b, p, w.l2) && AlignedRun(w, b, p, ops)
    ensures SoundL2(b, p, After(w, b, p, ops).l2)
    ensures var w' := After(w, b, p, ops);
            id in w'.invs && w'.invs[id].phase.Returned? && (w'.invs[id].checked || Steadfast(w'.invs[id])) ==>
              && w'.invs[id].start < |w'.invs[id].history|
              && var inputs, d := w'.invs[id].history[w'.invs[id].start], w'.invs[id].deployment;
                 w'.invs[id].payloads == Uncached(b, inputs, d).payloads == Direct(b, inputs, d)
  {
    RunSound(w, b, p, ops);
    var w' := After(w, b, p, ops);
    if id in w'.invs {
      assert SoundInvocation(b, p, w'.invs[id]);
      if w'.invs[id].start < |w'.invs[id].history| {
        UncachedIsDirect(b, w'.invs[id].history[w'.invs[id].start], w'.invs[id].deployment);
      }
    }
  }
}
