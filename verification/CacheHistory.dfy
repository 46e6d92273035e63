/** Whole histories of the two-tier cached adapter: any number of invocations in flight,
    interleaved at the facades' lock granularity with drift of the input files, eviction,
    expiry, corruption, store faults, invalidation and failure of invocations. */
module CacheHistory {
  import opened Common
  import opened CacheKeys
  import opened StagedPath
  import L1 = L0L1Cache
  import L2 = ConditionCache

  type Id = nat

  datatype L1Transaction = L1Transaction(key: CacheKey, generation: nat, cached: Option<Bytes>, metadataHit: bool,
                                         pending: seq<(L1.Slot, L1.Content)>)
  datatype L2Transaction = L2Transaction(parent: CacheKey, generation: nat, cached: map<FeatureRole, Bytes>,
                                         pending: seq<(ConditionKey, Bytes)>, newlyStored: seq<ConditionKey>)

  /** Where `_invoke_staged_profiled` stands. */
  datatype Phase = L1Begun | L2Begun | Executed | L2Committed | L1Committed | Returned | Unwinding | Failed

  predicate Early(phase: Phase) {
    phase.L1Begun? || phase.L2Begun? || phase.Executed?
  }

  predicate Committing(phase: Phase) {
    phase.L2Committed? || phase.L1Committed? || phase.Returned?
  }

  predicate Ended(phase: Phase) {
    phase.Returned? || phase.Unwinding? || phase.Failed?
  }

  /** `history` lists the inputs behind the request since the invocation began; the last
      one is current and none recurs (no A-B-A).  `start` indexes the inputs at the
      second begin.  `checked` records that a key comparison passed after execution. */
  datatype Invocation = Invocation(
    deployment: Deployment,
    history: seq<Inputs>,
    start: nat,
    l1: Option<L1Transaction>,
    l2: Option<L2Transaction>,
    payloads: seq<Bytes>,
    checked: bool,
    phase: Phase)

  /** `prior` are the writers of earlier processes, `failed` those of them that failed. */
  datatype World = World(
    l1: L1.State,
    l2: L2.State,
    invs: map<Id, Invocation>,
    prior: set<Id>,
    failed: set<Id>)

  datatype Op =
    | Begin(id: Id, deployment: Deployment, inputs: Inputs, l1Enabled: bool, metadataCall: L1.GetCall, payloadCall: L1.GetCall)
    | BeginL2(id: Id, l2Enabled: bool, gets: nat -> L2.GetCall)
    | Execute(id: Id, drift: seq<Inputs>, views: Views)
    | CommitL2(id: Id, puts: nat -> L2.PutCall, cancelled: nat -> bool, drift: seq<Inputs>, deletes: nat -> L2.DeleteCall)
    | CommitL1(id: Id, l1Puts: nat -> L1.PutCall)
    | Finish(id: Id)
    | Fail(id: Id)
    | Unwind(id: Id, deletion: L2.DeleteCall)
    | Drift(id: Id, drift: seq<Inputs>)
    | InvalidateL1(fingerprint: string, raises: bool, slots: set<L1.Slot>)
    | InvalidateAllL1(raises: bool, slots: set<L1.Slot>)
    | CloseL1
    | DecayL1(slots: set<L1.Slot>)
    | CorruptL1(slot: L1.Slot, content: L1.Content)
    | InvalidateL2(fingerprint: string, invalidation: L2.InvalidateCall)
    | InvalidateAllL2(invalidation: L2.InvalidateCall, cleared: set<string>)
    | ReleaseL2(fingerprint: string, raises: bool, keys: set<ConditionKey>, fuse: L2.FuseIo)
    | CloseL2(closeRaises: bool, closeFuse: L2.FuseWrite)
    | DecayL2(keys: set<ConditionKey>)
    | CorruptL2(key: ConditionKey, bytes: Bytes)
    | RejectL2(key: ConditionKey, deletion: L2.DeleteCall)
    | Restart

  function Current(inv: Invocation): Inputs
    requires inv.history != []
  {
    inv.history[|inv.history| - 1]
  }

  function Task(inv: Invocation): Task
    requires inv.history != []
  {
    inv.history[0].request.task
  }

  /** New inputs for the same request that never were behind it before. */
  ghost predicate Fresh(history: seq<Inputs>, drift: seq<Inputs>) {
    && history != []
    && (forall k :: 0 <= k < |drift| ==> drift[k].request == history[0].request && drift[k] !in history)
    && (forall j, k :: 0 <= j < k < |drift| ==> drift[j] != drift[k])
  }

  /** Every backend call sees inputs current at some moment since the start. */
  ghost predicate ViewsFrom(v: Views, since: seq<Inputs>) {
    && v.preprocess.imported in since && v.preprocess.ran in since && v.preprocess.exported in since
    && (forall k: nat :: v.features(k).imported in since && v.features(k).encoded in since && v.features(k).exported in since)
    && v.projected in since && v.integrated in since && v.decoded in since
  }

  function CachedPreprocess(inv: Invocation): Option<Bytes> {
    if inv.l1.Some? then inv.l1.value.cached else None
  }

  function CachedFeatures(inv: Invocation): Option<map<FeatureRole, Bytes>> {
    if inv.l2.Some? then Some(inv.l2.value.cached) else None
  }

  // ------------------------------------------------------------ the adapter's steps

  function StepBegin(w: World, p: Policy, op: Op): World
    requires op.Begin?
  {
    var key := FromRequest(op.inputs, op.deployment, p);
    if op.id in w.invs || op.id in w.prior then w
    else if op.l1Enabled && key.Some? && !L1.Disabled(w.l1, op.deployment.fingerprint) then
      var (l1, payload, hit) := L1.BeginReads(w.l1, key.value, op.metadataCall, op.payloadCall);
      var t := L1Transaction(key.value, w.l1.generation, payload, hit, []);
      w.(l1 := l1, invs := w.invs[op.id := Invocation(op.deployment, [op.inputs], 0, Some(t), None, [], false, L1Begun)])
    else
      w.(invs := w.invs[op.id := Invocation(op.deployment, [op.inputs], 0, None, None, [], false, L1Begun)])
  }

  /** The L2 transaction begun on the current inputs, None when L2 is off, disabled or
      no key can be derived. */
  function BeginTransaction(s: L2.State, inv: Invocation, p: Policy, enabled: bool, gets: nat -> L2.GetCall)
    : (L2.State, Option<L2Transaction>)
    requires inv.history != []
  {
    var key := FromRequest(Current(inv), inv.deployment, p);
    if enabled && key.Some? && !L2.Disabled(s, inv.deployment.fingerprint) then
      var (l2, cached) := L2.ReadRoles(s, key.value, FeatureRoles(Task(inv)), p, gets);
      (l2, Some(L2Transaction(key.value, s.generation, cached, [], [])))
    else (s, None)
  }

  function StepBeginL2(w: World, p: Policy, op: Op): World
    requires op.BeginL2?
  {
    if op.id !in w.invs || !w.invs[op.id].phase.L1Begun? || w.invs[op.id].l2.Some? || w.invs[op.id].history == [] then w
    else
      var inv := w.invs[op.id];
      var (l2, t) := BeginTransaction(w.l2, inv, p, op.l2Enabled, op.gets);
      w.(l2 := l2, invs := w.invs[op.id := inv.(start := |inv.history| - 1, phase := L2Begun, l2 := t)])
  }

  function PendingL1(t: L1Transaction, run: StagedRun): seq<(L1.Slot, L1.Content)> {
    (if t.metadataHit then [] else [(L1.Slot(L1.L0Metadata, t.key), L1.Canonical(t.key))])
    + (if run.preprocess.captured.None? then []
       else [(L1.Slot(L1.L1Preprocess, t.key), L1.Exported(run.preprocess.captured.value))])
  }

  function PendingL2(parent: CacheKey, captures: seq<(FeatureRole, Bytes)>, p: Policy): seq<(ConditionKey, Bytes)> {
    seq(|captures|, k requires 0 <= k < |captures| => (KeyForParent(parent, captures[k].0, p), captures[k].1))
  }

  ghost function StepExecute(w: World, b: Backend, p: Policy, op: Op): World
    requires op.Execute?
  {
    if op.id !in w.invs || !w.invs[op.id].phase.L2Begun? || !Fresh(w.invs[op.id].history, op.drift) then w
    else
      var inv := w.invs[op.id].(history := w.invs[op.id].history + op.drift);
      if inv.start >= |inv.history| || !ViewsFrom(op.views, inv.history[inv.start..]) then w
      else w.(invs := w.invs[op.id := Executing(inv, RunOf(inv, b, op.views), p)])
  }

  function RunOf(inv: Invocation, b: Backend, views: Views): Option<StagedRun>
    requires inv.history != []
  {
    Run(b, Task(inv), CachedPreprocess(inv), CachedFeatures(inv), views, inv.deployment)
  }

  function Executing(inv: Invocation, run: Option<StagedRun>, p: Policy): Invocation
    requires inv.history != []
  {
    if run.None? then inv.(phase := Unwinding)
    else
      var roles := FeatureRoles(Task(inv));
      inv.(payloads := run.value.payloads,
           l1 := if inv.l1.None? then None else Some(inv.l1.value.(pending := PendingL1(inv.l1.value, run.value))),
           l2 := if inv.l2.None? || |run.value.features| != |roles| then inv.l2
                 else Some(inv.l2.value.(pending := PendingL2(inv.l2.value.parent, Captures(roles, run.value.features), p))),
           phase := Executed)
  }

  ghost function StepCommitL2(w: World, p: Policy, op: Op): World
    requires op.CommitL2?
  {
    if op.id !in w.invs || !w.invs[op.id].phase.Executed? || !Fresh(w.invs[op.id].history, op.drift) then w
    else
      var inv := w.invs[op.id];
      if inv.l2.None? then w.(invs := w.invs[op.id := inv.(phase := L2Committed)])
      else
        var t := inv.l2.value;
        var current := FromRequest(Current(inv), inv.deployment, p);
        if current.None? then w.(invs := w.invs[op.id := inv.(phase := Unwinding)])
        else if t.generation != w.l2.generation then
          w.(invs := w.invs[op.id := inv.(l2 := Some(t.(pending := [])), phase := L2Committed)])
        else if current != Some(t.parent) then w.(invs := w.invs[op.id := inv.(phase := Unwinding)])
        else
          var later := inv.(history := inv.history + op.drift);
          var revalidated := FromRequest(Current(later), inv.deployment, p) == Some(t.parent);
          var (l2, stored, outcome) := L2.CommitWrites(w.l2, op.id, t.pending, op.puts, op.cancelled, revalidated, op.deletes);
          var t' := t.(pending := [], newlyStored := stored);
          w.(l2 := l2, invs := w.invs[op.id := later.(l2 := Some(t'), checked := true,
                                                      phase := if outcome.Raised? then Unwinding else L2Committed)])
  }

  function StepCommitL1(w: World, p: Policy, op: Op): World
    requires op.CommitL1?
  {
    if op.id !in w.invs || !w.invs[op.id].phase.L2Committed? || w.invs[op.id].history == [] then w
    else
      var inv := w.invs[op.id];
      if inv.l1.None? then w.(invs := w.invs[op.id := inv.(phase := L1Committed)])
      else
        var t := inv.l1.value;
        var current := FromRequest(Current(inv), inv.deployment, p);
        var (l1, outcome) := L1.Commit(w.l1, t.key, t.generation, current, t.pending, op.l1Puts);
        w.(l1 := l1, invs := w.invs[op.id := inv.(checked := inv.checked || outcome.Committed?,
                                                  phase := if outcome.Drifted? then Unwinding else L1Committed)])
  }

  /** `assert_current` for L2, then the return. */
  function StepFinish(w: World, p: Policy, op: Op): World
    requires op.Finish?
  {
    if op.id !in w.invs || !w.invs[op.id].phase.L1Committed? || w.invs[op.id].history == [] then w
    else
      var inv := w.invs[op.id];
      if inv.l2.None? then w.(invs := w.invs[op.id := inv.(phase := Returned)])
      else if FromRequest(Current(inv), inv.deployment, p) != Some(inv.l2.value.parent) then
        w.(invs := w.invs[op.id := inv.(phase := Unwinding)])
      else w.(invs := w.invs[op.id := inv.(checked := true, phase := Returned)])
  }

  function StepFail(w: World, op: Op): World
    requires op.Fail?
  {
    if op.id !in w.invs || Ended(w.invs[op.id].phase) then w
    else w.(invs := w.invs[op.id := w.invs[op.id].(phase := Unwinding)])
  }

  /** One iteration of `rollback_new_writes` in the adapter's exception handler. */
  function StepUnwind(w: World, op: Op): World
    requires op.Unwind?
  {
    if op.id !in w.invs || !w.invs[op.id].phase.Unwinding? then w
    else
      var inv := w.invs[op.id];
      if inv.l2.None? || inv.l2.value.newlyStored == [] then w.(invs := w.invs[op.id := inv.(phase := Failed)])
      else
        var t := inv.l2.value;
        var n := |t.newlyStored| - 1;
        w.(l2 := L2.SafeDelete(w.l2, t.newlyStored[n], op.deletion),
           invs := w.invs[op.id := inv.(l2 := Some(t.(newlyStored := t.newlyStored[..n])))])
  }

  ghost function StepDrift(w: World, op: Op): World
    requires op.Drift?
  {
    if op.id !in w.invs || !Fresh(w.invs[op.id].history, op.drift) then w
    else w.(invs := w.invs[op.id := w.invs[op.id].(history := w.invs[op.id].history + op.drift)])
  }

  /** Steps of the surroundings. */
  function StepStores(w: World, op: Op): World {
    match op
    case InvalidateL1(fp, raises, slots) =>
      w.(l1 := L1.InvalidateDeployment(w.l1, fp, raises, slots))
    case InvalidateAllL1(raises, slots) =>
      w.(l1 := L1.InvalidateAll(w.l1, raises, slots))
    case CloseL1 => w.(l1 := L1.Close(w.l1))
    case DecayL1(slots) => w.(l1 := w.l1.(store := w.l1.store - slots))
    case CorruptL1(slot, content) =>
      if slot in w.l1.store then w.(l1 := w.l1.(store := w.l1.store[slot := w.l1.store[slot].(content := content)])) else w
    case InvalidateL2(fp, call) =>
      w.(l2 := L2.InvalidateDeployment(w.l2, fp, call))
    case InvalidateAllL2(call, cleared) =>
      w.(l2 := L2.InvalidateAll(w.l2, call, cleared))
    case ReleaseL2(fp, raises, keys, fuse) => w.(l2 := L2.Release(w.l2, fp, raises, keys, fuse))
    case CloseL2(raises, write) => w.(l2 := L2.Close(w.l2, raises, write))
    case DecayL2(keys) => w.(l2 := w.l2.(store := w.l2.store - keys))
    case CorruptL2(key, bytes) =>
      if key in w.l2.store then w.(l2 := w.l2.(store := w.l2.store[key := w.l2.store[key].(payload := bytes)])) else w
    case RejectL2(key, call) => w.(l2 := L2.SafeDelete(w.l2, key, call))
    case _ => w
  }

  /** The process ends at this point, with whatever is in flight, and a new one opens the
      same directory. */
  function StepRestart(w: World): World {
    World(L1.State(map[], 0, false, {}), L2.Restart(w.l2), map[], w.prior + w.invs.Keys,
          w.failed + set id | id in w.invs && w.invs[id].phase.Failed?)
  }

  ghost function Step(w: World, b: Backend, p: Policy, op: Op): World {
    if op.Begin? then StepBegin(w, p, op)
    else if op.BeginL2? then StepBeginL2(w, p, op)
    else if op.Execute? then StepExecute(w, b, p, op)
    else if op.CommitL2? then StepCommitL2(w, p, op)
    else if op.CommitL1? then StepCommitL1(w, p, op)
    else if op.Finish? then StepFinish(w, p, op)
    else if op.Fail? then StepFail(w, op)
    else if op.Unwind? then StepUnwind(w, op)
    else if op.Drift? then StepDrift(w, op)
    else if op.Restart? then StepRestart(w)
    else StepStores(w, op)
  }

  ghost function After(w: World, b: Backend, p: Policy, ops: seq<Op>): World
    decreases |ops|
  {
    if ops == [] then w else Step(After(w, b, p, ops[..|ops| - 1]), b, p, ops[|ops| - 1])
  }

  /** No restart among them. */
  predicate WithinProcess(ops: seq<Op>) {
    forall k :: 0 <= k < |ops| ==> !ops[k].Restart?
  }

  /** A fresh process over a store whose entries all were written by earlier ones. */
  ghost predicate Initial(w: World) {
    && w.l1 == L1.State(map[], 0, false, {})
    && w.l2 == L2.Restart(w.l2)
    && w.invs == map[] && w.failed == {}
    && (forall key :: key in w.l2.store ==> w.l2.store[key].writer in w.prior && w.l2.store[key].generation == 0)
  }
}
