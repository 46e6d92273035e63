/** Where transparency ends: drift of the input files that the key comparisons miss. */
module CacheDrift {
  import opened Common
  import opened CacheKeys
  import opened StagedPath
  import opened CacheHistory
  import opened CacheTransparency
  import L1 = L0L1Cache
  import L2 = ConditionCache

  /** A faithful backend whose every value tells inputs `i` from all others. */
  function Telltale(i: Inputs): Backend {
    Backend(
      true,
      (j: Inputs, d: Deployment) => if j == i then [0] else [1],
      (role: FeatureRole, pre: Bytes, j: Inputs, d: Deployment) => pre,
      (pre: Bytes, features: seq<Bytes>, j: Inputs, d: Deployment) => pre,
      (pre: Bytes, j: Inputs, d: Deployment) => pre,
      (c: Bytes, j: Inputs, d: Deployment) => c,
      (c: Bytes, j: Inputs, d: Deployment) => c,
      (v: Bytes, j: Inputs, d: Deployment) => Some(v),
      (v: Bytes, j: Inputs, d: Deployment) => Some(v),
      (role: FeatureRole, v: Bytes, j: Inputs, d: Deployment) => Some(v),
      (role: FeatureRole, v: Bytes, pre: Bytes, j: Inputs, d: Deployment) => Some(v))
  }

  lemma TelltaleIsFaithful(i: Inputs)
    ensures Faithful(Telltale(i))
  {
  }

  /** A preprocess value cached for inputs `i` gives the uncached payloads when executed
      on inputs `j`, whatever the backend. */
  ghost predicate Combines(i: Inputs, j: Inputs, d: Deployment) {
    forall b: Backend, bytes: Bytes ::
      Faithful(b) && b.split && PreprocessExport(b, bytes, i, d) ==>
        Run(b, j.request.task, Some(bytes), Some(map[]), Steady(j), d).value.payloads == Uncached(b, j, d).payloads
  }

  /** The exact condition: the key the preprocess value was read under is the key of the
      inputs executed on.  (`begin` of the L2 tier does not make this comparison.) */
  lemma CombinesIffSameKey(i: Inputs, j: Inputs, d: Deployment, p: Policy)
    requires FromRequest(i, d, p).Some?
    ensures Combines(i, j, d) <==> FromRequest(i, d, p) == FromRequest(j, d, p)
  {
    if FromRequest(i, d, p) == FromRequest(j, d, p) {
      KeyDeterminesObservation(i, d, j, d, p);
      forall b: Backend, bytes: Bytes | Faithful(b) && b.split && PreprocessExport(b, bytes, i, d)
        ensures Run(b, j.request.task, Some(bytes), Some(map[]), Steady(j), d).value.payloads == Uncached(b, j, d).payloads
      {
        RunIsTransparent(b, Some(bytes), Some(map[]), Steady(j), j, d);
      }
    } else {
      var b := Telltale(i);
      TelltaleIsFaithful(i);
      assert PreprocessExport(b, [0], i, d);
      assert Run(b, j.request.task, Some([0]), Some(map[]), Steady(j), d).value.payloads[0] == [0];
      assert Uncached(b, j, d).payloads[0] == [1];
    }
  }

  function Clip(video: Bytes): Inputs {
    Inputs(Request(V2A, None, 1.0, 1, 1.0, 0), Media(Some(video), None))
  }

  const QuietL1Get := L1.GetCall(false, false, false)
  const QuietL2Get := L2.GetCall(false, false, false)
  const NoFuse := L2.FuseIo(L2.Written, L2.Written)

  function Key(video: Bytes, d: Deployment, p: Policy): (key: CacheKey)
    ensures FromRequest(Clip(video), d, p) == Some(key)
  {
    assert FingerprintedInputs(Clip(video)) == [CacheInput(Video, video, |video|)];
    FromRequest(Clip(video), d, p).value
  }

  const Nothing: World := World(L1.State(map[], 0, false, {}), L2.State(map[], 0, false, {}, false, {}), map[], {}, {})

  /** Clip [0]'s preprocess value is resident in L1. */
  function WarmL1(d: Deployment, p: Policy): L1.State {
    L1.State(map[L1.Slot(L1.L1Preprocess, Key([0], d, p)) := L1.Entry(L1.Exported([0]), L1.Exported([0]), 0)],
             0, false, {})
  }

  const L2Rejects: nat -> L2.PutCall := k => L2.PutCall(false, false, {}, false, L2.Rejected, NoFuse)
  const L2Puts: nat -> L2.PutCall := k => L2.PutCall(false, true, {}, false, L2.Stored, NoFuse)
  const L2Deletes: nat -> L2.DeleteCall := k => L2.DeleteCall(false, false, false, NoFuse)

  /** The store has room for the second item only. */
  const L1Second: nat -> L1.PutCall :=
    k => if k == 1 then L1.PutCall(true, {}, false, L1.Stored) else L1.PutCall(false, {}, false, L1.Rejected)

  /** Invocation 0 runs clip [0] undisturbed.  Then, for invocation 1, the file changes from
      clip [0] to clip [1] between the two begins, and the L1 tier is invalidated just
      before its commit. */
  function Misled(d: Deployment): seq<Op> {
    [
      Begin(0, d, Clip([0]), true, QuietL1Get, QuietL1Get),
      BeginL2(0, true, (k: nat) => QuietL2Get),
      Execute(0, [], Steady(Clip([0]))),
      CommitL2(0, L2Rejects, (k: nat) => false, [], L2Deletes),
      CommitL1(0, L1Second),
      Finish(0),
      Begin(1, d, Clip([0]), true, QuietL1Get, QuietL1Get),
      Drift(1, [Clip([1])]),
      BeginL2(1, true, (k: nat) => QuietL2Get),
      Execute(1, [], Steady(Clip([1]))),
      CommitL2(1, L2Puts, (k: nat) => false, [], L2Deletes),
      InvalidateAllL1(false, {}),
      CommitL1(1, (k: nat) => L1.PutCall(true, {}, false, L1.Stored)),
      Finish(1)
    ]
  }

  // ------------------------------------------------------------------ invocation 0

  function First(d: Deployment, p: Policy): Invocation {
    Invocation(d, [Clip([0])], 0, Some(L1Transaction(Key([0], d, p), 0, None, false, [])), None, [], false, L1Begun)
  }

  function FirstL2(d: Deployment, p: Policy): Invocation {
    First(d, p).(l2 := Some(L2Transaction(Key([0], d, p), 0, map[], [], [])), phase := L2Begun)
  }

  function Captured(d: Deployment, p: Policy): seq<(L1.Slot, L1.Content)> {
    [(L1.Slot(L1.L0Metadata, Key([0], d, p)), L1.Canonical(Key([0], d, p))),
     (L1.Slot(L1.L1Preprocess, Key([0], d, p)), L1.Exported([0]))]
  }

  function Offered(d: Deployment, p: Policy): seq<(ConditionKey, Bytes)> {
    [(KeyForParent(Key([0], d, p), VideoFeature, p), [0])]
  }

  /** Invocation 0 once it has executed. */
  predicate Carries(inv: Invocation, d: Deployment, p: Policy) {
    && inv.history == [Clip([0])] && inv.deployment == d
    && inv.l1 == Some(L1Transaction(Key([0], d, p), 0, None, false, Captured(d, p)))
    && inv.l2.Some? && inv.l2.value.generation == 0 && inv.l2.value.parent == Key([0], d, p)
  }

  /** Invocation 0 has begun, 1 has not, and L2 is empty. */
  predicate Alone(w: World, l1: L1.State) {
    w.l1 == l1 && w.l2 == Nothing.l2 && 0 in w.invs && 1 !in w.invs && 1 !in w.prior
  }

  lemma FirstBegins(d: Deployment, p: Policy)
    ensures StepBegin(Nothing, p, Misled(d)[0]) == Nothing.(invs := map[0 := First(d, p)])
  {
    var op := Misled(d)[0];
    assert L1.BeginReads(Nothing.l1, Key([0], d, p), op.metadataCall, op.payloadCall) == (Nothing.l1, None, false);
    assert Nothing.invs[0 := First(d, p)] == map[0 := First(d, p)];
  }

  lemma FirstBeginsL2(d: Deployment, p: Policy)
    ensures StepBeginL2(Nothing.(invs := map[0 := First(d, p)]), p, Misled(d)[1]) == Nothing.(invs := map[0 := FirstL2(d, p)])
  {
    var gets := Misled(d)[1].gets;
    assert FeatureRoles(V2A)[..0] == [];
    assert L2.ReadRoles(Nothing.l2, Key([0], d, p), [], p, gets) == (Nothing.l2, map[]);
    assert L2.ReadRoles(Nothing.l2, Key([0], d, p), FeatureRoles(V2A), p, gets) == (Nothing.l2, map[]);
    assert map[0 := First(d, p)][0 := FirstL2(d, p)] == map[0 := FirstL2(d, p)];
  }

  lemma FirstRuns(d: Deployment, p: Policy)
    ensures var run := RunOf(FirstL2(d, p), Telltale(Clip([0])), Steady(Clip([0])));
            && run.Some? && run.value.preprocess.captured == Some([0]) && |run.value.features| == 1
            && run.value.features[0].captured == Some([0])
  {
  }

  lemma FirstExecuting(d: Deployment, p: Policy)
    ensures var inv := FirstL2(d, p);
            var after := Executing(inv, RunOf(inv, Telltale(Clip([0])), Steady(Clip([0]))), p);
            && after.phase.Executed? && Carries(after, d, p)
            && after.l2.value.pending == Offered(d, p) && after.l2.value.newlyStored == []
  {
    FirstRuns(d, p);
    var inv := FirstL2(d, p);
    var run := RunOf(inv, Telltale(Clip([0])), Steady(Clip([0])));
    assert PendingL1(inv.l1.value, run.value) == Captured(d, p);
    var roles, steps := FeatureRoles(V2A), run.value.features;
    assert roles[..0] == [] && steps[..0] == [];
    assert Captures(roles[..0], steps[..0]) == [];
    assert Captures(roles, steps) == [(VideoFeature, [0])];
  }

  lemma FirstExecutes(w: World, w': World, d: Deployment, p: Policy)
    requires Alone(w, Nothing.l1) && w.invs[0] == FirstL2(d, p)
    requires w' == Step(w, Telltale(Clip([0])), p, Misled(d)[2])
    ensures Alone(w', Nothing.l1) && w'.invs[0].phase.Executed? && Carries(w'.invs[0], d, p)
    ensures w'.invs[0].l2.value.pending == Offered(d, p) && w'.invs[0].l2.value.newlyStored == []
  {
    var inv, op := FirstL2(d, p), Misled(d)[2];
    assert inv.history + [] == inv.history && inv.history[0..] == [Clip([0])];
    assert inv.(history := inv.history + []) == inv;
    FirstExecuting(d, p);
    assert w' == w.(invs := w.invs[0 := Executing(inv, RunOf(inv, Telltale(Clip([0])), op.views), p)]);
  }

  lemma RejectedPuts(s: L2.State, writer: Id, pending: seq<(ConditionKey, Bytes)>, k: nat)
    requires s == Nothing.l2
    ensures L2.CommitPuts(s, writer, [], pending, L2Rejects, (j: nat) => false, k) == (s, [], false)
    decreases |pending|
  {
    if pending != [] {
      RejectedPuts(s, writer, pending[1..], k + 1);
    }
  }

  lemma FirstCommitsL2(w: World, w': World, d: Deployment, p: Policy)
    requires Alone(w, Nothing.l1) && w.invs[0].phase.Executed? && Carries(w.invs[0], d, p)
    requires w' == Step(w, Telltale(Clip([0])), p, Misled(d)[3])
    ensures Alone(w', Nothing.l1) && w'.invs[0].phase.L2Committed? && Carries(w'.invs[0], d, p)
  {
    var inv, op := w.invs[0], Misled(d)[3];
    assert inv.history + op.drift == inv.history;
    RejectedPuts(w.l2, 0, inv.l2.value.pending, 0);
    assert L2.CommitWrites(w.l2, 0, inv.l2.value.pending, op.puts, op.cancelled, true, op.deletes) == (w.l2, [], L2.Committed);
  }

  lemma SecondStored(d: Deployment, p: Policy)
    ensures L1.Puts(Nothing.l1, Captured(d, p), L1Second, 0) == WarmL1(d, p)
  {
    var pending := Captured(d, p);
    assert L1.SafePut(Nothing.l1, pending[0].0, pending[0].1, L1Second(0)).0 == Nothing.l1;
    assert pending[1..] == [pending[1]] && pending[1..][1..] == [];
    assert L1.SafePut(Nothing.l1, pending[1].0, pending[1].1, L1Second(1)).0 == WarmL1(d, p);
    assert L1.Puts(Nothing.l1, pending[1..], L1Second, 1) == WarmL1(d, p);
  }

  lemma FirstCommitsL1(w: World, w': World, d: Deployment, p: Policy)
    requires Alone(w, Nothing.l1) && w.invs[0].phase.L2Committed? && Carries(w.invs[0], d, p)
    requires w' == Step(w, Telltale(Clip([0])), p, Misled(d)[4])
    ensures Alone(w', WarmL1(d, p)) && w'.invs[0].phase.L1Committed? && Carries(w'.invs[0], d, p)
  {
    SecondStored(d, p);
  }

  lemma FirstFinishes(w: World, w': World, d: Deployment, p: Policy)
    requires Alone(w, WarmL1(d, p)) && w.invs[0].phase.L1Committed? && Carries(w.invs[0], d, p)
    requires w' == Step(w, Telltale(Clip([0])), p, Misled(d)[5])
    ensures var w' := StepFinish(w, p, Misled(d)[5]); Alone(w', WarmL1(d, p)) && w'.invs[0].phase.Returned?
  {
  }

  // ------------------------------------------------------------------ invocation 1

  function Begun(d: Deployment, p: Policy): Invocation {
    Invocation(d, [Clip([0])], 0, Some(L1Transaction(Key([0], d, p), 0, Some([0]), false, [])), None, [], false, L1Begun)
  }

  function BegunL2(d: Deployment, p: Policy): Invocation {
    Begun(d, p).(history := [Clip([0]), Clip([1])], start := 1,
                 l2 := Some(L2Transaction(Key([1], d, p), 0, map[], [], [])), phase := L2Begun)
  }

  lemma SecondBegins(w: World, d: Deployment, p: Policy)
    requires Alone(w, WarmL1(d, p))
    ensures StepBegin(w, p, Misled(d)[6]) == w.(invs := w.invs[1 := Begun(d, p)])
  {
    var op := Misled(d)[6];
    assert L1.Read(w.l1, L1.Slot(L1.L0Metadata, Key([0], d, p)), Some(L1.Canonical(Key([0], d, p))), op.metadataCall)
           == (w.l1, None);
    assert L1.BeginReads(w.l1, Key([0], d, p), op.metadataCall, op.payloadCall) == (w.l1, Some([0]), false);
  }

  lemma Drifts(w: World, d: Deployment, p: Policy)
    requires 1 in w.invs && w.invs[1] == Begun(d, p)
    ensures StepDrift(w, Misled(d)[7]) == w.(invs := w.invs[1 := Begun(d, p).(history := [Clip([0]), Clip([1])])])
  {
    assert Clip([0]).media.video.value != Clip([1]).media.video.value;
    assert Fresh([Clip([0])], [Clip([1])]);
    assert [Clip([0])] + [Clip([1])] == [Clip([0]), Clip([1])];
  }

  lemma SecondBeginsL2(w: World, d: Deployment, p: Policy)
    requires w.l2 == Nothing.l2 && 1 in w.invs && w.invs[1] == Begun(d, p).(history := [Clip([0]), Clip([1])])
    ensures StepBeginL2(w, p, Misled(d)[8]) == w.(invs := w.invs[1 := BegunL2(d, p)])
  {
    var gets := Misled(d)[8].gets;
    assert FeatureRoles(V2A)[..0] == [];
    assert L2.ReadRoles(w.l2, Key([1], d, p), [], p, gets) == (w.l2, map[]);
    assert L2.ReadRoles(w.l2, Key([1], d, p), FeatureRoles(V2A), p, gets) == (w.l2, map[]);
  }

  /** Both transactions are of generation 0; the payloads are those of clip [0]. */
  predicate Doomed(inv: Invocation, d: Deployment, p: Policy) {
    && inv.history == [Clip([0]), Clip([1])] && inv.start == 1 && inv.deployment == d
    && inv.l1.Some? && inv.l1.value.generation == 0
    && inv.l2.Some? && inv.l2.value.generation == 0 && inv.l2.value.parent == Key([1], d, p)
    && inv.payloads == [[0], [0], [0], [0]]
  }

  /** The cached value of clip [0] carries through to the artifact for clip [1]. */
  lemma CarriesThrough(d: Deployment, p: Policy)
    ensures var run := RunOf(BegunL2(d, p), Telltale(Clip([0])), Steady(Clip([1])));
            run.Some? && run.value.payloads == [[0], [0], [0], [0]]
  {
  }

  lemma SecondExecuting(d: Deployment, p: Policy)
    ensures var inv := BegunL2(d, p);
            var after := Executing(inv, RunOf(inv, Telltale(Clip([0])), Steady(Clip([1]))), p);
            after.phase.Executed? && Doomed(after, d, p)
  {
    CarriesThrough(d, p);
  }

  lemma Executes(w: World, w': World, d: Deployment, p: Policy)
    requires 1 in w.invs && w.invs[1] == BegunL2(d, p) && w' == Step(w, Telltale(Clip([0])), p, Misled(d)[9])
    ensures w'.l1 == w.l1 && w'.l2 == w.l2 && 1 in w'.invs && w'.invs[1].phase.Executed? && Doomed(w'.invs[1], d, p)
  {
    var inv, op := BegunL2(d, p), Misled(d)[9];
    assert inv.history + [] == inv.history && inv.history[1..] == [Clip([1])];
    assert inv.(history := inv.history + []) == inv;
    SecondExecuting(d, p);
    assert w' == w.(invs := w.invs[1 := Executing(inv, RunOf(inv, Telltale(Clip([0])), op.views), p)]);
  }

  lemma CommitsL2(w: World, w': World, d: Deployment, p: Policy)
    requires 1 in w.invs && w.l2.generation == 0 && w.invs[1].phase.Executed? && Doomed(w.invs[1], d, p)
    requires w' == Step(w, Telltale(Clip([0])), p, Misled(d)[10])
    ensures w'.l1 == w.l1 && 1 in w'.invs && w'.invs[1].phase.L2Committed? && w'.invs[1].checked && Doomed(w'.invs[1], d, p)
  {
    var inv, op := w.invs[1], Misled(d)[10];
    assert inv.history + op.drift == inv.history;
    assert FromRequest(Current(inv), d, p) == Some(Key([1], d, p));
    NotCancelled(w.l2, 1, [], inv.l2.value.pending, L2Puts, 0);
    assert L2.CommitWrites(w.l2, 1, inv.l2.value.pending, op.puts, op.cancelled, true, op.deletes).2 == L2.Committed;
  }

  lemma CommitsL1(w: World, d: Deployment, p: Policy)
    requires 1 in w.invs && w.l1.generation == 0 && w.invs[1].phase.L2Committed? && w.invs[1].checked && Doomed(w.invs[1], d, p)
    ensures var w1 := StepStores(w, Misled(d)[11]);
            var w2 := StepCommitL1(w1, p, Misled(d)[12]);
            1 in w2.invs && w2.invs[1].phase.L1Committed? && w2.invs[1].checked && Doomed(w2.invs[1], d, p)
  {
  }

  lemma Finishes(w: World, d: Deployment, p: Policy)
    requires 1 in w.invs && w.invs[1].phase.L1Committed? && w.invs[1].checked && Doomed(w.invs[1], d, p)
    ensures var w' := StepFinish(w, p, Misled(d)[13]);
            1 in w'.invs && w'.invs[1].phase.Returned? && w'.invs[1].checked && Doomed(w'.invs[1], d, p)
  {
  }

  lemma NotCancelled(s: L2.State, writer: Id, stored: seq<ConditionKey>, pending: seq<(ConditionKey, Bytes)>,
                     calls: nat -> L2.PutCall, k: nat)
    ensures !L2.CommitPuts(s, writer, stored, pending, calls, (j: nat) => false, k).2
    decreases |pending|
  {
    if pending != [] {
      var (s1, result) := L2.SafePut(s, pending[0].0, pending[0].1, writer, calls(k));
      NotCancelled(s1, writer, if result == L2.Stored then stored + [pending[0].0] else stored, pending[1..], calls, k + 1);
    }
  }

  // ----------------------------------------------------------------------- the run

  ghost function At(d: Deployment, p: Policy, k: nat): World
    requires k <= 14
  {
    After(Nothing, Telltale(Clip([0])), p, Misled(d)[..k])
  }

  lemma AtNext(d: Deployment, p: Policy, k: nat)
    requires k < 14
    ensures At(d, p, k + 1) == Step(At(d, p, k), Telltale(Clip([0])), p, Misled(d)[k])
  {
    assert Misled(d)[..k + 1][..k] == Misled(d)[..k];
  }

  lemma ReachesFirstBegin(d: Deployment, p: Policy)
    ensures At(d, p, 2) == Nothing.(invs := map[0 := FirstL2(d, p)])
  {
    assert At(d, p, 0) == Nothing by {
      assert Misled(d)[..0] == [];
    }
    AtNext(d, p, 0);
    FirstBegins(d, p);
    assert At(d, p, 1) == StepBegin(At(d, p, 0), p, Misled(d)[0]);
    AtNext(d, p, 1);
    FirstBeginsL2(d, p);
    assert At(d, p, 2) == StepBeginL2(At(d, p, 1), p, Misled(d)[1]);
  }

  lemma ReachesFirstExecution(d: Deployment, p: Policy)
    ensures var w := At(d, p, 3); Alone(w, Nothing.l1) && w.invs[0].phase.Executed? && Carries(w.invs[0], d, p)
  {
    ReachesFirstBegin(d, p);
    AtNext(d, p, 2);
    FirstExecutes(At(d, p, 2), At(d, p, 3), d, p);
  }

  lemma ReachesFirstCommit(d: Deployment, p: Policy)
    ensures var w := At(d, p, 4); Alone(w, Nothing.l1) && w.invs[0].phase.L2Committed? && Carries(w.invs[0], d, p)
  {
    ReachesFirstExecution(d, p);
    AtNext(d, p, 3);
    FirstCommitsL2(At(d, p, 3), At(d, p, 4), d, p);
  }

  lemma ReachesFirstWrite(d: Deployment, p: Policy)
    ensures var w := At(d, p, 5); Alone(w, WarmL1(d, p)) && w.invs[0].phase.L1Committed? && Carries(w.invs[0], d, p)
  {
    ReachesFirstCommit(d, p);
    AtNext(d, p, 4);
    FirstCommitsL1(At(d, p, 4), At(d, p, 5), d, p);
  }

  lemma ReachesWarm(d: Deployment, p: Policy)
    ensures var w := At(d, p, 6); Alone(w, WarmL1(d, p)) && w.invs[0].phase.Returned?
  {
    ReachesFirstWrite(d, p);
    AtNext(d, p, 5);
    FirstFinishes(At(d, p, 5), At(d, p, 6), d, p);
  }

  lemma ReachesSecond(d: Deployment, p: Policy)
    ensures var w := At(d, p, 7); w.l1 == WarmL1(d, p) && w.l2 == Nothing.l2 && 1 in w.invs && w.invs[1] == Begun(d, p)
  {
    ReachesWarm(d, p);
    SecondBegins(At(d, p, 6), d, p);
    AtNext(d, p, 6);
    assert At(d, p, 7) == StepBegin(At(d, p, 6), p, Misled(d)[6]);
  }

  lemma ReachesDrift(d: Deployment, p: Policy)
    ensures var w := At(d, p, 8);
            && w.l1 == WarmL1(d, p) && w.l2 == Nothing.l2
            && 1 in w.invs && w.invs[1] == Begun(d, p).(history := [Clip([0]), Clip([1])])
  {
    ReachesSecond(d, p);
    Drifts(At(d, p, 7), d, p);
    AtNext(d, p, 7);
    assert At(d, p, 8) == StepDrift(At(d, p, 7), Misled(d)[7]);
  }

  lemma ReachesExecution(d: Deployment, p: Policy)
    ensures var w := At(d, p, 10);
            && w.l1.generation == 0 && w.l2.generation == 0
            && 1 in w.invs && w.invs[1].phase.Executed? && Doomed(w.invs[1], d, p)
  {
    ReachesDrift(d, p);
    AtNext(d, p, 8);
    SecondBeginsL2(At(d, p, 8), d, p);
    assert At(d, p, 9) == StepBeginL2(At(d, p, 8), p, Misled(d)[8]);
    AtNext(d, p, 9);
    Executes(At(d, p, 9), At(d, p, 10), d, p);
  }

  lemma ReachesCommit(d: Deployment, p: Policy)
    ensures var w := At(d, p, 11);
            w.l1.generation == 0 && 1 in w.invs && w.invs[1].phase.L2Committed? && w.invs[1].checked && Doomed(w.invs[1], d, p)
  {
    ReachesExecution(d, p);
    AtNext(d, p, 10);
    CommitsL2(At(d, p, 10), At(d, p, 11), d, p);
  }

  lemma Reaches(d: Deployment, p: Policy)
    ensures var w := At(d, p, 14);
            1 in w.invs && w.invs[1].phase.Returned? && w.invs[1].checked && Doomed(w.invs[1], d, p)
  {
    ReachesCommit(d, p);
    AtNext(d, p, 11);
    assert At(d, p, 12) == StepStores(At(d, p, 11), Misled(d)[11]);
    AtNext(d, p, 12);
    assert At(d, p, 13) == StepCommitL1(At(d, p, 12), p, Misled(d)[12]);
    CommitsL1(At(d, p, 11), d, p);
    AtNext(d, p, 13);
    Finishes(At(d, p, 13), d, p);
  }

  /** Without alignment transparency fails, and no key comparison notices: in a run from a
      fresh process over an empty store, the artifact returned for clip [1], after a passed
      comparison, is the one for clip [0]. */
  lemma MisalignedBeginMisleads(d: Deployment, p: Policy)
    ensures var b := Telltale(Clip([0]));
            var w' := After(Nothing, b, p, Misled(d));
            && Faithful(b) && Initial(Nothing)
            && 1 in w'.invs && w'.invs[1].phase.Returned? && w'.invs[1].checked
            && w'.invs[1].start < |w'.invs[1].history| && w'.invs[1].history[w'.invs[1].start] == Clip([1])
            && w'.invs[1].payloads != Uncached(b, Clip([1]), d).payloads
  {
    TelltaleIsFaithful(Clip([0]));
    assert Nothing.l2 == L2.Restart(Nothing.l2);
    Reaches(d, p);
    assert Misled(d)[..14] == Misled(d);
    assert Uncached(Telltale(Clip([0])), Clip([1]), d).payloads[0] == [1] by {
      assert Clip([0]).media.video.value != Clip([1]).media.video.value;
    }
  }
}
