/** The staged execution path: four ordered stages, the second of which encodes one
    feature per task role and projects them.  Cached payloads may replace the
    preprocess stage and single encoders. */
module StagedPath {
  import opened Common
  import opened CacheKeys

  /** An operator backend as deterministic functions of what it can observe.
      `split` says whether the backend separates encoders from the projection.
      Codec functions return None where the source's codec raises. */
  datatype Backend = Backend(
    split: bool,
    preprocess: (Inputs, Deployment) -> Bytes,
    encode: (FeatureRole, Bytes, Inputs, Deployment) -> Bytes,
    project: (Bytes, seq<Bytes>, Inputs, Deployment) -> Bytes,
    condition: (Bytes, Inputs, Deployment) -> Bytes,
    integrate: (Bytes, Inputs, Deployment) -> Bytes,
    decode: (Bytes, Inputs, Deployment) -> Bytes,
    exportPreprocess: (Bytes, Inputs, Deployment) -> Option<Bytes>,
    importPreprocess: (Bytes, Inputs, Deployment) -> Option<Bytes>,
    exportFeature: (FeatureRole, Bytes, Inputs, Deployment) -> Option<Bytes>,
    importFeature: (FeatureRole, Bytes, Bytes, Inputs, Deployment) -> Option<Bytes>)

  /** The backend's answer for one observation with no cache involved. */
  function Feature(b: Backend, role: FeatureRole, i: Inputs, d: Deployment): Bytes {
    b.encode(role, b.preprocess(i, d), i, d)
  }

  /** Codec round trip, asked only of the backend's own values: importing an export
      either fails (and the stage is run again) or gives the exported value back. */
  ghost predicate Faithful(b: Backend) {
    && (forall i: Inputs, d: Deployment :: b.exportPreprocess(b.preprocess(i, d), i, d).Some? ==>
          b.importPreprocess(b.exportPreprocess(b.preprocess(i, d), i, d).value, i, d)
            in {None, Some(b.preprocess(i, d))})
    && (forall role: FeatureRole, i: Inputs, d: Deployment ::
          b.exportFeature(role, Feature(b, role, i, d), i, d).Some? ==>
          b.importFeature(role, b.exportFeature(role, Feature(b, role, i, d), i, d).value,
                          b.preprocess(i, d), i, d)
            in {None, Some(Feature(b, role, i, d))})
  }

  datatype Stage = MediaResolvePreprocess | ConditionEncodeProjection | Integrate | DecodeVocoderPostprocess

  const STAGE_ORDER: seq<Stage> :=
    [MediaResolvePreprocess, ConditionEncodeProjection, Integrate, DecodeVocoderPostprocess]

  /** The inputs each backend call sees; files may change between calls. */
  datatype PreprocessView = PreprocessView(imported: Inputs, ran: Inputs, exported: Inputs)
  datatype FeatureView = FeatureView(imported: Inputs, encoded: Inputs, exported: Inputs)
  datatype Views = Views(
    preprocess: PreprocessView,
    features: nat -> FeatureView,
    projected: Inputs,
    integrated: Inputs,
    decoded: Inputs)

  ghost predicate AllSee(v: Views, i: Inputs) {
    && v.preprocess == PreprocessView(i, i, i)
    && (forall k: nat :: v.features(k) == FeatureView(i, i, i))
    && v.projected == i && v.integrated == i && v.decoded == i
  }

  function Steady(i: Inputs): (v: Views)
    ensures AllSee(v, i)
  {
    Views(PreprocessView(i, i, i), (k: nat) => FeatureView(i, i, i), i, i, i)
  }

  datatype PreprocessStep = PreprocessStep(value: Bytes, rejected: bool, ran: bool, captured: Option<Bytes>)

  function RunPreprocess(b: Backend, cached: Option<Bytes>, v: PreprocessView, d: Deployment): PreprocessStep {
    var imported := if cached.Some? then b.importPreprocess(cached.value, v.imported, d) else None;
    if imported.Some? then PreprocessStep(imported.value, false, false, None)
    else
      var value := b.preprocess(v.ran, d);
      PreprocessStep(value, cached.Some?, true, b.exportPreprocess(value, v.exported, d))
  }

  datatype FeatureStep = FeatureStep(value: Bytes, rejected: bool, encoded: bool, captured: Option<Bytes>)

  function RunFeature(b: Backend, role: FeatureRole, cached: Option<Bytes>, pre: Bytes,
                      v: FeatureView, d: Deployment): FeatureStep {
    var imported := if cached.Some? then b.importFeature(role, cached.value, pre, v.imported, d) else None;
    if imported.Some? then FeatureStep(imported.value, false, false, None)
    else
      var value := b.encode(role, pre, v.encoded, d);
      FeatureStep(value, cached.Some?, true, b.exportFeature(role, value, v.exported, d))
  }

  function Cached(payloads: map<FeatureRole, Bytes>, role: FeatureRole): Option<Bytes> {
    if role in payloads then Some(payloads[role]) else None
  }

  function RunFeatures(b: Backend, roles: seq<FeatureRole>, cached: map<FeatureRole, Bytes>, pre: Bytes,
                       views: nat -> FeatureView, d: Deployment): (steps: seq<FeatureStep>)
    ensures |steps| == |roles|
  {
    seq(|roles|, k requires 0 <= k < |roles| =>
      RunFeature(b, roles[k], Cached(cached, roles[k]), pre, views(k), d))
  }

  function Values(steps: seq<FeatureStep>): (values: seq<Bytes>)
    ensures |values| == |steps|
  {
    seq(|steps|, k requires 0 <= k < |steps| => steps[k].value)
  }

  /** Payloads offered to the cache, in role order. */
  function Captures(roles: seq<FeatureRole>, steps: seq<FeatureStep>): seq<(FeatureRole, Bytes)>
    requires |roles| == |steps|
  {
    if roles == [] then []
    else
      var n := |roles| - 1;
      Captures(roles[..n], steps[..n])
      + if steps[n].captured.Some? then [(roles[n], steps[n].captured.value)] else []
  }

  function EncoderCalls(steps: seq<FeatureStep>): nat {
    if steps == [] then 0
    else EncoderCalls(steps[..|steps| - 1]) + if steps[|steps| - 1].encoded then 1 else 0
  }

  /** Roles whose transaction state is "hit" once rejections are recorded. */
  function Hits(roles: seq<FeatureRole>, cached: map<FeatureRole, Bytes>, steps: seq<FeatureStep>): nat
    requires |roles| == |steps|
  {
    if roles == [] then 0
    else
      var n := |roles| - 1;
      Hits(roles[..n], cached, steps[..n]) + if roles[n] in cached && !steps[n].rejected then 1 else 0
  }

  datatype StagedRun = StagedRun(
    preprocess: PreprocessStep,
    features: seq<FeatureStep>,
    payloads: seq<Bytes>,
    encoderCalls: nat,
    projectionCalls: nat)

  /** `ControlFoleyStagedPath.invoke` when no backend call raises: the four stage
      payloads, the last of which is the artifact.  None is the contract error for
      cached features offered to a backend without the split, or for a foreign role. */
  function Run(b: Backend, task: Task, cachedPreprocess: Option<Bytes>,
               cachedFeatures: Option<map<FeatureRole, Bytes>>, v: Views, d: Deployment): Option<StagedRun> {
    var pre := RunPreprocess(b, cachedPreprocess, v.preprocess, d);
    if cachedFeatures.None? && !b.split then
      var c := b.condition(pre.value, v.projected, d);
      var g := b.integrate(c, v.integrated, d);
      Some(StagedRun(pre, [], [pre.value, c, g, b.decode(g, v.decoded, d)], 0, 0))
    else
      var roles := FeatureRoles(task);
      var cached := if cachedFeatures.Some? then cachedFeatures.value else map[];
      if !b.split || exists r :: r in cached && r !in roles then None
      else
        var steps := RunFeatures(b, roles, cached, pre.value, v.features, d);
        var c := b.project(pre.value, Values(steps), v.projected, d);
        var g := b.integrate(c, v.integrated, d);
        Some(StagedRun(pre, steps, [pre.value, c, g, b.decode(g, v.decoded, d)], EncoderCalls(steps), 1))
  }

  /** The reference: the same request with every cache off. */
  function Uncached(b: Backend, i: Inputs, d: Deployment): (run: StagedRun)
    ensures |run.payloads| == 4
  {
    Run(b, i.request.task, None, None, Steady(i), d).value
  }

  // ------------------------------------------------------- what a run is made of

  /** The first payload: the cached one if the backend can import it, else a fresh one. */
  predicate Preprocesses(b: Backend, cached: Option<Bytes>, v: PreprocessView, d: Deployment, value: Bytes) {
    if cached.Some? && b.importPreprocess(cached.value, v.imported, d).Some?
    then b.importPreprocess(cached.value, v.imported, d) == Some(value)
    else value == b.preprocess(v.ran, d)
  }

  /** One role's feature: likewise, under that role. */
  predicate Features(b: Backend, role: FeatureRole, cached: Option<Bytes>, pre: Bytes, v: FeatureView, d: Deployment, value: Bytes) {
    if cached.Some? && b.importFeature(role, cached.value, pre, v.imported, d).Some?
    then b.importFeature(role, cached.value, pre, v.imported, d) == Some(value)
    else value == b.encode(role, pre, v.encoded, d)
  }

  /** A stage's value as its own backend call on the value of the stage before; the
      condition stage of a split backend projects one feature per role, in role order. */
  ghost predicate Outputs(b: Backend, task: Task, stage: Stage, cached: map<FeatureRole, Bytes>, v: Views, d: Deployment,
                          previous: Bytes, value: Bytes)
  {
    match stage
    case MediaResolvePreprocess => false
    case ConditionEncodeProjection =>
      if b.split then
        exists features: seq<Bytes> ::
          && |features| == |FeatureRoles(task)|
          && (forall k :: 0 <= k < |features| ==>
                Features(b, FeatureRoles(task)[k], Cached(cached, FeatureRoles(task)[k]), previous, v.features(k), d, features[k]))
          && value == b.project(previous, features, v.projected, d)
      else value == b.condition(previous, v.projected, d)
    case Integrate => value == b.integrate(previous, v.integrated, d)
    case DecodeVocoderPostprocess => value == b.decode(previous, v.decoded, d)
  }

  /** One payload per stage, each the output of its stage on the one before. */
  ghost predicate Threads(b: Backend, task: Task, cachedPreprocess: Option<Bytes>,
                          cachedFeatures: Option<map<FeatureRole, Bytes>>, v: Views, d: Deployment, payloads: seq<Bytes>)
  {
    && |payloads| == |STAGE_ORDER|
    && Preprocesses(b, cachedPreprocess, v.preprocess, d, payloads[0])
    && (forall k :: 0 < k < |payloads| ==>
          Outputs(b, task, STAGE_ORDER[k], if cachedFeatures.Some? then cachedFeatures.value else map[], v, d,
                  payloads[k - 1], payloads[k]))
  }

  /** Cached features are refused by a backend without the split, and for a foreign role. */
  predicate Refuses(b: Backend, task: Task, cachedFeatures: Option<map<FeatureRole, Bytes>>) {
    cachedFeatures.Some? && (!b.split || exists r :: r in cachedFeatures.value && r !in FeatureRoles(task))
  }

  lemma ProjectsFeatures(b: Backend, task: Task, cached: map<FeatureRole, Bytes>, v: Views, d: Deployment, pre: Bytes)
    requires b.split
    ensures var steps := RunFeatures(b, FeatureRoles(task), cached, pre, v.features, d);
            Outputs(b, task, ConditionEncodeProjection, cached, v, d, pre, b.project(pre, Values(steps), v.projected, d))
  {
    var roles := FeatureRoles(task);
    var features := Values(RunFeatures(b, roles, cached, pre, v.features, d));
    forall k | 0 <= k < |features|
      ensures Features(b, roles[k], Cached(cached, roles[k]), pre, v.features(k), d, features[k])
    {
    }
  }

  /** Every run threads the stages, whatever is cached, and fails only on a refusal. */
  lemma RunThreads(b: Backend, task: Task, cachedPreprocess: Option<Bytes>,
                   cachedFeatures: Option<map<FeatureRole, Bytes>>, v: Views, d: Deployment)
    ensures var run := Run(b, task, cachedPreprocess, cachedFeatures, v, d);
            && (run.None? <==> Refuses(b, task, cachedFeatures))
            && (run.Some? ==> Threads(b, task, cachedPreprocess, cachedFeatures, v, d, run.value.payloads))
  {
    var cached := if cachedFeatures.Some? then cachedFeatures.value else map[];
    var pre := RunPreprocess(b, cachedPreprocess, v.preprocess, d).value;
    if b.split {
      ProjectsFeatures(b, task, cached, v, d, pre);
    }
    var run := Run(b, task, cachedPreprocess, cachedFeatures, v, d);
    if run.Some? {
      var payloads := run.value.payloads;
      assert payloads[0] == pre;
      assert Outputs(b, task, STAGE_ORDER[1], cached, v, d, payloads[0], payloads[1]);
      assert Outputs(b, task, STAGE_ORDER[2], cached, v, d, payloads[1], payloads[2]);
      assert Outputs(b, task, STAGE_ORDER[3], cached, v, d, payloads[2], payloads[3]);
    }
  }

  /** A feature is offered for caching exactly when its encoder ran and exported it. */
  lemma CapturedIffEncoded(b: Backend, roles: seq<FeatureRole>, cached: map<FeatureRole, Bytes>, pre: Bytes,
                           views: nat -> FeatureView, d: Deployment, c: (FeatureRole, Bytes))
    ensures var steps := RunFeatures(b, roles, cached, pre, views, d);
            c in Captures(roles, steps) <==>
              exists k :: 0 <= k < |roles| && roles[k] == c.0
                          && (roles[k] !in cached || b.importFeature(roles[k], cached[roles[k]], pre, views(k).imported, d).None?)
                          && b.exportFeature(roles[k], steps[k].value, views(k).exported, d) == Some(c.1)
  {
    var steps := RunFeatures(b, roles, cached, pre, views, d);
    if c in Captures(roles, steps) {
      CapturesMember(roles, steps, c);
    }
    if k :| 0 <= k < |roles| && roles[k] == c.0 && steps[k].captured == Some(c.1) {
      MemberIsCaptured(roles, steps, k, c.1);
    }
  }

  lemma {:induction false} MemberIsCaptured(roles: seq<FeatureRole>, steps: seq<FeatureStep>, k: nat, payload: Bytes)
    requires |roles| == |steps| && k < |roles| && steps[k].captured == Some(payload)
    ensures (roles[k], payload) in Captures(roles, steps)
  {
    if k < |roles| - 1 {
      MemberIsCaptured(roles[..|roles| - 1], steps[..|steps| - 1], k, payload);
    }
  }

  /** The payloads with every cache off, as backend calls on the inputs alone. */
  function Direct(b: Backend, i: Inputs, d: Deployment): (payloads: seq<Bytes>)
    ensures |payloads| == |STAGE_ORDER|
  {
    var pre := b.preprocess(i, d);
    var roles := FeatureRoles(i.request.task);
    var condition :=
      if b.split then b.project(pre, seq(|roles|, k requires 0 <= k < |roles| => b.encode(roles[k], pre, i, d)), i, d)
      else b.condition(pre, i, d);
    var integrated := b.integrate(condition, i, d);
    [pre, condition, integrated, b.decode(integrated, i, d)]
  }

  lemma UncachedIsDirect(b: Backend, i: Inputs, d: Deployment)
    ensures Uncached(b, i, d).payloads == Direct(b, i, d)
  {
    RunThreads(b, i.request.task, None, None, Steady(i), d);
    var payloads, roles := Uncached(b, i, d).payloads, FeatureRoles(i.request.task);
    assert Outputs(b, i.request.task, STAGE_ORDER[1], map[], Steady(i), d, payloads[0], payloads[1]);
    assert Outputs(b, i.request.task, STAGE_ORDER[2], map[], Steady(i), d, payloads[1], payloads[2]);
    assert Outputs(b, i.request.task, STAGE_ORDER[3], map[], Steady(i), d, payloads[2], payloads[3]);
    if b.split {
      var features: seq<Bytes> :|
        && |features| == |roles|
        && (forall k :: 0 <= k < |features| ==>
              Features(b, roles[k], Cached(map[], roles[k]), payloads[0], Steady(i).features(k), d, features[k]))
        && payloads[1] == b.project(payloads[0], features, i, d);
      assert features == seq(|roles|, k requires 0 <= k < |roles| => b.encode(roles[k], payloads[0], i, d));
    }
  }

  /** What a readable cache entry must hold. */
  ghost predicate PreprocessExport(b: Backend, bytes: Bytes, i: Inputs, d: Deployment) {
    b.exportPreprocess(b.preprocess(i, d), i, d) == Some(bytes)
  }

  ghost predicate FeatureExport(b: Backend, role: FeatureRole, bytes: Bytes, i: Inputs, d: Deployment) {
    b.exportFeature(role, Feature(b, role, i, d), i, d) == Some(bytes)
  }

  lemma PreprocessIsTransparent(b: Backend, cached: Option<Bytes>, i: Inputs, d: Deployment)
    requires Faithful(b)
    requires cached.Some? ==> PreprocessExport(b, cached.value, i, d)
    ensures RunPreprocess(b, cached, PreprocessView(i, i, i), d).value == b.preprocess(i, d)
    ensures var s := RunPreprocess(b, cached, PreprocessView(i, i, i), d);
            s.captured.Some? ==> PreprocessExport(b, s.captured.value, i, d)
  {
  }

  lemma FeatureIsTransparent(b: Backend, role: FeatureRole, cached: Option<Bytes>, i: Inputs, d: Deployment)
    requires Faithful(b)
    requires cached.Some? ==> FeatureExport(b, role, cached.value, i, d)
    ensures var s := RunFeature(b, role, cached, b.preprocess(i, d), FeatureView(i, i, i), d);
            && s.value == Feature(b, role, i, d)
            && (s.captured.Some? ==> FeatureExport(b, role, s.captured.value, i, d))
  {
  }

  lemma CapturesMember(roles: seq<FeatureRole>, steps: seq<FeatureStep>, c: (FeatureRole, Bytes))
    requires |roles| == |steps| && c in Captures(roles, steps)
    ensures exists k :: 0 <= k < |roles| && roles[k] == c.0 && steps[k].captured == Some(c.1)
  {
    var n := |roles| - 1;
    if c in Captures(roles[..n], steps[..n]) {
      CapturesMember(roles[..n], steps[..n], c);
    } else {
      assert roles[n] == c.0 && steps[n].captured == Some(c.1);
    }
  }

  /** Stage transparency: if the inputs hold still and every cached payload is the
      backend's own export for them, then all four stage payloads (and so the
      artifact) are those of the uncached run, whatever was hit, missed or rejected,
      and everything offered for caching is again such an export. */
  lemma RunIsTransparent(b: Backend, cachedPreprocess: Option<Bytes>, cachedFeatures: Option<map<FeatureRole, Bytes>>,
                         v: Views, i: Inputs, d: Deployment)
    requires Faithful(b) && AllSee(v, i)
    requires cachedPreprocess.Some? ==> PreprocessExport(b, cachedPreprocess.value, i, d)
    requires cachedFeatures.Some? ==>
               forall r :: r in cachedFeatures.value ==> FeatureExport(b, r, cachedFeatures.value[r], i, d)
    requires Run(b, i.request.task, cachedPreprocess, cachedFeatures, v, d).Some?
    ensures var run := Run(b, i.request.task, cachedPreprocess, cachedFeatures, v, d).value;
            && run.payloads == Uncached(b, i, d).payloads == Direct(b, i, d)
            && (run.preprocess.captured.Some? ==> PreprocessExport(b, run.preprocess.captured.value, i, d))
            && (run.features != [] ==>
                  (&& |run.features| == |FeatureRoles(i.request.task)|
                   && forall c :: c in Captures(FeatureRoles(i.request.task), run.features) ==>
                        FeatureExport(b, c.0, c.1, i, d)))
  {
    UncachedIsDirect(b, i, d);
    PreprocessIsTransparent(b, cachedPreprocess, i, d);
    PreprocessIsTransparent(b, None, i, d);
    var roles := FeatureRoles(i.request.task);
    var pre := b.preprocess(i, d);
    var cached := if cachedFeatures.Some? then cachedFeatures.value else map[];
    var steps := RunFeatures(b, roles, cached, pre, v.features, d);
    var plain := RunFeatures(b, roles, map[], pre, Steady(i).features, d);
    forall k | 0 <= k < |roles|
      ensures steps[k].value == plain[k].value == Feature(b, roles[k], i, d)
      ensures steps[k].captured.Some? ==> FeatureExport(b, roles[k], steps[k].captured.value, i, d)
    {
      FeatureIsTransparent(b, roles[k], Cached(cached, roles[k]), i, d);
      FeatureIsTransparent(b, roles[k], None, i, d);
    }
    assert Values(steps) == Values(plain);
    forall c | c in Captures(roles, steps) ensures FeatureExport(b, c.0, c.1, i, d) {
      CapturesMember(roles, steps, c);
    }
  }

  lemma EncodersAreMisses(roles: seq<FeatureRole>, cached: map<FeatureRole, Bytes>, steps: seq<FeatureStep>)
    requires |roles| == |steps|
    requires forall k :: 0 <= k < |roles| ==> (steps[k].encoded <==> roles[k] !in cached || steps[k].rejected)
    ensures Hits(roles, cached, steps) + EncoderCalls(steps) == |roles|
  {
    if roles != [] {
      var n := |roles| - 1;
      EncodersAreMisses(roles[..n], cached, steps[..n]);
    }
  }

  /** Condition accounting.  A completed run over a backend with the split projects
      exactly once, and each task role is either a hit or encoded; a rejected payload counts
      as a miss, and without cached features (or without an L2 transaction) every role is
      encoded.  Without the split neither is observable.  Holds for any backend, faithful or
      not, and any drift of the inputs. */
  lemma ConditionAccounting(b: Backend, task: Task, cachedPreprocess: Option<Bytes>,
                            cachedFeatures: Option<map<FeatureRole, Bytes>>, v: Views, d: Deployment)
    requires Run(b, task, cachedPreprocess, cachedFeatures, v, d).Some?
    ensures var run := Run(b, task, cachedPreprocess, cachedFeatures, v, d).value;
            var roles := FeatureRoles(task);
            var cached := if cachedFeatures.Some? then cachedFeatures.value else map[];
            if b.split then
              && run.projectionCalls == 1
              && |run.features| == |roles|
              && Hits(roles, cached, run.features) + run.encoderCalls == |roles|
              && (cached == map[] ==> run.encoderCalls == |roles|)
            else run.projectionCalls == 0 && run.encoderCalls == 0
  {
    var roles := FeatureRoles(task);
    var cached := if cachedFeatures.Some? then cachedFeatures.value else map[];
    var run := Run(b, task, cachedPreprocess, cachedFeatures, v, d).value;
    var pre := RunPreprocess(b, cachedPreprocess, v.preprocess, d).value;
    if b.split {
      forall k | 0 <= k < |roles|
        ensures run.features[k] == RunFeature(b, roles[k], Cached(cached, roles[k]), pre, v.features(k), d)
      {
      }
      EncodersAreMisses(roles, cached, run.features);
      if cached == map[] {
        NoHits(roles, run.features);
      }
    }
  }

  lemma NoHits(roles: seq<FeatureRole>, steps: seq<FeatureStep>)
    requires |roles| == |steps|
    ensures Hits(roles, map[], steps) == 0
  {
  }

  /** The role loop of the condition stage. */
  method RunConditionFeatures(b: Backend, roles: seq<FeatureRole>, cached: map<FeatureRole, Bytes>, pre: Bytes,
                              views: nat -> FeatureView, d: Deployment)
    returns (features: seq<Bytes>, rejected: set<FeatureRole>, captured: seq<(FeatureRole, Bytes)>, encoders: nat)
    ensures features == Values(RunFeatures(b, roles, cached, pre, views, d))
    ensures captured == Captures(roles, RunFeatures(b, roles, cached, pre, views, d))
    ensures encoders == EncoderCalls(RunFeatures(b, roles, cached, pre, views, d))
    ensures forall r :: r in rejected <==>
              exists k :: 0 <= k < |roles| && roles[k] == r && RunFeatures(b, roles, cached, pre, views, d)[k].rejected
  {
    features, rejected, captured, encoders := [], {}, [], 0;
    ghost var steps := RunFeatures(b, roles, cached, pre, views, d);
    var k := 0;
    while k < |roles|
      invariant 0 <= k <= |roles|
      invariant features == Values(steps[..k])
      invariant captured == Captures(roles[..k], steps[..k])
      invariant encoders == EncoderCalls(steps[..k])
      invariant forall r :: r in rejected <==> exists j :: 0 <= j < k && roles[j] == r && steps[j].rejected
    {
      var role := roles[k];
      var feature: Option<Bytes> := None;
      if role in cached {
        feature := b.importFeature(role, cached[role], pre, views(k).imported, d);
        if feature.None? {
          rejected := rejected + {role};
        }
      }
      if feature.None? {
        encoders := encoders + 1;
        var value := b.encode(role, pre, views(k).encoded, d);
        feature := Some(value);
        var payload := b.exportFeature(role, value, views(k).exported, d);
        if payload.Some? {
          captured := captured + [(role, payload.value)];
        }
      }
      features := features + [feature.value];
      assert steps[..k + 1][..k] == steps[..k] && roles[..k + 1][..k] == roles[..k];
      k := k + 1;
    }
    assert steps[..k] == steps && roles[..k] == roles;
  }

  /** The condition stage with its contract checks; None is the contract error. */
  method RunConditionStage(b: Backend, task: Task, cached: map<FeatureRole, Bytes>, pre: Bytes, v: Views, d: Deployment)
    returns (value: Option<Bytes>, encoders: nat)
    ensures value.None? <==> !b.split || exists r :: r in cached && r !in FeatureRoles(task)
    ensures value.Some? ==>
              var steps := RunFeatures(b, FeatureRoles(task), cached, pre, v.features, d);
              value.value == b.project(pre, Values(steps), v.projected, d) && encoders == EncoderCalls(steps)
    ensures value.Some? ==> Outputs(b, task, ConditionEncodeProjection, cached, v, d, pre, value.value)
  {
    if !b.split || exists r :: r in cached && r !in FeatureRoles(task) {
      return None, 0;
    }
    var features, _, _, calls := RunConditionFeatures(b, FeatureRoles(task), cached, pre, v.features, d);
    ProjectsFeatures(b, task, cached, v, d, pre);
    return Some(b.project(pre, features, v.projected, d)), calls;
  }

  /** What the stage loop has computed after `n` stages of the run. */
  ghost predicate Progress(run: Option<StagedRun>, pre: Bytes, done: seq<Bytes>, encoders: nat, projections: nat) {
    && |done| <= 4
    && (done != [] ==> done[0] == pre)
    && (|done| < 2 ==> encoders == projections == 0)
    && (|done| >= 2 ==> run.Some? && |run.value.payloads| == 4 && done == run.value.payloads[..|done|]
                        && encoders == run.value.encoderCalls && projections == run.value.projectionCalls)
  }

  lemma OneStageMore(run: Option<StagedRun>, pre: Bytes, done: seq<Bytes>, encoders: nat, projections: nat, value: Bytes)
    requires Progress(run, pre, done, encoders, projections) && 2 <= |done| < 4 && value == run.value.payloads[|done|]
    ensures Progress(run, pre, done + [value], encoders, projections)
  {
  }

  /** What the stages after the first come to, in terms of the run. */
  ghost predicate Plans(b: Backend, task: Task, cachedFeatures: Option<map<FeatureRole, Bytes>>, v: Views, d: Deployment,
                        pre: Bytes, run: Option<StagedRun>)
  {
    var cached := if cachedFeatures.Some? then cachedFeatures.value else map[];
    var steps := RunFeatures(b, FeatureRoles(task), cached, pre, v.features, d);
    && (if cachedFeatures.Some? || b.split then
          if !b.split || exists r :: r in cached && r !in FeatureRoles(task) then run.None?
          else Progress(run, pre, [pre, b.project(pre, Values(steps), v.projected, d)], EncoderCalls(steps), 1)
        else Progress(run, pre, [pre, b.condition(pre, v.projected, d)], 0, 0))
    && (run.Some? ==>
          var payloads := run.value.payloads;
          && |payloads| == 4 && payloads[2] == b.integrate(payloads[1], v.integrated, d)
          && payloads[3] == b.decode(payloads[2], v.decoded, d))
  }

  lemma RunPlans(b: Backend, task: Task, cachedPreprocess: Option<Bytes>,
                 cachedFeatures: Option<map<FeatureRole, Bytes>>, v: Views, d: Deployment)
    ensures Plans(b, task, cachedFeatures, v, d, RunPreprocess(b, cachedPreprocess, v.preprocess, d).value,
                  Run(b, task, cachedPreprocess, cachedFeatures, v, d))
  {
  }

  /** The stage loop, in the source's order, threading each stage's value into the next. */
  method RunStages(b: Backend, task: Task, cachedPreprocess: Option<Bytes>, cachedFeatures: Option<map<FeatureRole, Bytes>>,
                   v: Views, d: Deployment, ghost run: Option<StagedRun>)
    returns (values: Option<seq<Bytes>>, encoders: nat, projections: nat)
    requires Plans(b, task, cachedFeatures, v, d, RunPreprocess(b, cachedPreprocess, v.preprocess, d).value, run)
    ensures values.Some? == run.Some?
    ensures values.Some? ==>
              values.value == run.value.payloads && encoders == run.value.encoderCalls && projections == run.value.projectionCalls
  {
    encoders, projections := 0, 0;
    var done: seq<Bytes> := [];
    ghost var pre := RunPreprocess(b, cachedPreprocess, v.preprocess, d).value;
    while |done| < |STAGE_ORDER|
      invariant Progress(run, pre, done, encoders, projections)
      decreases 4 - |done|
    {
      match STAGE_ORDER[|done|] {
        case MediaResolvePreprocess =>
          var value: Option<Bytes> := None;
          if cachedPreprocess.Some? {
            value := b.importPreprocess(cachedPreprocess.value, v.preprocess.imported, d);
          }
          done := [if value.Some? then value.value else b.preprocess(v.preprocess.ran, d)];
        case ConditionEncodeProjection =>
          if cachedFeatures.Some? || b.split {
            var cached := if cachedFeatures.Some? then cachedFeatures.value else map[];
            var value, calls := RunConditionStage(b, task, cached, done[0], v, d);
            if value.None? {
              return None, 0, 0;
            }
            encoders, projections := calls, 1;
            done := done + [value.value];
          } else {
            done := done + [b.condition(done[0], v.projected, d)];
          }
        case Integrate =>
          var integrated := b.integrate(done[1], v.integrated, d);
          OneStageMore(run, pre, done, encoders, projections, integrated);
          done := done + [integrated];
        case DecodeVocoderPostprocess =>
          var decoded := b.decode(done[2], v.decoded, d);
          OneStageMore(run, pre, done, encoders, projections, decoded);
          done := done + [decoded];
      }
    }
    values := Some(done);
  }

  method Invoke(b: Backend, task: Task, cachedPreprocess: Option<Bytes>,
                cachedFeatures: Option<map<FeatureRole, Bytes>>, v: Views, d: Deployment)
    returns (values: Option<seq<Bytes>>, encoders: nat, projections: nat)
    ensures values.Some? == Run(b, task, cachedPreprocess, cachedFeatures, v, d).Some?
    ensures values.Some? ==>
              var run := Run(b, task, cachedPreprocess, cachedFeatures, v, d).value;
              values.value == run.payloads && encoders == run.encoderCalls && projections == run.projectionCalls
    ensures values.None? <==> Refuses(b, task, cachedFeatures)
    ensures values.Some? ==> Threads(b, task, cachedPreprocess, cachedFeatures, v, d, values.value)
  {
    ghost var run := Run(b, task, cachedPreprocess, cachedFeatures, v, d);
    RunPlans(b, task, cachedPreprocess, cachedFeatures, v, d);
    RunThreads(b, task, cachedPreprocess, cachedFeatures, v, d);
    values, encoders, projections := RunStages(b, task, cachedPreprocess, cachedFeatures, v, d, run);
  }
}
