/** The deterministic fake backend with its safetensors feature codec, as an instance of
    the backends the transparency theorem speaks about. */
module FakeBackend {
  import opened Common
  import opened CacheKeys
  import opened StagedPath
  import T = SafeTensor

  const CODEC := "fake-condition-codec-v1"
  const SCHEMA := "fake-condition-schema-v1"

  const DIGEST_BYTES := 32

  /** The canonical text of a request's parameters, the SHA-256 digest and the JSON
      library: any functions will do that give 32-byte digests and carry the headers of
      one such digest under the three role names. */
  datatype Fake = Fake(text: Request -> Bytes, hash: Bytes -> Bytes, json: T.Codec)

  ghost predicate Proper(f: Fake) {
    && (forall b :: |f.hash(b)| == DIGEST_BYTES)
    && (forall role: FeatureRole :: T.Carries(f.json, T.BuiltHeader(DIGEST_BYTES, CODEC, SCHEMA, RoleName(role))))
  }

  function RoleName(role: FeatureRole): string {
    match role
    case VideoFeature => "video"
    case ReferenceAudioFeature => "reference_audio"
    case TextFeature => "text"
  }

  function Tag(stage: nat): Bytes {
    [(58 as Byte), (stage % 256) as Byte, 58]
  }

  /** The hash input separates the parts by colons. */
  function Mix(f: Fake, first: Bytes, tag: nat, i: Inputs): Bytes {
    f.hash(first + Tag(tag) + f.text(i.request))
  }

  function JoinFeatures(features: seq<Bytes>): Bytes {
    if features == [] then [] else features[0] + Tag(58) + JoinFeatures(features[1..])
  }

  function ExportFeature(f: Fake, role: FeatureRole, value: Bytes): Option<Bytes> {
    T.Build(f.json, value, CODEC, SCHEMA, RoleName(role))
  }

  /** The import checks the bundle, its single U8 tensor and its name before use. */
  function ImportFeature(f: Fake, role: FeatureRole, payload: Bytes, i: Inputs): Option<Bytes> {
    if role !in FeatureRoles(i.request.task) || !T.Accepted(f.json, payload, CODEC, SCHEMA, None) then None
    else
      var bundle := T.BundleOf(f.json, payload, CODEC, SCHEMA);
      if |bundle.tensors| != 1 || bundle.tensors[0].name != RoleName(role) || bundle.tensors[0].dtype != "U8"
         || bundle.tensors[0].shape != [|bundle.data|] then None
      else
        var value := T.TensorBytes(bundle, RoleName(role));
        if value == Some([]) then None else value
  }

  /** Media files enter no hash: the fake only looks at the request. */
  function Instance(f: Fake): Backend {
    Backend(
      true,
      (i: Inputs, d: Deployment) => Mix(f, [], 0, i),
      (role: FeatureRole, pre: Bytes, i: Inputs, d: Deployment) => Mix(f, pre, 10 + |RoleName(role)|, i),
      (pre: Bytes, features: seq<Bytes>, i: Inputs, d: Deployment) => Mix(f, pre + Tag(1) + JoinFeatures(features), 1, i),
      (pre: Bytes, i: Inputs, d: Deployment) => Mix(f, pre, 1, i),
      (c: Bytes, i: Inputs, d: Deployment) => Mix(f, c, 2, i),
      (g: Bytes, i: Inputs, d: Deployment) => Mix(f, g, 3, i),
      (v: Bytes, i: Inputs, d: Deployment) => if v == [] then None else Some(v),
      (v: Bytes, i: Inputs, d: Deployment) => if v == [] then None else Some(v),
      (role: FeatureRole, v: Bytes, i: Inputs, d: Deployment) => ExportFeature(f, role, v),
      (role: FeatureRole, v: Bytes, pre: Bytes, i: Inputs, d: Deployment) => ImportFeature(f, role, v, i))
  }

  lemma NamesAreIdentifiers(role: FeatureRole)
    ensures T.Identifier(CODEC) && T.Identifier(SCHEMA) && T.Identifier(RoleName(role)) && RoleName(role) != T.METADATA
  {
    assert T.METADATA[0] == '_' && RoleName(role)[0] != '_';
  }

  /** Importing an exported feature gives it back, or nothing for a role the task lacks. */
  lemma FeatureCodecRoundTrips(f: Fake, role: FeatureRole, value: Bytes, i: Inputs)
    requires Proper(f) && |value| == DIGEST_BYTES
    ensures ExportFeature(f, role, value).Some?
    ensures ImportFeature(f, role, ExportFeature(f, role, value).value, i) ==
            if role in FeatureRoles(i.request.task) then Some(value) else None
  {
    NamesAreIdentifiers(role);
    T.BuildRoundTrips(f.json, value, CODEC, SCHEMA, RoleName(role));
    var payload := ExportFeature(f, role, value).value;
    T.BuiltSplits(f.json.encode(T.BuiltHeader(|value|, CODEC, SCHEMA, RoleName(role))), value);
    assert T.BundleOf(f.json, payload, CODEC, SCHEMA).data == value;
  }

  /** Any codec that carries all buildable headers will do, so proper fakes exist. */
  lemma ProperFakeExists() returns (f: Fake)
    ensures Proper(f)
  {
    var json := T.LosslessCodecExists();
    var digest: Bytes := seq(DIGEST_BYTES, k => 0);
    f := Fake((r: Request) => [], (b: Bytes) => digest, json);
    T.EightBytes(DIGEST_BYTES);
    forall role: FeatureRole ensures T.Carries(json, T.BuiltHeader(DIGEST_BYTES, CODEC, SCHEMA, RoleName(role))) {
      NamesAreIdentifiers(role);
      assert T.Buildable(DIGEST_BYTES, CODEC, SCHEMA, RoleName(role));
    }
  }

  /** The fake backend is one of the backends for which the caches are transparent. */
  lemma FakeIsFaithful(f: Fake)
    requires Proper(f)
    ensures Faithful(Instance(f))
  {
    forall role: FeatureRole, i: Inputs, d: Deployment
      ensures var b := Instance(f);
              var v := Feature(b, role, i, d);
              && b.exportFeature(role, v, i, d).Some?
              && b.importFeature(role, b.exportFeature(role, v, i, d).value, b.preprocess(i, d), i, d) in {None, Some(v)}
    {
      FeatureCodecRoundTrips(f, role, Feature(Instance(f), role, i, d), i);
    }
  }
}
