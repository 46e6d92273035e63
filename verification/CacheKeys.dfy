/** Cache keys of the ControlFoley L0/L1 and L2 tiers.

    The source hashes a canonical JSON text of the key; the digest is modelled as
    the key value itself (canonical JSON is injective, SHA-256 collision-free). */
module CacheKeys {
  import opened Common

  datatype Task = V2A | TV2A | TCV2A | ACV2A | T2A

  datatype InputRole = Prompt | ReferenceAudio | Video

  /** Encoder roles of the condition stage (a prompt is encoded as text). */
  datatype FeatureRole = VideoFeature | ReferenceAudioFeature | TextFeature

  datatype Request = Request(
    task: Task,
    prompt: Option<Bytes>,
    durationSeconds: real,
    numSteps: int,
    guidanceScale: real,
    seed: int)

  /** The bytes currently behind the request's two file paths. */
  datatype Media = Media(video: Option<Bytes>, referenceAudio: Option<Bytes>)

  /** Everything a backend can observe of a request at one moment. */
  datatype Inputs = Inputs(request: Request, media: Media)

  datatype Deployment = Deployment(
    fingerprint: string,
    manifestSha256: string,
    sourceRevision: string,
    checkpointSha256: string,
    variant: string,
    precision: string,
    backendId: string)

  datatype Policy = Policy(
    preprocessVersion: string,
    codeVersion: string,
    codecVersion: string,
    schemaVersion: string)

  datatype CacheInput = CacheInput(role: InputRole, sha256: Bytes, sizeBytes: nat)

  datatype CacheKey = CacheKey(
    inputs: seq<CacheInput>,
    task: Task,
    durationSeconds: real,
    numSteps: int,
    guidanceScale: real,
    seed: int,
    preprocessVersion: string,
    codeVersion: string,
    deployment: Deployment)

  datatype ConditionKey = ConditionKey(
    parent: CacheKey,
    role: FeatureRole,
    codecVersion: string,
    schemaVersion: string)

  function ExpectedInputRoles(task: Task): seq<InputRole> {
    match task
    case V2A => [Video]
    case TV2A => [Prompt, Video]
    case TCV2A => [Prompt, Video]
    case ACV2A => [ReferenceAudio, Video]
    case T2A => [Prompt]
  }

  function FeatureRoles(task: Task): (roles: seq<FeatureRole>)
    ensures roles != []
    ensures forall i, j :: 0 <= i < j < |roles| ==> roles[i] != roles[j]
  {
    match task
    case V2A => [VideoFeature]
    case TV2A => [VideoFeature, TextFeature]
    case TCV2A => [VideoFeature, TextFeature]
    case ACV2A => [VideoFeature, ReferenceAudioFeature]
    case T2A => [TextFeature]
  }

  function InputOf(role: InputRole, content: Option<Bytes>): seq<CacheInput> {
    if content.None? then [] else [CacheInput(role, content.value, |content.value|)]
  }

  /** The fingerprinted inputs in canonical (alphabetical) role order. */
  function FingerprintedInputs(i: Inputs): seq<CacheInput> {
    InputOf(Prompt, i.request.prompt)
    + InputOf(ReferenceAudio, i.media.referenceAudio)
    + InputOf(Video, i.media.video)
  }

  function RolesOf(inputs: seq<CacheInput>): seq<InputRole> {
    seq(|inputs|, k requires 0 <= k < |inputs| => inputs[k].role)
  }

  /** `ControlFoleyCacheKey.from_request`; None stands for the ValueError raised
      when the roles or parameters break the key contract. */
  function FromRequest(i: Inputs, d: Deployment, p: Policy): Option<CacheKey> {
    if RolesOf(FingerprintedInputs(i)) != ExpectedInputRoles(i.request.task)
       || i.request.durationSeconds <= 0.0 || i.request.numSteps <= 0
    then None
    else Some(CacheKey(FingerprintedInputs(i), i.request.task, i.request.durationSeconds,
                       i.request.numSteps, i.request.guidanceScale, i.request.seed,
                       p.preprocessVersion, p.codeVersion, d))
  }

  function KeyForParent(parent: CacheKey, role: FeatureRole, p: Policy): ConditionKey {
    ConditionKey(parent, role, p.codecVersion, p.schemaVersion)
  }

  /** What a fingerprint list says about one role. */
  function ContentOf(inputs: seq<CacheInput>, role: InputRole): Option<Bytes> {
    if inputs == [] then None
    else if inputs[0].role == role then Some(inputs[0].sha256)
    else ContentOf(inputs[1..], role)
  }

  lemma ContentOfConcat(a: seq<CacheInput>, b: seq<CacheInput>, role: InputRole)
    ensures ContentOf(a + b, role) == if ContentOf(a, role).Some? then ContentOf(a, role) else ContentOf(b, role)
  {
    if a == [] {
      assert a + b == b;
    } else {
      assert (a + b)[1..] == a[1..] + b;
      ContentOfConcat(a[1..], b, role);
    }
  }

  /** The fingerprint list is a faithful encoding: every input can be read back. */
  lemma FingerprintsDecode(i: Inputs, role: InputRole)
    ensures ContentOf(FingerprintedInputs(i), role) ==
            match role
            case Prompt => i.request.prompt
            case ReferenceAudio => i.media.referenceAudio
            case Video => i.media.video
  {
    var p := InputOf(Prompt, i.request.prompt);
    var r := InputOf(ReferenceAudio, i.media.referenceAudio);
    var v := InputOf(Video, i.media.video);
    ContentOfConcat(p + r, v, role);
    ContentOfConcat(p, r, role);
  }

  function Flagged(prompt: bool, reference: bool, video: bool): seq<InputRole> {
    (if prompt then [Prompt] else []) + (if reference then [ReferenceAudio] else []) + (if video then [Video] else [])
  }

  lemma FlagsDiffer(prompt: bool, reference: bool, video: bool)
    ensures var roles := Flagged(prompt, reference, video);
            (Prompt in roles <==> prompt) && (ReferenceAudio in roles <==> reference) && (Video in roles <==> video)
  {
  }

  lemma RolesAreFlags(i: Inputs)
    ensures RolesOf(FingerprintedInputs(i))
            == Flagged(i.request.prompt.Some?, i.media.referenceAudio.Some?, i.media.video.Some?)
  {
  }

  /** A request has a key exactly when it brings the inputs of its task and no others, and
      its duration and steps are positive. */
  lemma KeyExistsIff(i: Inputs, d: Deployment, p: Policy)
    ensures var task := i.request.task;
            FromRequest(i, d, p).Some? <==>
              && (i.media.video.Some? <==> !task.T2A?)
              && (i.request.prompt.Some? <==> task.TV2A? || task.TCV2A? || task.T2A?)
              && (i.media.referenceAudio.Some? <==> task.ACV2A?)
              && i.request.durationSeconds > 0.0 && i.request.numSteps > 0
  {
    var task := i.request.task;
    RolesAreFlags(i);
    assert ExpectedInputRoles(task) == Flagged(task.TV2A? || task.TCV2A? || task.T2A?, task.ACV2A?, !task.T2A?);
    FlagsDiffer(i.request.prompt.Some?, i.media.referenceAudio.Some?, i.media.video.Some?);
    FlagsDiffer(task.TV2A? || task.TCV2A? || task.T2A?, task.ACV2A?, !task.T2A?);
  }

  /** The features of a task are those of its inputs. */
  lemma FeaturesFollowInputs(task: Task)
    ensures VideoFeature in FeatureRoles(task) <==> Video in ExpectedInputRoles(task)
    ensures TextFeature in FeatureRoles(task) <==> Prompt in ExpectedInputRoles(task)
    ensures ReferenceAudioFeature in FeatureRoles(task) <==> ReferenceAudio in ExpectedInputRoles(task)
  {
  }

  /** One key stands for exactly one observation: the key separates any two input
      contents, parameters or deployments the backend could tell apart. */
  lemma KeyDeterminesObservation(i: Inputs, d: Deployment, j: Inputs, e: Deployment, p: Policy)
    requires FromRequest(i, d, p).Some?
    requires FromRequest(i, d, p) == FromRequest(j, e, p)
    ensures i == j && d == e
  {
    FingerprintsDecode(i, Prompt);
    FingerprintsDecode(j, Prompt);
    FingerprintsDecode(i, ReferenceAudio);
    FingerprintsDecode(j, ReferenceAudio);
    FingerprintsDecode(i, Video);
    FingerprintsDecode(j, Video);
  }
}
