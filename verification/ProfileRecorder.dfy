/** The per-invocation profile recorder: stage intervals on a monotonic clock, optional
    CUDA observations, and the report they add up to. */
module ProfileRecorder {
  import opened Common

  datatype Level = OFF | INVOCATION | STAGES
  datatype Operation = UpstreamParity | ExperimentalStaged
  datatype CudaStatus = Unavailable | Available | Error

  /** Stages with their CPU nanoseconds; `cuda` stands for the observed CUDA figures. */
  datatype Stage = Stage(name: string, ns: int, cuda: Option<nat>)

  datatype ProfileError = CpuClockError | StageAccountingError
  datatype Report = Empty | Reused | Failed(error: ProfileError) | Ok(total: int, stages: seq<Stage>, cuda: CudaStatus)

  datatype Recorder = Recorder(
    level: Level,
    operation: Operation,
    stages: seq<Stage>,
    error: Option<ProfileError>,
    finished: bool,
    last: Option<int>,
    start: Option<int>,
    cuda: CudaStatus)

  /** A clock call that raises or returns something else than an integer yields None. */
  type Reading = Option<int>

  /** The CUDA backend's `begin` raises, returns None, or returns a token; its `end`
      raises (or returns something invalid), or returns figures. */
  datatype CudaBegin = BeginRaises | NoToken | Token
  datatype CudaEnd = EndRaises | Figures(value: nat)

  datatype Observation = Observation(name: string, begin: Reading, cudaBegin: CudaBegin, end: Reading, cudaEnd: CudaEnd)

  function Clock(r: Recorder, reading: Reading): (Recorder, Option<int>) {
    if reading.None? || reading.value < 0 || (r.last.Some? && reading.value < r.last.value)
    then (r.(error := Some(CpuClockError)), None)
    else (r.(last := Some(reading.value)), Some(reading.value))
  }

  function Elapsed(r: Recorder, start: Option<int>, end: Option<int>): (Recorder, Option<int>) {
    if start.None? || end.None? || end.value < start.value then (r.(error := Some(CpuClockError)), None)
    else (r, Some(end.value - start.value))
  }

  function Create(level: Level, operation: Operation, reading: Reading, cudaAvailable: bool): Recorder {
    var blank := Recorder(level, operation, [], None, false, None, None, Unavailable);
    if level.OFF? then blank
    else
      var (r, start) := Clock(blank, reading);
      r.(start := start, cuda := if operation.ExperimentalStaged? && cudaAvailable then Available else Unavailable)
  }

  /** `_observe_name` around one stage. */
  function Observe(r: Recorder, o: Observation): Recorder {
    if !r.level.STAGES? then r
    else
      var (r1, start) := Clock(r, o.begin);
      var asked := r1.cuda.Available?;
      var r2 := if asked && o.cudaBegin.BeginRaises? then r1.(cuda := Error) else r1;
      var token := asked && o.cudaBegin.Token?;
      var (r3, end) := Clock(r2, o.end);
      var r4 := if token && o.cudaEnd.EndRaises? then r3.(cuda := Error) else r3;
      var figures := if token && o.cudaEnd.Figures? then Some(o.cudaEnd.value) else None;
      var (r5, elapsed) := Elapsed(r4, start, end);
      if elapsed.None? then r5 else r5.(stages := r5.stages + [Stage(o.name, elapsed.value, figures)])
  }

  function ObserveAll(r: Recorder, os: seq<Observation>): Recorder {
    if os == [] then r else Observe(ObserveAll(r, os[..|os| - 1]), os[|os| - 1])
  }

  function Names(stages: seq<Stage>): seq<string> {
    seq(|stages|, k requires 0 <= k < |stages| => stages[k].name)
  }

  function Stripped(stages: seq<Stage>): seq<Stage> {
    seq(|stages|, k requires 0 <= k < |stages| => stages[k].(cuda := None))
  }

  const StagedNames := ["media_resolve_preprocess", "condition_encode_projection", "integrate", "decode_vocoder_postprocess"]

  function ExpectedNames(r: Recorder): seq<string> {
    if r.level.INVOCATION? then ["invocation"]
    else if r.operation.UpstreamParity? then ["upstream_parity"]
    else StagedNames
  }

  /** `invocationCuda` is what ending the invocation's token yields, if there is one. */
  function Finish(r: Recorder, reading: Reading, invocationCuda: Option<CudaEnd>): (Recorder, Report) {
    if r.finished then (r, Reused)
    else if r.level.OFF? then (r.(finished := true), Empty)
    else
      var (r1, end) := Clock(r.(finished := true), reading);
      var (r2, total) := Elapsed(r1, r1.start, end);
      if total.None? then (r2, Failed(CpuClockError))
      else
        var r3 :=
          if !r2.level.INVOCATION? then r2
          else if invocationCuda.Some? && invocationCuda.value.Figures? then
            r2.(stages := [Stage("invocation", total.value, Some(invocationCuda.value.value))])
          else
            r2.(stages := [Stage("invocation", total.value, None)], cuda := if invocationCuda.Some? then Error else r2.cuda);
        var r4 := if r3.cuda.Error? then r3.(stages := Stripped(r3.stages)) else r3;
        var r5 := if Names(r4.stages) != ExpectedNames(r4) then r4.(error := Some(StageAccountingError)) else r4;
        if r5.error.Some? then (r5, Failed(r5.error.value)) else (r5, Ok(total.value, r5.stages, r5.cuda))
  }

  // -------------------------------------------------------------- what a report means

  function Total(stages: seq<Stage>): int {
    if stages == [] then 0 else Total(stages[..|stages| - 1]) + stages[|stages| - 1].ns
  }

  lemma TotalAppend(stages: seq<Stage>, s: Stage)
    ensures Total(stages + [s]) == Total(stages) + s.ns
  {
    assert (stages + [s])[..|stages|] == stages;
  }

  lemma {:induction false} TotalStripped(stages: seq<Stage>)
    ensures Total(Stripped(stages)) == Total(stages) && Names(Stripped(stages)) == Names(stages)
  {
    if stages != [] {
      var n := |stages| - 1;
      TotalStripped(stages[..n]);
      assert Stripped(stages)[..n] == Stripped(stages[..n]);
    }
  }

  /** As long as no error is noted, the stages lie one after the other between the
      recorder's start and its last clock reading. */
  predicate Accounted(r: Recorder) {
    && (r.error.None? && !r.level.OFF? ==>
          r.start.Some? && r.last.Some? && 0 <= Total(r.stages) <= r.last.value - r.start.value)
    && (forall k :: 0 <= k < |r.stages| ==> r.stages[k].ns >= 0)
  }

  lemma ObserveAccounts(r: Recorder, o: Observation)
    requires Accounted(r)
    ensures Accounted(Observe(r, o))
  {
    var r' := Observe(r, o);
    if |r'.stages| > |r.stages| {
      TotalAppend(r.stages, r'.stages[|r.stages|]);
    }
  }

  lemma {:induction false} AllAccounted(level: Level, operation: Operation, first: Reading, cudaAvailable: bool, os: seq<Observation>)
    ensures Accounted(ObserveAll(Create(level, operation, first, cudaAvailable), os))
    ensures var r := ObserveAll(Create(level, operation, first, cudaAvailable), os);
            r.level == level && r.operation == operation && !r.finished
    decreases |os|
  {
    if os != [] {
      AllAccounted(level, operation, first, cudaAvailable, os[..|os| - 1]);
      ObserveAccounts(ObserveAll(Create(level, operation, first, cudaAvailable), os[..|os| - 1]), os[|os| - 1]);
    }
  }

  /** A report that says "ok" has exactly the stages of its operation, in order, none with
      negative time, and their nanoseconds add up to at most the total, whatever the clock
      did in between. */
  lemma OkReportAddsUp(level: Level, operation: Operation, first: Reading, cudaAvailable: bool, os: seq<Observation>,
                       last: Reading, invocationCuda: Option<CudaEnd>)
    ensures var r := ObserveAll(Create(level, operation, first, cudaAvailable), os);
            var report := Finish(r, last, invocationCuda).1;
            report.Ok? ==>
              && Names(report.stages) == ExpectedNames(r)
              && 0 <= Total(report.stages) <= report.total
              && (forall k :: 0 <= k < |report.stages| ==> report.stages[k].ns >= 0)
  {
    var r := ObserveAll(Create(level, operation, first, cudaAvailable), os);
    AllAccounted(level, operation, first, cudaAvailable, os);
    TotalStripped(r.stages);
    if level.INVOCATION? {
      var (r1, end) := Clock(r.(finished := true), last);
      var total := Elapsed(r1, r1.start, end).1;
      if total.Some? {
        TotalAppend([], Stage("invocation", total.value, None));
        TotalAppend([], Stage("invocation", total.value, if invocationCuda.Some? && invocationCuda.value.Figures? then Some(invocationCuda.value.value) else None));
        TotalStripped([Stage("invocation", total.value, None)]);
      }
    }
  }

  /** Without an error each stage has its own name and the time between its own readings. */
  predicate Timed(stages: seq<Stage>, os: seq<Observation>) {
    |stages| == |os|
    && forall k :: 0 <= k < |os| ==> os[k].begin.Some? && os[k].end.Some? && stages[k].name == os[k].name
                                     && stages[k].ns == os[k].end.value - os[k].begin.value
  }

  lemma ObserveTimes(r: Recorder, os: seq<Observation>, o: Observation)
    requires r.level == STAGES && (r.error.None? ==> Timed(r.stages, os))
    ensures Observe(r, o).error.None? ==> r.error.None? && Timed(Observe(r, o).stages, os + [o])
    ensures Observe(r, o).level == STAGES && Observe(r, o).start == r.start
  {
  }

  lemma {:induction false} StagesAreTimed(operation: Operation, first: Reading, cudaAvailable: bool, os: seq<Observation>)
    ensures var r := ObserveAll(Create(STAGES, operation, first, cudaAvailable), os);
            && r.level == STAGES && (r.error.None? ==> Timed(r.stages, os))
            && (r.error.None? ==> r.start == first && first.Some?)
    decreases |os|
  {
    if os != [] {
      var n := |os| - 1;
      StagesAreTimed(operation, first, cudaAvailable, os[..n]);
      ObserveTimes(ObserveAll(Create(STAGES, operation, first, cudaAvailable), os[..n]), os[..n], os[n]);
      assert os[..n] + [os[n]] == os;
    }
  }

  /** An ok report times every observation by its own two readings, in order, and the whole
      by the first and the last; at the invocation level the whole is the one stage. */
  lemma OkReportIsExact(level: Level, operation: Operation, first: Reading, cudaAvailable: bool, os: seq<Observation>,
                        last: Reading, invocationCuda: Option<CudaEnd>)
    ensures var r := ObserveAll(Create(level, operation, first, cudaAvailable), os);
            var report := Finish(r, last, invocationCuda).1;
            report.Ok? ==>
              && first.Some? && last.Some? && report.total == last.value - first.value
              && (level.STAGES? ==> Timed(report.stages, os))
              && (level.INVOCATION? ==> |report.stages| == 1 && report.stages[0].ns == report.total)
  {
    if level.STAGES? {
      StagesAreTimed(operation, first, cudaAvailable, os);
    } else {
      NothingObserved(level, operation, first, cudaAvailable, os);
    }
  }

  lemma {:induction false} NothingObserved(level: Level, operation: Operation, first: Reading, cudaAvailable: bool, os: seq<Observation>)
    requires !level.STAGES?
    ensures ObserveAll(Create(level, operation, first, cudaAvailable), os) == Create(level, operation, first, cudaAvailable)
    decreases |os|
  {
    if os != [] {
      NothingObserved(level, operation, first, cudaAvailable, os[..|os| - 1]);
    }
  }

  predicate AllCuda(stages: seq<Stage>) {
    forall k :: 0 <= k < |stages| ==> stages[k].cuda.Some?
  }

  predicate NoCuda(stages: seq<Stage>) {
    forall k :: 0 <= k < |stages| ==> stages[k].cuda.None?
  }

  predicate Tokens(os: seq<Observation>) {
    forall k :: 0 <= k < |os| ==> !os[k].cudaBegin.NoToken?
  }

  /** While the CUDA backend keeps handing out tokens the stages agree about CUDA. */
  predicate CudaAgrees(r: Recorder) {
    && (r.cuda.Unavailable? ==> NoCuda(r.stages))
    && (r.cuda.Available? ==> AllCuda(r.stages))
  }

  lemma {:induction false} StagesAgree(operation: Operation, first: Reading, cudaAvailable: bool, os: seq<Observation>)
    requires Tokens(os)
    ensures CudaAgrees(ObserveAll(Create(STAGES, operation, first, cudaAvailable), os))
    decreases |os|
  {
    if os != [] {
      StagesAgree(operation, first, cudaAvailable, os[..|os| - 1]);
      ObserveAgrees(ObserveAll(Create(STAGES, operation, first, cudaAvailable), os[..|os| - 1]), os[|os| - 1]);
    }
  }

  lemma ObserveAgrees(r: Recorder, o: Observation)
    requires CudaAgrees(r) && !o.cudaBegin.NoToken?
    ensures CudaAgrees(Observe(r, o))
  {
  }

  /** CUDA figures on every stage or on none, if `begin` always returns a token. */
  lemma CudaAllOrNone(operation: Operation, first: Reading, cudaAvailable: bool, os: seq<Observation>, last: Reading)
    requires Tokens(os)
    ensures var report := Finish(ObserveAll(Create(STAGES, operation, first, cudaAvailable), os), last, None).1;
            report.Ok? ==> (if report.cuda.Available? then AllCuda(report.stages) else NoCuda(report.stages))
  {
    StagesAgree(operation, first, cudaAvailable, os);
    AllAccounted(STAGES, operation, first, cudaAvailable, os);
  }

  /** Which stages got figures: exactly those whose `begin` returned a token. */
  predicate ShowsTokens(r: Recorder, os: seq<Observation>) {
    r.error.None? ==>
      |r.stages| == |os| && (r.cuda.Available? ==> forall k :: 0 <= k < |os| ==> (r.stages[k].cuda.Some? <==> os[k].cudaBegin.Token?))
  }

  lemma {:induction false} FiguresShowTokens(operation: Operation, first: Reading, cudaAvailable: bool, os: seq<Observation>)
    ensures ShowsTokens(ObserveAll(Create(STAGES, operation, first, cudaAvailable), os), os)
    decreases |os|
  {
    if os != [] {
      FiguresShowTokens(operation, first, cudaAvailable, os[..|os| - 1]);
      AllAccounted(STAGES, operation, first, cudaAvailable, os[..|os| - 1]);
      ObserveShows(ObserveAll(Create(STAGES, operation, first, cudaAvailable), os[..|os| - 1]), os[..|os| - 1], os[|os| - 1]);
      assert os == os[..|os| - 1] + [os[|os| - 1]];
    }
  }

  lemma ObserveShows(r: Recorder, os: seq<Observation>, o: Observation)
    requires r.level.STAGES? && ShowsTokens(r, os)
    ensures ShowsTokens(Observe(r, o), os + [o])
  {
  }

  lemma OkStagesAreTheRecorded(r: Recorder, last: Reading)
    requires r.level.STAGES?
    ensures var report := Finish(r, last, None).1;
            report.Ok? && report.cuda.Available? ==> report.stages == r.stages && r.error.None? && r.cuda.Available?
  {
  }

  predicate TokensThroughout(os: seq<Observation>) {
    forall k :: 0 <= k < |os| ==> os[k].cudaBegin.Token?
  }

  predicate TokensNowhere(os: seq<Observation>) {
    forall k :: 0 <= k < |os| ==> !os[k].cudaBegin.Token?
  }

  /** So an ok report that says CUDA was available has figures on every stage or on none
      exactly when every `begin` returned a token or none did. */
  lemma CudaUniformIffTokens(operation: Operation, first: Reading, cudaAvailable: bool, os: seq<Observation>, last: Reading)
    ensures var report := Finish(ObserveAll(Create(STAGES, operation, first, cudaAvailable), os), last, None).1;
            report.Ok? && report.cuda.Available? ==>
              && (AllCuda(report.stages) <==> TokensThroughout(os))
              && (NoCuda(report.stages) <==> TokensNowhere(os))
              && (AllCuda(report.stages) || NoCuda(report.stages) <==> TokensThroughout(os) || TokensNowhere(os))
  {
    var r := ObserveAll(Create(STAGES, operation, first, cudaAvailable), os);
    FiguresShowTokens(operation, first, cudaAvailable, os);
    AllAccounted(STAGES, operation, first, cudaAvailable, os);
    OkStagesAreTheRecorded(r, last);
  }

  /** The four stages, one nanosecond each, with a token for the first only. */
  function OneToken(): seq<Observation> {
    [Observation(StagedNames[0], Some(0), Token, Some(1), Figures(5)), Observation(StagedNames[1], Some(1), NoToken, Some(2), EndRaises),
     Observation(StagedNames[2], Some(2), NoToken, Some(3), EndRaises), Observation(StagedNames[3], Some(3), NoToken, Some(4), EndRaises)]
  }

  function MixedStage(k: nat): Stage
    requires k < 4
  {
    Stage(StagedNames[k], 1, if k == 0 then Some(5) else None)
  }

  function MixedAfter(n: nat): Recorder
    requires n <= 4
  {
    Recorder(STAGES, ExperimentalStaged, seq(n, k requires 0 <= k < n => MixedStage(k)), None, false, Some(n), Some(0), Available)
  }

  lemma {:induction false} MixedRun(n: nat)
    requires n <= 4
    ensures ObserveAll(Create(STAGES, ExperimentalStaged, Some(0), true), OneToken()[..n]) == MixedAfter(n)
  {
    if n > 0 {
      MixedRun(n - 1);
      assert OneToken()[..n][..n - 1] == OneToken()[..n - 1];
      MixedStep(n - 1);
    }
  }

  lemma MixedStep(n: nat)
    requires n < 4
    ensures Observe(MixedAfter(n), OneToken()[n]) == MixedAfter(n + 1)
  {
    var o := OneToken()[n];
    assert o.begin == Some(n) && o.end == Some(n + 1) && o.name == StagedNames[n];
    var stages := MixedAfter(n).stages;
    assert MixedAfter(n + 1).stages == stages + [MixedStage(n)];
    assert Observe(MixedAfter(n), o).stages == stages + [MixedStage(n)];
  }

  /** Such a mixed report exists. */
  lemma MixedReportExists()
    ensures var report := Finish(ObserveAll(Create(STAGES, ExperimentalStaged, Some(0), true), OneToken()), Some(4), None).1;
            report.Ok? && report.cuda.Available? && !AllCuda(report.stages) && !NoCuda(report.stages)
  {
    MixedRun(4);
    assert OneToken()[..4] == OneToken();
    var stages := MixedAfter(4).stages;
    assert Names(stages) == StagedNames;
    assert stages[0].cuda == Some(5) && stages[1].cuda == None;
  }

  // ------------------------------------------------------------- the recorder's methods

  class ControlFoleyProfileRecorder {
    const level: Level
    const operation: Operation
    var stages: seq<Stage>
    var error: Option<ProfileError>
    var finished: bool
    var last: Option<int>
    var start: Option<int>
    var cuda: CudaStatus

    function Model(): Recorder
      reads this
    {
      Recorder(level, operation, stages, error, finished, last, start, cuda)
    }

    constructor (level: Level, operation: Operation, reading: Reading, cudaAvailable: bool)
      ensures Model() == Create(level, operation, reading, cudaAvailable)
    {
      this.level, this.operation := level, operation;
      stages, error, finished, last, start, cuda := [], None, false, None, None, Unavailable;
      new;
      if !level.OFF? {
        var first := ClockValue(reading);
        start := first;
        if operation.ExperimentalStaged? && cudaAvailable {
          cuda := Available;
        }
      }
    }

    method ClockValue(reading: Reading) returns (value: Option<int>)
      modifies this`last, this`error
      ensures (Model(), value) == Clock(old(Model()), reading)
    {
      if reading.None? || reading.value < 0 || (last.Some? && reading.value < last.value) {
        error := Some(CpuClockError);
        return None;
      }
      last := Some(reading.value);
      value := Some(reading.value);
    }

    method ElapsedNs(from: Option<int>, to: Option<int>) returns (ns: Option<int>)
      modifies this`error
      ensures (Model(), ns) == Elapsed(old(Model()), from, to)
    {
      if from.None? || to.None? || to.value < from.value {
        error := Some(CpuClockError);
        return None;
      }
      ns := Some(to.value - from.value);
    }

    /** The context manager around one stage; the stage itself runs between the two clock
        calls. */
    method ObserveStage(o: Observation)
      modifies this
      ensures Model() == Observe(old(Model()), o)
    {
      if !level.STAGES? {
        return;
      }
      var begin := ClockValue(o.begin);
      var token := false;
      if cuda.Available? {
        match o.cudaBegin {
          case BeginRaises => cuda := Error;
          case NoToken =>
          case Token => token := true;
        }
      }
      var end := ClockValue(o.end);
      var figures: Option<nat> := None;
      if token && cuda.Available? {
        match o.cudaEnd {
          case EndRaises => cuda := Error;
          case Figures(value) => figures := Some(value);
        }
      }
      var ns := ElapsedNs(begin, end);
      if ns.Some? {
        stages := stages + [Stage(o.name, ns.value, figures)];
      }
    }

    method FinishReport(reading: Reading, invocationCuda: Option<CudaEnd>) returns (report: Report)
      modifies this
      ensures (Model(), report) == Finish(old(Model()), reading, invocationCuda)
    {
      if finished {
        return Reused;
      }
      finished := true;
      if level.OFF? {
        return Empty;
      }
      var end := ClockValue(reading);
      var total := ElapsedNs(start, end);
      if total.None? {
        return Failed(CpuClockError);
      }
      if level.INVOCATION? {
        var figures: Option<nat> := None;
        if invocationCuda.Some? {
          match invocationCuda.value {
            case EndRaises => cuda := Error;
            case Figures(value) => figures := Some(value);
          }
        }
        stages := [Stage("invocation", total.value, figures)];
      }
      if cuda.Error? {
        stages := Stripped(stages);
      }
      if Names(stages) != ExpectedNames(Model()) {
        error := Some(StageAccountingError);
      }
      report := if error.Some? then Failed(error.value) else Ok(total.value, stages, cuda);
    }
  }
}
