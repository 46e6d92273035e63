/** Backend sessions: the adapter's four session tables and the staged path's two stay in
    step, and every session a backend handed out is live once or was given back once. */
module BackendSessions {
  import opened Common

  type SessionId = nat
  type Handle = nat

  datatype Operation = UpstreamParity | ExperimentalStaged

  /** `handed` are the sessions `backend.load` returned; `returned` the `backend.unload`
      calls made, in the order of the calls, whether or not they raised. */
  datatype Tables = Tables(
    sessions: set<SessionId>,
    operations: map<SessionId, Operation>,
    cacheEnabled: map<SessionId, bool>,
    l2Enabled: map<SessionId, bool>,
    staged: map<SessionId, Handle>,
    validation: set<SessionId>,
    handed: multiset<Handle>,
    returned: multiset<Handle>)

  /** The backend's load raises, or returns a session that passes the contract checks or
      does not. */
  datatype BackendLoad = Raises | Refused(handle: Handle) | Accepted(handle: Handle)

  datatype Op =
    | LoadUpstream(id: SessionId, valid: bool)
    | LoadStaged(id: SessionId, admitted: bool, answer: BackendLoad, cache: bool, l2: bool)
    | Unload(id: SessionId, raises: bool)

  const Empty: Tables := Tables({}, map[], map[], map[], map[], {}, multiset{}, multiset{})

  function Register(t: Tables, id: SessionId, operation: Operation, cache: bool, l2: bool): Tables {
    t.(sessions := t.sessions + {id}, operations := t.operations[id := operation],
       cacheEnabled := t.cacheEnabled[id := cache], l2Enabled := t.l2Enabled[id := l2])
  }

  /** `ControlFoleyStagedPath.load`: None when it raises, with the tables as they are then. */
  function StagedLoad(t: Tables, id: SessionId, answer: BackendLoad): (Tables, bool) {
    if id in t.staged then (t, false)
    else match answer
      case Raises => (t, false)
      case Refused(h) => (t.(handed := t.handed + multiset{h}, returned := t.returned + multiset{h}), false)
      case Accepted(h) =>
        (t.(handed := t.handed + multiset{h}, staged := t.staged[id := h], validation := t.validation + {id}), true)
  }

  function StagedUnload(t: Tables, id: SessionId): Tables {
    var popped := t.(staged := t.staged - {id}, validation := t.validation - {id});
    if id in t.staged then popped.(returned := popped.returned + multiset{t.staged[id]}) else popped
  }

  /** The runtime creates a new session for each load, so a known id is never loaded. */
  function Step(t: Tables, op: Op): Tables {
    match op
    case LoadUpstream(id, valid) =>
      if id in t.sessions || !valid then t else Register(t, id, UpstreamParity, false, false)
    case LoadStaged(id, admitted, answer, cache, l2) =>
      if id in t.sessions || !admitted then t
      else
        var (t1, ok) := StagedLoad(t, id, answer);
        if ok then Register(t1, id, ExperimentalStaged, cache, l2) else t1
    case Unload(id, raises) =>
      var t1 := t.(operations := t.operations - {id}, cacheEnabled := t.cacheEnabled - {id}, l2Enabled := t.l2Enabled - {id});
      var t2 := if id in t.operations && t.operations[id].ExperimentalStaged? then StagedUnload(t1, id) else t1;
      t2.(sessions := t2.sessions - {id})
  }

  function After(ops: seq<Op>): Tables
    decreases |ops|
  {
    if ops == [] then Empty else Step(After(ops[..|ops| - 1]), ops[|ops| - 1])
  }

  /** The live sessions, with multiplicity. */
  ghost function Live(staged: map<SessionId, Handle>): multiset<Handle> {
    if staged == map[] then multiset{}
    else
      var id :| id in staged;
      Live(staged - {id}) + multiset{staged[id]}
  }

  lemma {:induction false} LiveWithout(staged: map<SessionId, Handle>, id: SessionId)
    requires id in staged
    ensures Live(staged) == Live(staged - {id}) + multiset{staged[id]}
    decreases |staged|
  {
    var e :| e in staged && Live(staged) == Live(staged - {e}) + multiset{staged[e]};
    if e != id {
      var rest := staged - {e} - {id};
      assert rest == staged - {id} - {e};
      LiveWithout(staged - {e}, id);
      LiveWithout(staged - {id}, e);
      SwapLast(Live(rest), staged[id], staged[e]);
    }
  }

  lemma SwapLast(m: multiset<Handle>, a: Handle, b: Handle)
    ensures m + multiset{a} + multiset{b} == m + multiset{b} + multiset{a}
  {
  }

  lemma LiveWith(staged: map<SessionId, Handle>, id: SessionId, h: Handle)
    requires id !in staged
    ensures Live(staged[id := h]) == Live(staged) + multiset{h}
  {
    LiveWithout(staged[id := h], id);
    assert staged[id := h] - {id} == staged;
  }

  /** What was handed out is live or was returned, as often as it was handed out. */
  ghost predicate InStep(t: Tables) {
    Aligned(t) && t.handed == Live(t.staged) + t.returned
  }

  /** All tables know the same sessions, and the staged ones are exactly those with a
      backend session. */
  ghost predicate Aligned(t: Tables) {
    && t.operations.Keys == t.sessions && t.cacheEnabled.Keys == t.sessions && t.l2Enabled.Keys == t.sessions
    && t.staged.Keys == t.validation
    && (forall id :: id in t.staged <==> id in t.operations && t.operations[id].ExperimentalStaged?)
  }

  lemma LoadKeeps(t: Tables, id: SessionId, answer: BackendLoad, cache: bool, l2: bool)
    requires InStep(t) && id !in t.sessions
    ensures InStep(Step(t, LoadStaged(id, true, answer, cache, l2)))
  {
    LoadAligns(t, id, answer, cache, l2);
    if answer.Accepted? {
      LiveWith(t.staged, id, answer.handle);
    }
  }

  lemma LoadAligns(t: Tables, id: SessionId, answer: BackendLoad, cache: bool, l2: bool)
    requires Aligned(t) && id !in t.sessions
    ensures Aligned(Step(t, LoadStaged(id, true, answer, cache, l2)))
  {
  }

  lemma UnloadAligns(t: Tables, id: SessionId, raises: bool)
    requires Aligned(t)
    ensures Aligned(Step(t, Unload(id, raises)))
  {
  }

  lemma UnloadKeeps(t: Tables, id: SessionId, raises: bool)
    requires InStep(t)
    ensures InStep(Step(t, Unload(id, raises)))
  {
    UnloadAligns(t, id, raises);
    if id in t.staged {
      LiveWithout(t.staged, id);
    } else {
      assert t.staged - {id} == t.staged;
    }
  }

  /** Conservation over every sequence of loads and unloads, successful or raising. */
  lemma {:induction false} SessionsAreConserved(ops: seq<Op>)
    ensures InStep(After(ops))
    decreases |ops|
  {
    if ops != [] {
      var t, op := After(ops[..|ops| - 1]), ops[|ops| - 1];
      SessionsAreConserved(ops[..|ops| - 1]);
      match op
      case LoadUpstream(id, valid) =>
      case LoadStaged(id, admitted, answer, cache, l2) =>
        if id !in t.sessions && admitted {
          LoadKeeps(t, id, answer, cache, l2);
        }
      case Unload(id, raises) => UnloadKeeps(t, id, raises);
    }
  }

  /** When every session has been unloaded, each backend session handed out has been given
      back exactly as often as it was handed out. */
  lemma NothingLeaks(ops: seq<Op>)
    requires After(ops).sessions == {}
    ensures After(ops).returned == After(ops).handed && After(ops).staged == map[]
  {
    SessionsAreConserved(ops);
    var t := After(ops);
    assert t.staged.Keys == {};
    assert t.staged == map[];
  }

  // ------------------------------------------------------------ the adapter's methods

  class Adapter {
    var sessions: set<SessionId>
    var operations: map<SessionId, Operation>
    var cacheEnabled: map<SessionId, bool>
    var l2Enabled: map<SessionId, bool>
    var staged: map<SessionId, Handle>
    var validation: set<SessionId>
    ghost var handed: multiset<Handle>
    ghost var returned: multiset<Handle>

    ghost function Model(): Tables
      reads this
    {
      Tables(sessions, operations, cacheEnabled, l2Enabled, staged, validation, handed, returned)
    }

    constructor ()
      ensures Model() == Empty
    {
      sessions, operations, cacheEnabled, l2Enabled := {}, map[], map[], map[];
      staged, validation, handed, returned := map[], {}, multiset{}, multiset{};
    }

    /** `ControlFoleyStagedPath.load`. */
    method LoadBackend(id: SessionId, answer: BackendLoad) returns (ok: bool)
      modifies this`staged, this`validation, this`handed, this`returned
      ensures (Model(), ok) == StagedLoad(old(Model()), id, answer)
    {
      if id in staged {
        return false;
      }
      match answer {
        case Raises => return false;
        case Refused(h) =>
          handed, returned := handed + multiset{h}, returned + multiset{h};
          return false;
        case Accepted(h) =>
          handed := handed + multiset{h};
          staged := staged[id := h];
          validation := validation + {id};
          return true;
      }
    }

    method LoadStaged(id: SessionId, admitted: bool, answer: BackendLoad, cache: bool, l2: bool) returns (ok: bool)
      requires id !in sessions
      modifies this
      ensures Model() == Step(old(Model()), Op.LoadStaged(id, admitted, answer, cache, l2))
    {
      if !admitted {
        return false;
      }
      ok := LoadBackend(id, answer);
      if ok {
        sessions := sessions + {id};
        operations := operations[id := ExperimentalStaged];
        cacheEnabled := cacheEnabled[id := cache];
        l2Enabled := l2Enabled[id := l2];
      }
    }

    /** `ControlFoleyStagedPath.unload`: the session is forgotten before the backend is
        asked to release it. */
    method UnloadBackend(id: SessionId, raises: bool) returns (ok: bool)
      modifies this`staged, this`validation, this`returned
      ensures Model() == StagedUnload(old(Model()), id)
      ensures ok <==> !(raises && id in old(staged))
    {
      var session := if id in staged then Some(staged[id]) else None;
      staged, validation := staged - {id}, validation - {id};
      ok := true;
      if session.Some? {
        returned := returned + multiset{session.value};
        ok := !raises;
      }
    }

    /** The `finally` arm runs whether or not the backend's unload raises. */
    method Unload(id: SessionId, raises: bool) returns (ok: bool)
      modifies this
      ensures Model() == Step(old(Model()), Op.Unload(id, raises))
    {
      var operation := if id in operations then Some(operations[id]) else None;
      operations, cacheEnabled, l2Enabled := operations - {id}, cacheEnabled - {id}, l2Enabled - {id};
      ok := true;
      if operation == Some(ExperimentalStaged) {
        ok := UnloadBackend(id, raises);
      }
      sessions := sessions - {id};
    }
  }
}
