/** One model session shared by any number of threads: single-flight execution with
    cancellation, and load and unload beside it. */
module SessionLifecycle {
  import opened Common

  datatype SessionState = UNLOADED | LOADING | READY | RUNNING | FAILED | UNLOADING

  /** How `adapter.invoke` ended. */
  datatype Outcome =
    | Result(idMatches: bool)
    | NotAResult
    | Cancelled
    | Rejected
    | ContractError
    | ExecutionError
    | OtherError
    | Interrupted

  /** What the caller of `Runtime.invoke` sees. */
  datatype Ending = Succeeded | RaisedState | RaisedCancelled | RaisedRejected | RaisedContract | RaisedExecution | RaisedInterrupt

  /** The exception arms of `Runtime.invoke`; `late` says whether the token is cancelled
      once the adapter has returned. */
  function EndingOf(o: Outcome, late: bool): Ending {
    match o
    case Result(idMatches) => if late then RaisedCancelled else if idMatches then Succeeded else RaisedContract
    case NotAResult => if late then RaisedCancelled else RaisedContract
    case Cancelled => RaisedCancelled
    case Rejected => RaisedRejected
    case ContractError => RaisedContract
    case ExecutionError => RaisedExecution
    case OtherError => RaisedExecution
    case Interrupted => RaisedInterrupt
  }

  /** The `failed` argument of `_finish_invocation`. */
  predicate Fails(e: Ending) {
    e.RaisedContract? || e.RaisedExecution? || e.RaisedInterrupt?
  }

  /** What becomes of a call of the adapter, outcome by outcome: a token cancelled meanwhile
      overrides a result; a session that only was cancelled or refused stays usable. */
  predicate Concludes(o: Outcome, late: bool, ending: Ending, state: SessionState) {
    match o
    case Result(idMatches) =>
      if late then ending.RaisedCancelled? && state.READY?
      else if idMatches then ending.Succeeded? && state.READY?
      else ending.RaisedContract? && state.FAILED?
    case NotAResult =>
      if late then ending.RaisedCancelled? && state.READY? else ending.RaisedContract? && state.FAILED?
    case Cancelled => ending.RaisedCancelled? && state.READY?
    case Rejected => ending.RaisedRejected? && state.READY?
    case ContractError => ending.RaisedContract? && state.FAILED?
    case ExecutionError => ending.RaisedExecution? && state.FAILED?
    case OtherError => ending.RaisedExecution? && state.FAILED?
    case Interrupted => ending.RaisedInterrupt? && state.FAILED?
  }

  /** Program counters.  Each arrow is one atomic step of the source: a check of the token,
      a try of the execution lock, or one `_transition` under the lifecycle lock. */
  datatype Pc =
    | Entering
    | Waiting
    | Acquired
    | Checked
    | InAdapter
    | Finishing(ending: Ending)
    | Releasing(ending: Ending)
    | UnloadEntering
    | InUnload
    | UnloadFinishing(ok: bool)
    | LoadEntering
    | InLoad
    | LoadFinishing(ok: bool)
    | Done(ending: Ending)

  datatype Thread = Thread(pc: Pc, cancelled: bool)

  type Tid = nat

  datatype World = World(state: SessionState, lock: Option<Tid>, threads: map<Tid, Thread>)

  datatype Op =
    | Invoke(t: Tid)
    | Unload(t: Tid)
    | Load(t: Tid)
    | Cancel(t: Tid)
    | Advance(t: Tid, outcome: Outcome, ok: bool)

  function Go(w: World, t: Tid, pc: Pc): World
    requires t in w.threads
  {
    w.(threads := w.threads[t := w.threads[t].(pc := pc)])
  }

  function Moved(w: World, t: Tid, pc: Pc, state: SessionState): World
    requires t in w.threads
  {
    Go(w, t, pc).(state := state)
  }

  /** One step of an invoking thread. */
  function StepInvoker(w: World, t: Tid, outcome: Outcome): World
    requires t in w.threads
  {
    var th := w.threads[t];
    match th.pc
    case Entering => Go(w, t, if th.cancelled then Done(RaisedCancelled) else Waiting)
    case Waiting =>
      if w.lock.None? then Go(w, t, Acquired).(lock := Some(t))
      else Go(w, t, if th.cancelled then Done(RaisedCancelled) else Waiting)
    case Acquired => Go(w, t, if th.cancelled then Releasing(RaisedCancelled) else Checked)
    case Checked => if w.state.READY? then Moved(w, t, InAdapter, RUNNING) else Go(w, t, Releasing(RaisedState))
    case InAdapter => Go(w, t, Finishing(EndingOf(outcome, th.cancelled)))
    case Finishing(e) =>
      if w.state.RUNNING? then Moved(w, t, Releasing(e), if Fails(e) then FAILED else READY)
      else Go(w, t, Releasing(RaisedState))
    case Releasing(e) => Go(w, t, Done(e)).(lock := None)
    case _ => w
  }

  /** One step of a thread that loads or unloads. */
  function StepManager(w: World, t: Tid, ok: bool): World
    requires t in w.threads
  {
    match w.threads[t].pc
    case UnloadEntering =>
      if w.state.READY? || w.state.FAILED? then Moved(w, t, InUnload, UNLOADING) else Go(w, t, Done(RaisedState))
    case InUnload => Go(w, t, UnloadFinishing(ok))
    case UnloadFinishing(good) =>
      if w.state.UNLOADING? then Moved(w, t, Done(if good then Succeeded else RaisedExecution), if good then UNLOADED else FAILED)
      else Go(w, t, Done(RaisedState))
    case LoadEntering => if w.state.UNLOADED? then Moved(w, t, InLoad, LOADING) else Go(w, t, Done(RaisedState))
    case InLoad => Go(w, t, LoadFinishing(ok))
    case LoadFinishing(good) =>
      if w.state.LOADING? then Moved(w, t, Done(if good then Succeeded else RaisedExecution), if good then READY else FAILED)
      else Go(w, t, Done(RaisedState))
    case _ => w
  }

  predicate Manages(pc: Pc) {
    pc.UnloadEntering? || pc.InUnload? || pc.UnloadFinishing? || pc.LoadEntering? || pc.InLoad? || pc.LoadFinishing?
  }

  function Step(w: World, op: Op): World {
    match op
    case Invoke(t) => if t in w.threads then w else w.(threads := w.threads[t := Thread(Entering, false)])
    case Unload(t) => if t in w.threads then w else w.(threads := w.threads[t := Thread(UnloadEntering, false)])
    case Load(t) => if t in w.threads then w else w.(threads := w.threads[t := Thread(LoadEntering, false)])
    case Cancel(t) => if t !in w.threads then w else w.(threads := w.threads[t := w.threads[t].(cancelled := true)])
    case Advance(t, outcome, ok) =>
      if t !in w.threads then w
      else if Manages(w.threads[t].pc) then StepManager(w, t, ok) else StepInvoker(w, t, outcome)
  }

  function After(w: World, ops: seq<Op>): World
    decreases |ops|
  {
    if ops == [] then w else Step(After(w, ops[..|ops| - 1]), ops[|ops| - 1])
  }

  const Fresh: World := World(UNLOADED, None, map[])

  // ----------------------------------------------------------------------- invariant

  predicate HoldsLock(pc: Pc) {
    pc.Acquired? || pc.Checked? || pc.InAdapter? || pc.Finishing? || pc.Releasing?
  }

  predicate Executes(pc: Pc) {
    pc.InAdapter? || pc.Finishing?
  }

  predicate Unloads(pc: Pc) {
    pc.InUnload? || pc.UnloadFinishing?
  }

  predicate Loads(pc: Pc) {
    pc.InLoad? || pc.LoadFinishing?
  }

  /** The session state a thread inside an adapter call stands for. */
  function Stands(pc: Pc): Option<SessionState> {
    if Executes(pc) then Some(RUNNING)
    else if Unloads(pc) then Some(UNLOADING)
    else if Loads(pc) then Some(LOADING)
    else None
  }

  predicate Transient(s: SessionState) {
    s.RUNNING? || s.UNLOADING? || s.LOADING?
  }

  /** The lock is held exactly by the one thread between its acquire and its release; at
      most one thread is inside any adapter call, and the state says which call. */
  ghost predicate Invariant(w: World) {
    && (forall t :: t in w.threads ==> (HoldsLock(w.threads[t].pc) <==> w.lock == Some(t)))
    && (w.lock.Some? ==> w.lock.value in w.threads)
    && (forall t :: t in w.threads && Stands(w.threads[t].pc).Some? ==> w.state == Stands(w.threads[t].pc).value)
    && (forall t, u :: t in w.threads && u in w.threads && Stands(w.threads[t].pc).Some? && Stands(w.threads[u].pc).Some? ==> t == u)
    && (Transient(w.state) ==> exists t :: t in w.threads && Stands(w.threads[t].pc) == Some(w.state))
  }

  /** Only thread t differs. */
  lemma ThreadMoves(w: World, w': World, t: Tid)
    requires Invariant(w) && t in w.threads
    requires t in w'.threads && w'.threads == w.threads[t := w'.threads[t]]
    requires HoldsLock(w'.threads[t].pc) <==> w'.lock == Some(t)
    requires w'.lock != w.lock ==> (w.lock.None? && w'.lock == Some(t)) || (w.lock == Some(t) && w'.lock.None?)
    requires Stands(w'.threads[t].pc).Some? ==> w'.state == Stands(w'.threads[t].pc).value
    requires Stands(w'.threads[t].pc).None? && Stands(w.threads[t].pc).None? ==> w'.state == w.state
    requires Stands(w'.threads[t].pc).None? && Stands(w.threads[t].pc).Some? ==> !Transient(w'.state)
    requires Stands(w'.threads[t].pc).Some? && Stands(w.threads[t].pc).None? ==> !Transient(w.state)
    ensures Invariant(w')
  {
    forall u | u in w'.threads && u != t ensures w'.threads[u] == w.threads[u] {
    }
    if Stands(w.threads[t].pc).None? && Stands(w'.threads[t].pc).None? && Transient(w'.state) {
      var u :| u in w.threads && Stands(w.threads[u].pc) == Some(w.state);
      assert u in w'.threads && Stands(w'.threads[u].pc) == Some(w'.state);
    }
    if Stands(w'.threads[t].pc).Some? {
      assert Stands(w'.threads[t].pc) == Some(w'.state);
    }
  }

  lemma EntryKeeps(w: World, t: Tid, pc: Pc)
    requires Invariant(w) && t !in w.threads && !HoldsLock(pc) && Stands(pc).None?
    ensures Invariant(w.(threads := w.threads[t := Thread(pc, false)]))
  {
    var w' := w.(threads := w.threads[t := Thread(pc, false)]);
    if Transient(w.state) {
      var u :| u in w.threads && Stands(w.threads[u].pc) == Some(w.state);
      assert u in w'.threads && Stands(w'.threads[u].pc) == Some(w'.state);
    }
  }

  lemma CancelKeeps(w: World, t: Tid)
    requires Invariant(w) && t in w.threads
    ensures Invariant(w.(threads := w.threads[t := w.threads[t].(cancelled := true)]))
  {
    var w' := w.(threads := w.threads[t := w.threads[t].(cancelled := true)]);
    forall u | u in w.threads ensures w'.threads[u].pc == w.threads[u].pc {
    }
    if Transient(w.state) {
      var u :| u in w.threads && Stands(w.threads[u].pc) == Some(w.state);
      assert u in w'.threads && Stands(w'.threads[u].pc) == Some(w'.state);
    }
  }

  lemma InvokerKeeps(w: World, t: Tid, outcome: Outcome)
    requires Invariant(w) && t in w.threads
    ensures Invariant(StepInvoker(w, t, outcome))
  {
    if StepInvoker(w, t, outcome) != w {
      ThreadMoves(w, StepInvoker(w, t, outcome), t);
    }
  }

  lemma UnloaderKeeps(w: World, t: Tid, ok: bool)
    requires Invariant(w) && t in w.threads
    requires w.threads[t].pc.UnloadEntering? || w.threads[t].pc.InUnload? || w.threads[t].pc.UnloadFinishing?
    ensures Invariant(StepManager(w, t, ok))
  {
    ThreadMoves(w, StepManager(w, t, ok), t);
  }

  lemma LoaderKeeps(w: World, t: Tid, ok: bool)
    requires Invariant(w) && t in w.threads
    requires w.threads[t].pc.LoadEntering? || w.threads[t].pc.InLoad? || w.threads[t].pc.LoadFinishing?
    ensures Invariant(StepManager(w, t, ok))
  {
    ThreadMoves(w, StepManager(w, t, ok), t);
  }

  lemma ManagerKeeps(w: World, t: Tid, ok: bool)
    requires Invariant(w) && t in w.threads
    ensures Invariant(StepManager(w, t, ok))
  {
    var pc := w.threads[t].pc;
    if pc.UnloadEntering? || pc.InUnload? || pc.UnloadFinishing? {
      UnloaderKeeps(w, t, ok);
    } else if pc.LoadEntering? || pc.InLoad? || pc.LoadFinishing? {
      LoaderKeeps(w, t, ok);
    }
  }

  lemma StepKeeps(w: World, op: Op)
    requires Invariant(w)
    ensures Invariant(Step(w, op))
  {
    match op
    case Invoke(t) => if t !in w.threads { EntryKeeps(w, t, Entering); }
    case Unload(t) => if t !in w.threads { EntryKeeps(w, t, UnloadEntering); }
    case Load(t) => if t !in w.threads { EntryKeeps(w, t, LoadEntering); }
    case Cancel(t) => if t in w.threads { CancelKeeps(w, t); }
    case Advance(t, outcome, ok) =>
      if t in w.threads {
        InvokerKeeps(w, t, outcome);
        ManagerKeeps(w, t, ok);
      }
  }

  lemma {:induction false} RunKeeps(w: World, ops: seq<Op>)
    requires Invariant(w)
    ensures Invariant(After(w, ops))
    decreases |ops|
  {
    if ops != [] {
      RunKeeps(w, ops[..|ops| - 1]);
      StepKeeps(After(w, ops[..|ops| - 1]), ops[|ops| - 1]);
    }
  }

  // ------------------------------------------------------------------- main theorems

  /** Single flight: at any moment of any run, at most one thread is inside an adapter
      call; the session is RUNNING exactly when that call is an invocation, whose thread
      then holds the execution lock; and an unload or load never overlaps one. */
  lemma SingleFlight(ops: seq<Op>)
    ensures var w := After(Fresh, ops);
            && (forall t, u :: t in w.threads && u in w.threads && Stands(w.threads[t].pc).Some? && Stands(w.threads[u].pc).Some? ==> t == u)
            && (w.state == RUNNING <==> w.lock.Some? && w.lock.value in w.threads && Executes(w.threads[w.lock.value].pc))
            && (w.state == UNLOADING <==> exists t :: t in w.threads && Unloads(w.threads[t].pc))
  {
    RunKeeps(Fresh, ops);
    var w := After(Fresh, ops);
    if w.state.UNLOADING? {
      var t :| t in w.threads && Stands(w.threads[t].pc) == Some(UNLOADING);
      assert Unloads(w.threads[t].pc);
    }
    if w.state.RUNNING? {
      var t :| t in w.threads && Stands(w.threads[t].pc) == Some(RUNNING);
      assert HoldsLock(w.threads[t].pc);
    }
    if t :| t in w.threads && Unloads(w.threads[t].pc) {
      assert Stands(w.threads[t].pc) == Some(UNLOADING);
    }
    if w.lock.Some? && Executes(w.threads[w.lock.value].pc) {
      assert Stands(w.threads[w.lock.value].pc) == Some(RUNNING);
    }
  }

  /** At every moment of every run, the two steps after a call of the adapter end it, and
      leave the session, as the call concludes. */
  lemma InvokerConcludes(ops: seq<Op>, t: Tid, outcome: Outcome)
    requires t in After(Fresh, ops).threads && After(Fresh, ops).threads[t].pc.InAdapter?
    ensures var w := After(Fresh, ops);
            var w' := StepInvoker(StepInvoker(w, t, outcome), t, outcome);
            w'.threads[t].pc.Releasing? && Concludes(outcome, w.threads[t].cancelled, w'.threads[t].pc.ending, w'.state)
  {
    RunKeeps(Fresh, ops);
    var w := After(Fresh, ops);
    assert Stands(w.threads[t].pc) == Some(RUNNING);
  }

  /** The transitions after an adapter call never raise: the session is always still in
      the state the call put it in. */
  lemma FinishNeverRaises(ops: seq<Op>, t: Tid)
    requires t in After(Fresh, ops).threads
    ensures var w := After(Fresh, ops);
            && (w.threads[t].pc.Finishing? ==> w.state == RUNNING)
            && (w.threads[t].pc.UnloadFinishing? ==> w.state == UNLOADING)
            && (w.threads[t].pc.LoadFinishing? ==> w.state == LOADING)
  {
    RunKeeps(Fresh, ops);
    var w := After(Fresh, ops);
    assert Stands(w.threads[t].pc).Some? ==> w.state == Stands(w.threads[t].pc).value;
  }

  predicate Finished(w: World) {
    forall t :: t in w.threads ==> w.threads[t].pc.Done?
  }

  /** When all threads are done the lock is free and the session is not stranded. */
  lemma NothingStranded(ops: seq<Op>)
    requires Finished(After(Fresh, ops))
    ensures var w := After(Fresh, ops); w.lock.None? && !Transient(w.state)
  {
    RunKeeps(Fresh, ops);
    var w := After(Fresh, ops);
  }

  /** No deadlock: while some thread is not done, some thread can make a real step (one
      other than polling for the lock). */
  lemma SomeoneProgresses(ops: seq<Op>)
    requires !Finished(After(Fresh, ops))
    ensures exists t :: t in After(Fresh, ops).threads && Progresses(After(Fresh, ops), t)
  {
    RunKeeps(Fresh, ops);
    var w := After(Fresh, ops);
    var t :| t in w.threads && !w.threads[t].pc.Done?;
    var mover := if w.threads[t].pc.Waiting? && w.lock.Some? then w.lock.value else t;
    forall outcome, ok ensures Advances(w, mover, outcome, ok) {
      if Manages(w.threads[mover].pc) {
        ManagerAdvances(w, mover, ok);
      } else {
        InvokerAdvances(w, mover, outcome);
      }
    }
    assert Progresses(w, mover);
  }

  lemma InvokerAdvances(w: World, t: Tid, outcome: Outcome)
    requires t in w.threads && !w.threads[t].pc.Done? && !Manages(w.threads[t].pc)
    requires !(w.threads[t].pc.Waiting? && w.lock.Some?)
    ensures Distance(StepInvoker(w, t, outcome).threads[t].pc) < Distance(w.threads[t].pc)
  {
  }

  lemma ManagerAdvances(w: World, t: Tid, ok: bool)
    requires t in w.threads && Manages(w.threads[t].pc)
    ensures Distance(StepManager(w, t, ok).threads[t].pc) < Distance(w.threads[t].pc)
  {
  }

  ghost predicate Advances(w: World, t: Tid, outcome: Outcome, ok: bool)
    requires t in w.threads
  {
    t in Step(w, Advance(t, outcome, ok)).threads
    && Distance(Step(w, Advance(t, outcome, ok)).threads[t].pc) < Distance(w.threads[t].pc)
  }

  /** The thread's next step, whatever the adapter does, takes it to another program point
      closer to its end. */
  ghost predicate Progresses(w: World, t: Tid)
    requires t in w.threads
  {
    forall outcome, ok :: Advances(w, t, outcome, ok)
  }

  function Distance(pc: Pc): nat {
    match pc
    case Entering => 7
    case Waiting => 6
    case Acquired => 5
    case Checked => 4
    case InAdapter => 3
    case Finishing(_) => 2
    case Releasing(_) => 1
    case UnloadEntering => 3
    case InUnload => 2
    case UnloadFinishing(_) => 1
    case LoadEntering => 3
    case InLoad => 2
    case LoadFinishing(_) => 1
    case Done(_) => 0
  }

  /** Before its check under the lock. */
  predicate Unchecked(pc: Pc) {
    pc.Entering? || pc.Waiting? || pc.Acquired?
  }

  /** A cancelled caller that will never reach the adapter. */
  predicate Doomed(w: World, t: Tid) {
    t in w.threads && w.threads[t].cancelled
    && (Unchecked(w.threads[t].pc) || w.threads[t].pc == Releasing(RaisedCancelled) || w.threads[t].pc == Done(RaisedCancelled))
  }

  /** Cancellation before the check under the lock is final: from then on, in every
      continuation, the caller is never inside the adapter and can only end by raising
      the cancellation. */
  lemma {:induction false} CancelledNeverRuns(w: World, t: Tid, ops: seq<Op>)
    requires Doomed(w, t)
    ensures Doomed(After(w, ops), t)
    decreases |ops|
  {
    if ops != [] {
      CancelledNeverRuns(w, t, ops[..|ops| - 1]);
      var before, op := After(w, ops[..|ops| - 1]), ops[|ops| - 1];
      assert op.t != t ==> Step(before, op).threads[t] == before.threads[t];
    }
  }

  // ------------------------------------------------ the source's methods, one caller

  /** The token as one caller sees it: at entry, after each failed try of the lock, under
      the lock, and after the adapter returned. */
  datatype Sightings = Sightings(entry: bool, waits: seq<bool>, underLock: bool, late: bool)

  predicate CancelledEarly(s: Sightings) {
    s.entry || true in s.waits || s.underLock
  }

  class ModelSession {
    var state: SessionState
    var locked: bool

    constructor ()
      ensures state == UNLOADED && !locked
    {
      state, locked := UNLOADED, false;
    }

    method Transition(expected: set<SessionState>, target: SessionState) returns (ok: bool)
      modifies this`state
      ensures ok <==> old(state) in expected
      ensures state == if ok then target else old(state)
    {
      ok := state in expected;
      if ok {
        state := target;
      }
    }

    /** None means that the lock was acquired and the session is RUNNING. */
    method AcquireInvocation(token: Sightings) returns (raised: Option<Ending>)
      requires !locked
      modifies this
      ensures raised == if CancelledEarly(token) then Some(RaisedCancelled)
                        else if old(state) != READY then Some(RaisedState) else None
      ensures locked <==> raised.None?
      ensures state == if raised.None? then RUNNING else old(state)
    {
      if token.entry {
        return Some(RaisedCancelled);
      }
      var tries := 0;
      while tries < |token.waits|
        invariant 0 <= tries <= |token.waits| && true !in token.waits[..tries]
        invariant !locked && state == old(state)
      {
        if token.waits[tries] {
          return Some(RaisedCancelled);
        }
        assert token.waits[..tries + 1] == token.waits[..tries] + [token.waits[tries]];
        tries := tries + 1;
      }
      assert token.waits[..tries] == token.waits;
      locked := true;
      if token.underLock {
        locked := false;
        return Some(RaisedCancelled);
      }
      var ok := Transition({READY}, RUNNING);
      if !ok {
        locked := false;
        return Some(RaisedState);
      }
      raised := None;
    }

    method FinishInvocation(failed: bool) returns (ok: bool)
      requires locked
      modifies this
      ensures !locked && (ok <==> old(state) == RUNNING)
      ensures state == if !ok then old(state) else if failed then FAILED else READY
    {
      ok := Transition({RUNNING}, if failed then FAILED else READY);
      locked := false;
    }

    /** `Runtime.invoke`: every path out of it leaves the lock free and no RUNNING state
        behind; `called` says whether the adapter was entered. */
    method Invoke(token: Sightings, outcome: Outcome) returns (ending: Ending, called: bool)
      requires !locked && state != RUNNING
      modifies this
      ensures !locked && state != RUNNING
      ensures called <==> old(state) == READY && !CancelledEarly(token)
      ensures ending == if called then EndingOf(outcome, token.late) else if CancelledEarly(token) then RaisedCancelled else RaisedState
      ensures state == if !called then old(state) else if Fails(ending) then FAILED else READY
      ensures called ==> Concludes(outcome, token.late, ending, state)
    {
      var raised := AcquireInvocation(token);
      if raised.Some? {
        return raised.value, false;
      }
      called := true;
      var failed: bool;
      match outcome {
        case Result(idMatches) =>
          if token.late {
            ending, failed := RaisedCancelled, false;
          } else if !idMatches {
            ending, failed := RaisedContract, true;
          } else {
            ending, failed := Succeeded, false;
          }
        case NotAResult => ending, failed := if token.late then RaisedCancelled else RaisedContract, !token.late;
        case Cancelled => ending, failed := RaisedCancelled, false;
        case Rejected => ending, failed := RaisedRejected, false;
        case ContractError => ending, failed := RaisedContract, true;
        case ExecutionError => ending, failed := RaisedExecution, true;
        case OtherError => ending, failed := RaisedExecution, true;
        case Interrupted => ending, failed := RaisedInterrupt, true;
      }
      var _ := FinishInvocation(failed);
    }

    /** `Runtime.load` and `Runtime.unload` with the adapter's call succeeding or raising. */
    method Load(adapterOk: bool) returns (ok: bool)
      modifies this`state
      ensures ok <==> old(state) == UNLOADED && adapterOk
      ensures state == if old(state) != UNLOADED then old(state) else if adapterOk then READY else FAILED
    {
      var began := Transition({UNLOADED}, LOADING);
      if !began {
        return false;
      }
      var _ := Transition({LOADING}, if adapterOk then READY else FAILED);
      ok := adapterOk;
    }

    method Unload(adapterOk: bool) returns (ok: bool)
      modifies this`state
      ensures ok <==> old(state) in {READY, FAILED} && adapterOk
      ensures state == if old(state) !in {READY, FAILED} then old(state) else if adapterOk then UNLOADED else FAILED
    {
      var began := Transition({READY, FAILED}, UNLOADING);
      if !began {
        return false;
      }
      var _ := Transition({UNLOADING}, if adapterOk then UNLOADED else FAILED);
      ok := adapterOk;
    }
  }
}
