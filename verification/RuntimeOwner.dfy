/** The embedded runtime's owner: invocation leases and exclusive, retryable teardown
    under one condition variable, for any number of threads. */
module RuntimeOwner {
  import opened Common

  type Tid = nat
  type Handle = nat

  /** Each constructor is a point between two atomic steps; a step under the condition's
      lock is atomic, `runtime.invoke` and `runtime.close` run outside of it. */
  datatype Pc =
    | Entering
    | Invoking(handle: Handle)
    | CloseEntering
    | SleepingForCloser
    | AwakeForCloser
    | SleepingForLeases
    | AwakeForLeases
    | Closing(target: Option<Handle>)
    | CloseReturned(ok: bool)
    | Done

  /** `built` counts successful calls of the factory.  `stranded` records that a thread was
      interrupted while it waited, already closing, for the leases to drain. */
  datatype World = World(
    runtime: Option<Handle>,
    active: nat,
    closing: bool,
    closed: bool,
    unsafe: bool,
    built: nat,
    stranded: bool,
    threads: map<Tid, Pc>)

  datatype Op =
    | Invoke(t: Tid)
    | Close(t: Tid)
    | Advance(t: Tid, ok: bool)
    | SpuriousWakeup(t: Tid)
    | InterruptWait(t: Tid)
    | MarkUnsafe

  function Woken(pc: Pc): Pc {
    if pc.SleepingForCloser? then AwakeForCloser else if pc.SleepingForLeases? then AwakeForLeases else pc
  }

  /** `notify_all`. */
  function Notified(threads: map<Tid, Pc>): map<Tid, Pc> {
    map t | t in threads :: Woken(threads[t])
  }

  function Go(w: World, t: Tid, pc: Pc): World {
    w.(threads := w.threads[t := pc])
  }

  /** `_lease` up to its yield: `ok` is whether the factory succeeds if it is called. */
  function StepLease(w: World, t: Tid, ok: bool): World {
    if w.closed || w.closing || w.unsafe then Go(w, t, Done)
    else if w.runtime.None? && !ok then Go(w, t, Done)
    else
      var handle := if w.runtime.Some? then w.runtime.value else w.built;
      Go(w, t, Invoking(handle)).(runtime := Some(handle), active := w.active + 1,
                                  built := if w.runtime.Some? then w.built else w.built + 1)
  }

  /** A lease on an open, safe owner is granted exactly when the runtime exists or can be
      built; it is on the one runtime, and counts. */
  lemma LeaseGrantedIff(w: World, t: Tid, ok: bool)
    ensures var w' := StepLease(w, t, ok);
            && (w'.threads[t].Invoking? <==> !w.closed && !w.closing && !w.unsafe && (w.runtime.Some? || ok))
            && (w'.threads[t].Invoking? ==>
                  && w'.runtime == Some(w'.threads[t].handle) && w'.active == w.active + 1
                  && (w.runtime.Some? ==> w'.runtime == w.runtime && w'.built == w.built)
                  && (w.runtime.None? ==> w'.built == w.built + 1))
            && (!w'.threads[t].Invoking? ==> w' == Go(w, t, Done))
  {
  }

  /** Waiting for the active leases with `_closing` set. */
  function AwaitLeases(w: World, t: Tid): World {
    if w.active > 0 then Go(w, t, SleepingForLeases) else Go(w, t, Closing(w.runtime))
  }

  function StepClose(w: World, t: Tid): World {
    if w.closed then Go(w, t, Done)
    else if w.closing then Go(w, t, SleepingForCloser)
    else AwaitLeases(w.(closing := true), t)
  }

  function StepThread(w: World, t: Tid, ok: bool): World
    requires t in w.threads
  {
    match w.threads[t]
    case Entering => StepLease(w, t, ok)
    case Invoking(_) =>
      Go(w, t, Done).(active := if w.active > 0 then w.active - 1 else 0, threads := Notified(w.threads)[t := Done])
    case CloseEntering => StepClose(w, t)
    case AwakeForCloser => StepClose(w, t)
    case AwakeForLeases => AwaitLeases(w, t)
    case Closing(target) => Go(w, t, CloseReturned(ok || target.None?))
    case CloseReturned(true) =>
      w.(runtime := None, closed := true, closing := false, threads := Notified(w.threads)[t := Done])
    case CloseReturned(false) =>
      w.(unsafe := true, closing := false, threads := Notified(w.threads)[t := Done])
    case _ => w
  }

  function Step(w: World, op: Op): World {
    match op
    case Invoke(t) => if t in w.threads then w else Go(w, t, Entering)
    case Close(t) => if t in w.threads then w else Go(w, t, CloseEntering)
    case Advance(t, ok) => if t in w.threads then StepThread(w, t, ok) else w
    case SpuriousWakeup(t) => if t in w.threads then Go(w, t, Woken(w.threads[t])) else w
    case InterruptWait(t) =>
      if t !in w.threads then w
      else if w.threads[t].SleepingForCloser? then Go(w, t, Done)
      else if w.threads[t].SleepingForLeases? then Go(w, t, Done).(stranded := true)
      else w
    case MarkUnsafe => if w.closed then w else w.(unsafe := true)
  }

  function After(w: World, ops: seq<Op>): World
    decreases |ops|
  {
    if ops == [] then w else Step(After(w, ops[..|ops| - 1]), ops[|ops| - 1])
  }

  const Fresh: World := World(None, 0, false, false, false, 0, false, map[])

  // ----------------------------------------------------------------------- invariant

  function Invokers(threads: map<Tid, Pc>): set<Tid> {
    set t | t in threads && threads[t].Invoking?
  }

  /** Threads that set `_closing` and have not cleared it. */
  predicate Closes(pc: Pc) {
    pc.SleepingForLeases? || pc.AwakeForLeases? || pc.Closing? || pc.CloseReturned?
  }

  function Closers(threads: map<Tid, Pc>): set<Tid> {
    set t | t in threads && Closes(threads[t])
  }

  predicate PcHolds(w: World, pc: Pc) {
    && (pc.Invoking? ==> w.runtime == Some(pc.handle))
    && (pc.SleepingForCloser? ==> w.closing)
    && (pc.SleepingForLeases? ==> w.active > 0)
    && (pc.Closing? ==> w.active == 0 && pc.target == w.runtime)
    && (pc.CloseReturned? ==> w.active == 0)
  }

  ghost predicate Invariant(w: World) {
    && w.active == |Invokers(w.threads)|
    && |Closers(w.threads)| + (if w.stranded then 1 else 0) == (if w.closing then 1 else 0)
    && Scalars(w)
    && (forall t :: t in w.threads ==> PcHolds(w, w.threads[t]))
  }

  function One(b: bool): nat {
    if b then 1 else 0
  }

  /** How one thread's move changes the two counts. */
  lemma CountsMove(threads: map<Tid, Pc>, t: Tid, pc: Pc)
    ensures |Invokers(threads[t := pc])| == |Invokers(threads)| - One(t in threads && threads[t].Invoking?) + One(pc.Invoking?)
    ensures |Closers(threads[t := pc])| == |Closers(threads)| - One(t in threads && Closes(threads[t])) + One(Closes(pc))
  {
    InvokersMove(threads, t, pc);
    ClosersMove(threads, t, pc);
  }

  lemma InvokersMove(threads: map<Tid, Pc>, t: Tid, pc: Pc)
    ensures Invokers(threads[t := pc]) == if pc.Invoking? then Invokers(threads) + {t} else Invokers(threads) - {t}
  {
  }

  lemma ClosersMove(threads: map<Tid, Pc>, t: Tid, pc: Pc)
    ensures Closers(threads[t := pc]) == if Closes(pc) then Closers(threads) + {t} else Closers(threads) - {t}
  {
  }

  lemma CountsNotified(threads: map<Tid, Pc>)
    ensures Invokers(Notified(threads)) == Invokers(threads) && Closers(Notified(threads)) == Closers(threads)
  {
  }

  lemma NoMembers(w: World, u: Tid)
    requires Invariant(w) && u in w.threads
    ensures w.threads[u].Invoking? ==> w.active > 0
    ensures Closes(w.threads[u]) ==> w.closing && !w.stranded
  {
    if w.threads[u].Invoking? {
      assert u in Invokers(w.threads);
    }
    if Closes(w.threads[u]) {
      assert u in Closers(w.threads);
    }
  }

  lemma OneCloser(w: World, t: Tid, u: Tid)
    requires Invariant(w) && t in w.threads && u in w.threads && Closes(w.threads[t]) && Closes(w.threads[u])
    ensures t == u
  {
    var closers := Closers(w.threads);
    assert t in closers && u in closers;
    assert |closers - {t}| == |closers| - 1;
    assert closers - {t} == {};
    assert u !in closers - {t};
  }

  /** The scalar part of the invariant. */
  predicate Scalars(w: World) {
    && (w.closed ==> w.runtime.None? && w.active == 0 && !w.closing)
    && (w.runtime.Some? ==> w.built == 1) && (w.runtime.None? && !w.closed ==> w.built == 0) && w.built <= 1
  }

  /** Thread t moves to pc; `woken` says whether the step notified. */
  lemma ThreadMoves(w: World, w': World, t: Tid, pc: Pc, woken: bool)
    requires Invariant(w)
    requires w'.threads == (if woken then Notified(w.threads) else w.threads)[t := pc]
    requires w'.active == w.active - One(t in w.threads && w.threads[t].Invoking?) + One(pc.Invoking?)
    requires One(w'.closing) - One(w'.stranded) ==
             One(w.closing) - One(w.stranded) - One(t in w.threads && Closes(w.threads[t])) + One(Closes(pc))
    requires Scalars(w') && PcHolds(w', pc)
    requires forall u :: u in w.threads && u != t ==> PcHolds(w', if woken then Woken(w.threads[u]) else w.threads[u])
    ensures Invariant(w')
  {
    CountsMove(if woken then Notified(w.threads) else w.threads, t, pc);
    CountsNotified(w.threads);
  }

  lemma LeaseKeeps(w: World, t: Tid, ok: bool)
    requires Invariant(w) && t in w.threads && w.threads[t].Entering?
    ensures Invariant(StepLease(w, t, ok))
  {
    var w' := StepLease(w, t, ok);
    forall u | u in w.threads && u != t ensures PcHolds(w', w.threads[u]) {
      NoMembers(w, u);
      assert PcHolds(w, w.threads[u]);
    }
    ThreadMoves(w, w', t, w'.threads[t], false);
  }

  lemma LeaveKeeps(w: World, t: Tid, ok: bool)
    requires Invariant(w) && t in w.threads && w.threads[t].Invoking?
    ensures Invariant(StepThread(w, t, ok))
  {
    var w' := StepThread(w, t, ok);
    NoMembers(w, t);
    forall u | u in w.threads && u != t ensures PcHolds(w', Woken(w.threads[u])) {
      assert PcHolds(w, w.threads[u]);
    }
    ThreadMoves(w, w', t, Done, true);
  }

  lemma CloseKeeps(w: World, t: Tid)
    requires Invariant(w) && t in w.threads && (w.threads[t].CloseEntering? || w.threads[t].AwakeForCloser?)
    ensures Invariant(StepClose(w, t))
  {
    var w' := StepClose(w, t);
    forall u | u in w.threads && u != t ensures PcHolds(w', w.threads[u]) {
      NoMembers(w, u);
      assert PcHolds(w, w.threads[u]);
    }
    ThreadMoves(w, w', t, w'.threads[t], false);
  }

  lemma AwaitKeeps(w: World, t: Tid)
    requires Invariant(w) && t in w.threads && w.threads[t].AwakeForLeases?
    ensures Invariant(AwaitLeases(w, t))
  {
    NoMembers(w, t);
    var w' := AwaitLeases(w, t);
    forall u | u in w.threads && u != t ensures PcHolds(w', w.threads[u]) {
      assert PcHolds(w, w.threads[u]);
    }
    ThreadMoves(w, w', t, w'.threads[t], false);
  }

  lemma ReturnKeeps(w: World, t: Tid, ok: bool)
    requires Invariant(w) && t in w.threads && w.threads[t].Closing?
    ensures Invariant(StepThread(w, t, ok))
  {
    NoMembers(w, t);
    var w' := StepThread(w, t, ok);
    assert PcHolds(w, w.threads[t]);
    forall u | u in w.threads && u != t ensures PcHolds(w', w.threads[u]) {
      assert PcHolds(w, w.threads[u]);
    }
    ThreadMoves(w, w', t, w'.threads[t], false);
  }

  lemma TeardownKeeps(w: World, t: Tid, ok: bool)
    requires Invariant(w) && t in w.threads && w.threads[t].CloseReturned?
    ensures Invariant(StepThread(w, t, ok))
  {
    NoMembers(w, t);
    var w' := StepThread(w, t, ok);
    assert PcHolds(w, w.threads[t]);
    forall u | u in w.threads && u != t ensures PcHolds(w', Woken(w.threads[u])) {
      assert PcHolds(w, w.threads[u]);
      NoMembers(w, u);
      if Closes(w.threads[u]) {
        OneCloser(w, t, u);
      }
    }
    ThreadMoves(w, w', t, Done, true);
  }

  lemma WakeKeeps(w: World, t: Tid)
    requires Invariant(w) && t in w.threads
    ensures Invariant(Step(w, SpuriousWakeup(t)))
  {
    assert PcHolds(w, w.threads[t]);
    ThreadMoves(w, Step(w, SpuriousWakeup(t)), t, Woken(w.threads[t]), false);
  }

  lemma InterruptKeeps(w: World, t: Tid)
    requires Invariant(w) && t in w.threads
    ensures Invariant(Step(w, InterruptWait(t)))
  {
    if Step(w, InterruptWait(t)) != w {
      NoMembers(w, t);
      ThreadMoves(w, Step(w, InterruptWait(t)), t, Done, false);
    }
  }

  lemma AdvanceKeeps(w: World, t: Tid, ok: bool)
    requires Invariant(w) && t in w.threads
    ensures Invariant(StepThread(w, t, ok))
  {
    match w.threads[t]
    case Entering => LeaseKeeps(w, t, ok);
    case Invoking(_) => LeaveKeeps(w, t, ok);
    case CloseEntering => CloseKeeps(w, t);
    case AwakeForCloser => CloseKeeps(w, t);
    case AwakeForLeases => AwaitKeeps(w, t);
    case Closing(_) => ReturnKeeps(w, t, ok);
    case CloseReturned(_) => TeardownKeeps(w, t, ok);
    case _ =>
  }

  lemma StepKeeps(w: World, op: Op)
    requires Invariant(w)
    ensures Invariant(Step(w, op))
  {
    match op
    case Invoke(t) => if t !in w.threads { ThreadMoves(w, Step(w, op), t, Entering, false); }
    case Close(t) => if t !in w.threads { ThreadMoves(w, Step(w, op), t, CloseEntering, false); }
    case SpuriousWakeup(t) => if t in w.threads { WakeKeeps(w, t); }
    case InterruptWait(t) => if t in w.threads { InterruptKeeps(w, t); }
    case MarkUnsafe =>
    case Advance(t, ok) => if t in w.threads { AdvanceKeeps(w, t, ok); }
  }

  lemma {:induction false} RunKeeps(w: World, ops: seq<Op>)
    requires Invariant(w)
    ensures Invariant(After(w, ops))
    decreases |ops|
  {
    if ops != [] {
      RunKeeps(w, ops[..|ops| - 1]);
      StepKeeps(After(w, ops[..|ops| - 1]), ops[|ops| - 1]);
    }
  }

  // ------------------------------------------------------------------- main theorems

  predicate TearsDown(pc: Pc) {
    pc.Closing? || pc.CloseReturned?
  }

  /** Teardown exclusion, at every moment of every run: at most one runtime is ever built;
      the active count is exact; every invocation uses the one handle; and while
      `runtime.close` is in progress no invocation is, and no other close. */
  lemma TeardownExcludes(ops: seq<Op>)
    ensures var w := After(Fresh, ops);
            && w.built <= 1 && w.active == |Invokers(w.threads)|
            && (forall t :: t in w.threads && w.threads[t].Invoking? ==> w.runtime == Some(w.threads[t].handle))
            && (forall t, u :: t in w.threads && u in w.threads && t != u && TearsDown(w.threads[t]) ==>
                  !w.threads[u].Invoking? && !Closes(w.threads[u]))
  {
    RunKeeps(Fresh, ops);
    var w := After(Fresh, ops);
    forall t | t in w.threads && w.threads[t].Invoking? ensures w.runtime == Some(w.threads[t].handle) {
      assert PcHolds(w, w.threads[t]);
    }
    forall t, u | t in w.threads && u in w.threads && t != u && TearsDown(w.threads[t])
      ensures !w.threads[u].Invoking? && !Closes(w.threads[u])
    {
      assert PcHolds(w, w.threads[t]);
      NoMembers(w, u);
      if Closes(w.threads[u]) {
        OneCloser(w, t, u);
      }
    }
  }

  predicate Barred(w: World) {
    w.closing || w.closed || w.unsafe
  }

  lemma BarredThread(w: World, t: Tid, ok: bool, u: Tid)
    requires Barred(w) && t in w.threads && u in StepThread(w, t, ok).threads
    requires StepThread(w, t, ok).threads[u].Invoking?
    ensures u in w.threads && w.threads[u].Invoking?
  {
    assert u in w.threads;
    if u == t {
      assert StepThread(w, t, ok).threads[t] == w.threads[t];
    } else {
      assert StepThread(w, t, ok).threads[u] in {w.threads[u], Woken(w.threads[u])};
    }
  }

  lemma BarredInvokes(w: World, op: Op, u: Tid)
    requires Barred(w) && u in Step(w, op).threads && Step(w, op).threads[u].Invoking?
    ensures u in w.threads && w.threads[u].Invoking?
  {
    match op
    case Advance(t, ok) => if t in w.threads { BarredThread(w, t, ok, u); }
    case _ =>
  }

  lemma BarredStep(w: World, op: Op)
    requires Invariant(w) && (w.closed || w.unsafe)
    ensures (Step(w, op).closed || Step(w, op).unsafe) && Step(w, op).built == w.built
  {
  }

  /** No lease starts once the owner is closing, closed or unsafe; closed or unsafe, that
      is for ever, and nothing is built any more. */
  lemma {:induction false} NoLeaseAfterUnsafe(w: World, ops: seq<Op>)
    requires Invariant(w) && (w.closed || w.unsafe)
    ensures var w' := After(w, ops);
            && (w'.closed || w'.unsafe) && w'.built == w.built && Invokers(w'.threads) <= Invokers(w.threads)
    decreases |ops|
  {
    if ops != [] {
      var before, op := After(w, ops[..|ops| - 1]), ops[|ops| - 1];
      NoLeaseAfterUnsafe(w, ops[..|ops| - 1]);
      RunKeeps(w, ops[..|ops| - 1]);
      BarredStep(before, op);
      forall u | u in Invokers(After(w, ops).threads) ensures u in Invokers(w.threads) {
        BarredInvokes(before, op, u);
        assert u in Invokers(before.threads);
      }
    }
  }

  /** A failed close leaves the owner open, unsafe, with the same handle, and free for
      another close; a successful one closes it for good. */
  lemma FailedCloseIsRetryable(ops: seq<Op>, t: Tid, ok: bool)
    requires var w := After(Fresh, ops); t in w.threads && w.threads[t].CloseReturned?
    ensures var w := After(Fresh, ops);
            var w' := Step(w, Advance(t, ok));
            if w.threads[t].ok then w'.closed && w'.runtime.None? && !w'.closing
            else !w'.closed && w'.unsafe && w'.runtime == w.runtime && !w'.closing && Closers(w'.threads) == {}
  {
    RunKeeps(Fresh, ops);
    var w := After(Fresh, ops);
    StepKeeps(w, Advance(t, ok));
    NoMembers(w, t);
    assert |Closers(Step(w, Advance(t, ok)).threads)| == 0;
  }

  lemma {:induction false} ClosedIsPermanent(w: World, ops: seq<Op>)
    requires Invariant(w) && w.closed
    ensures After(w, ops).closed && After(w, ops).runtime.None? && After(w, ops).active == 0
    decreases |ops|
  {
    if ops != [] {
      var before, op := After(w, ops[..|ops| - 1]), ops[|ops| - 1];
      ClosedIsPermanent(w, ops[..|ops| - 1]);
      RunKeeps(w, ops[..|ops| - 1]);
      StepKeeps(before, op);
      if op.Advance? && op.t in before.threads && Closes(before.threads[op.t]) {
        NoMembers(before, op.t);
      }
    }
  }

  predicate Sleeps(pc: Pc) {
    pc.SleepingForCloser? || pc.SleepingForLeases?
  }

  /** No wakeup is lost: unless a waiting closer was interrupted, as long as some thread is
      not done some thread is awake, and a sleeper's condition is still unmet. */
  lemma NoLostWakeup(ops: seq<Op>, t: Tid)
    requires var w := After(Fresh, ops); !w.stranded && t in w.threads && !w.threads[t].Done?
    ensures exists u :: u in After(Fresh, ops).threads && Awake(After(Fresh, ops).threads[u])
    ensures var w := After(Fresh, ops);
            && (w.threads[t].SleepingForCloser? ==> w.closing) && (w.threads[t].SleepingForLeases? ==> w.active > 0)
  {
    RunKeeps(Fresh, ops);
    var w := After(Fresh, ops);
    assert PcHolds(w, w.threads[t]);
    if Sleeps(w.threads[t]) {
      if w.active > 0 {
        var u :| u in Invokers(w.threads);
        assert Awake(w.threads[u]);
      } else {
        assert |Closers(w.threads)| > 0;
        var u :| u in Closers(w.threads);
        assert PcHolds(w, w.threads[u]);
        assert Awake(w.threads[u]);
      }
    } else {
      assert Awake(w.threads[t]);
    }
  }

  predicate Awake(pc: Pc) {
    !Sleeps(pc) && !pc.Done?
  }

  /** How many steps a thread has left when nothing stands in its way. */
  function Distance(pc: Pc): nat {
    match pc
    case Entering => 2
    case Invoking(_) => 1
    case CloseEntering => 4
    case SleepingForCloser => 4
    case AwakeForCloser => 4
    case SleepingForLeases => 3
    case AwakeForLeases => 3
    case Closing(_) => 2
    case CloseReturned(_) => 1
    case Done => 0
  }

  ghost predicate Progresses(w: World, t: Tid) {
    t in w.threads && forall ok :: ComesCloser(w, t, ok)
  }

  predicate ComesCloser(w: World, t: Tid, ok: bool)
    requires t in w.threads
  {
    t in StepThread(w, t, ok).threads && Distance(StepThread(w, t, ok).threads[t]) < Distance(w.threads[t])
  }

  lemma InvokerProgresses(w: World, t: Tid)
    requires t in w.threads && w.threads[t].Invoking?
    ensures Progresses(w, t)
  {
    forall ok ensures ComesCloser(w, t, ok) {
    }
  }

  lemma QuietProgresses(w: World, t: Tid)
    requires t in w.threads && !Sleeps(w.threads[t]) && !w.threads[t].Done? && w.active == 0
    requires w.threads[t].CloseEntering? || w.threads[t].AwakeForCloser? ==> !w.closing
    ensures Progresses(w, t)
  {
    forall ok ensures ComesCloser(w, t, ok) {
    }
  }

  /** While some thread is not done and nothing is stranded, some thread's next step, with
      whatever outcome, brings it closer to its end. */
  lemma SomeoneProgresses(ops: seq<Op>, t: Tid)
    requires var w := After(Fresh, ops); !w.stranded && t in w.threads && !w.threads[t].Done?
    ensures exists u :: Progresses(After(Fresh, ops), u)
  {
    RunKeeps(Fresh, ops);
    var w := After(Fresh, ops);
    if w.active > 0 {
      var u :| u in Invokers(w.threads);
      InvokerProgresses(w, u);
    } else if w.closing {
      assert |Closers(w.threads)| == 1;
      var u :| u in Closers(w.threads);
      assert PcHolds(w, w.threads[u]);
      QuietProgresses(w, u);
    } else {
      assert PcHolds(w, w.threads[t]);
      NoMembers(w, t);
      QuietProgresses(w, t);
    }
  }

  /** An invocation in progress, and a closer interrupted while it waits for it. */
  function InterruptedClose(): seq<Op> {
    [Invoke(1), Advance(1, true), Close(2), Advance(2, true), InterruptWait(2)]
  }

  lemma StrandedIsReachable()
    ensures After(Fresh, InterruptedClose()).stranded && Invariant(After(Fresh, InterruptedClose()))
  {
    var ops := InterruptedClose();
    RunKeeps(Fresh, ops);
    assert ops[..0] == [] && ops[..5] == ops;
    AfterNext(ops, 0);
    AfterNext(ops, 1);
    AfterNext(ops, 2);
    AfterNext(ops, 3);
    AfterNext(ops, 4);
  }

  lemma AfterNext(ops: seq<Op>, k: nat)
    requires k < |ops|
    ensures After(Fresh, ops[..k + 1]) == Step(After(Fresh, ops[..k]), ops[k])
  {
    assert ops[..k + 1][..k] == ops[..k];
  }

  /** The exception: once a closer is interrupted while it waits for the leases, the owner
      stays closing with nobody to finish.  From then on it is never closed, nothing more
      is built or leased, and no other thread ever closes it. */
  lemma {:induction false} InterruptedWaitStrands(w: World, ops: seq<Op>)
    requires Invariant(w) && w.stranded
    ensures var w' := After(w, ops);
            w'.stranded && w'.closing && !w'.closed && w'.built == w.built && w'.active <= w.active && Closers(w'.threads) == {}
    decreases |ops|
  {
    if ops != [] {
      var before, op := After(w, ops[..|ops| - 1]), ops[|ops| - 1];
      InterruptedWaitStrands(w, ops[..|ops| - 1]);
      RunKeeps(w, ops[..|ops| - 1]);
      StepKeeps(before, op);
      if op.Advance? && op.t in before.threads {
        NoMembers(before, op.t);
      }
      assert |Closers(After(w, ops).threads)| == 0;
    } else {
      assert |Closers(w.threads)| == 0;
    }
  }

  // ---------------------------------------------------- the owner's methods as steps

  /** `EmbeddedRuntimeOwner`.  Each method is one critical section under the condition, by
      the thread `t`; the threads themselves are ghost. */
  class EmbeddedRuntimeOwner {
    var runtime: Option<Handle>
    var active: nat
    var closing: bool
    var closed: bool
    var unsafe: bool
    var built: nat

    ghost function Model(threads: map<Tid, Pc>, stranded: bool): World
      reads this
    {
      World(runtime, active, closing, closed, unsafe, built, stranded, threads)
    }

    constructor ()
      ensures Model(map[], false) == Fresh
    {
      runtime, active, built := None, 0, 0;
      closing, closed, unsafe := false, false, false;
    }

    method BeginLease(factoryOk: bool, ghost threads: map<Tid, Pc>, ghost t: Tid, ghost stranded: bool)
      returns (lease: Option<Handle>)
      modifies this
      ensures Model(threads[t := if lease.Some? then Invoking(lease.value) else Done], stranded)
              == StepLease(old(Model(threads, stranded)), t, factoryOk)
      ensures lease.Some? <==> !closed && !closing && !unsafe && (old(runtime).Some? || factoryOk)
      ensures lease.Some? ==> lease == runtime && (old(runtime).Some? ==> runtime == old(runtime)) && active == old(active) + 1
    {
      if closed || closing || unsafe {
        return None;
      }
      if runtime.None? {
        if !factoryOk {
          return None;
        }
        runtime := Some(built);
        built := built + 1;
      }
      active := active + 1;
      lease := runtime;
    }

    method EndLease(ghost threads: map<Tid, Pc>, ghost t: Tid, ghost stranded: bool)
      requires active > 0 && t in threads && threads[t].Invoking?
      modifies this`active
      ensures Model(Notified(threads)[t := Done], stranded) == StepThread(old(Model(threads, stranded)), t, true)
    {
      active := active - 1;
    }

    method MarkUnsafe(ghost threads: map<Tid, Pc>, ghost stranded: bool)
      modifies this`unsafe
      ensures Model(threads, stranded) == Step(old(Model(threads, stranded)), Op.MarkUnsafe)
    {
      if !closed {
        unsafe := true;
      }
    }

    /** The first critical section of `close` up to a wait, the teardown or the return. */
    method BeginClose(ghost threads: map<Tid, Pc>, ghost t: Tid, ghost stranded: bool) returns (next: Pc)
      modifies this`closing
      ensures Model(threads[t := next], stranded) == StepClose(old(Model(threads, stranded)), t)
    {
      if closed {
        return Done;
      }
      if closing {
        return SleepingForCloser;
      }
      closing := true;
      next := if active > 0 then SleepingForLeases else Closing(runtime);
    }

    /** The last one, after `runtime.close` returned or raised. */
    method EndClose(ok: bool, ghost threads: map<Tid, Pc>, ghost t: Tid, ghost stranded: bool)
      requires t in threads && threads[t] == CloseReturned(ok)
      modifies this
      ensures Model(Notified(threads)[t := Done], stranded) == StepThread(old(Model(threads, stranded)), t, ok)
    {
      if ok {
        runtime := None;
        closed := true;
      } else {
        unsafe := true;
      }
      closing := false;
    }
  }
}
