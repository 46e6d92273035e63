/** Publication and orphan sweeping over every interleaving of any number of worker
    threads and sweepers, with crashes and lease expiry at any point. */
module PublicationRuns {
  import opened Common
  import opened Ledger

  type Agent = nat

  /** Where a worker thread stands in `publish`.  A thread keeps the row as it last saw
      it: its id, version and evidence. */
  datatype Pc =
    | Reserving
    | Writing(id: PublicationId, version: nat)
    | Written(id: PublicationId, version: nat, content: Bytes)
    | Validating(id: PublicationId, version: nat, observed: Bytes)
    | Promoting(id: PublicationId, version: nat, observed: Bytes)
    | Promoted(id: PublicationId, version: nat, blob: Bytes)
    | Verifying(id: PublicationId, version: nat, observed: Bytes)
    | Rejecting(id: PublicationId, version: nat)
    | Cleaning(next: nat)
    | Cleaned(next: nat)
    | Stopped

  /** `done` are the records that were advanced and whose canonical bytes were re-hashed. */
  datatype Worker = Worker(lease: Lease, todo: seq<Spec>, done: seq<Ref>, pc: Pc)

  /** A sweeper about to delete, or having deleted, one attempt object. */
  datatype Sweeper = Idle | Deleting(id: PublicationId, version: nat) | DeletingUnknown(id: PublicationId)
                   | Deleted(id: PublicationId, version: nat)

  /** Attempt objects are named by their record's id (the key is derived from the record),
      canonical objects by their content.  `minted` are all ids ever used as a name. */
  datatype World = World(
    db: Ledger,
    attempts: map<PublicationId, Bytes>,
    canonical: set<Bytes>,
    minted: set<PublicationId>,
    issued: set<Lease>,
    workers: map<Agent, Worker>,
    sweepers: map<Agent, Sweeper>)

  datatype Op =
    | StartWorker(agent: Agent, lease: Lease, todo: seq<Spec>)
    | ReserveOrFinalize(agent: Agent, newId: PublicationId)
    | Write(agent: Agent, content: Bytes)
    | RecordWritten(agent: Agent)
    | Validate(agent: Agent)
    | Promote(agent: Agent)
    | RecordPromoted(agent: Agent)
    | Verify(agent: Agent)
    | DoReject(agent: Agent)
    | CleanDelete(agent: Agent)
    | CleanRecord(agent: Agent)
    | Crash(agent: Agent)
    | StartLease(lease: Lease, required: set<Kind>)
    | ExpireLease(lease: Lease)
    | Tick(seconds: nat)
    | TakeTerminal(sweeper: Agent, id: PublicationId)
    | TakeStale(sweeper: Agent, id: PublicationId)
    | TakeUnknown(sweeper: Agent, id: PublicationId)
    | SweepDelete(sweeper: Agent)
    | SweepRecord(sweeper: Agent)

  // -------------------------------------------------------------------- worker steps

  ghost function Go(w: World, agent: Agent, pc: Pc): World
    requires agent in w.workers
  {
    w.(workers := w.workers[agent := w.workers[agent].(pc := pc)])
  }

  /** The row the repository returned decides where the thread resumes. */
  function Resume(id: PublicationId, row: Row): Pc {
    match row.state
    case Reserved => Writing(id, row.version)
    case ObjectWritten => if row.observed.Some? then Validating(id, row.version, row.observed.value) else Stopped
    case Validated => if row.observed.Some? then Verifying(id, row.version, row.observed.value) else Stopped
    case _ => Stopped
  }

  ghost function StepReserve(w: World, agent: Agent, newId: PublicationId): World
    requires agent in w.workers
  {
    var t := w.workers[agent];
    if t.todo == [] || newId in w.minted then w
    else
      var r := Reserve(w.db, t.lease, t.todo[0], newId);
      if r.None? || r.value.1 !in r.value.0.rows then Go(w, agent, Stopped)
      else Go(w.(db := r.value.0, minted := w.minted + {newId}), agent, Resume(r.value.1, r.value.0.rows[r.value.1]))
  }

  ghost function StepFinalize(w: World, agent: Agent): World
    requires agent in w.workers
  {
    var r := Finalize(w.db, w.workers[agent].lease, w.workers[agent].done);
    if r.None? then Go(w, agent, Stopped) else Go(w.(db := r.value), agent, Cleaning(0))
  }

  /** `put_stream` creates exclusively: present objects are never overwritten. */
  ghost function StepWrite(w: World, agent: Agent, content: Bytes): World
    requires agent in w.workers && w.workers[agent].pc.Writing?
  {
    var pc := w.workers[agent].pc;
    if pc.id !in w.db.rows then w
    else
      var spec := w.db.rows[pc.id].spec;
      if |content| > spec.maxSize || (spec.expectedSize.Some? && |content| > spec.expectedSize.value)
      then Go(w, agent, Rejecting(pc.id, pc.version))
      else if pc.id in w.attempts && w.attempts[pc.id] != content then Go(w, agent, Stopped)
      else Go(w.(attempts := w.attempts[pc.id := content]), agent, Written(pc.id, pc.version, content))
  }

  ghost function StepRecordWritten(w: World, agent: Agent): World
    requires agent in w.workers && w.workers[agent].pc.Written?
  {
    var pc := w.workers[agent].pc;
    if pc.id !in w.db.rows then w
    else if !Matches(w.db.rows[pc.id].spec, pc.content) then Go(w, agent, Rejecting(pc.id, pc.version))
    else
      var r := RecordObject(w.db, w.workers[agent].lease, pc.id, pc.version, pc.content);
      if r.None? then Go(w, agent, Stopped)
      else Go(w.(db := r.value), agent, Validating(pc.id, pc.version + 1, pc.content))
  }

  ghost function StepValidate(w: World, accepts: Bytes -> bool, agent: Agent): World
    requires agent in w.workers && w.workers[agent].pc.Validating?
  {
    var pc := w.workers[agent].pc;
    if pc.id !in w.attempts || w.attempts[pc.id] != pc.observed || !accepts(w.attempts[pc.id])
    then Go(w, agent, Rejecting(pc.id, pc.version))
    else Go(w, agent, Promoting(pc.id, pc.version, pc.observed))
  }

  /** The attempt object is read a second time into the canonical store. */
  ghost function StepPromote(w: World, agent: Agent): World
    requires agent in w.workers && w.workers[agent].pc.Promoting?
  {
    var pc := w.workers[agent].pc;
    if pc.id !in w.attempts then Go(w, agent, Stopped)
    else if |w.attempts[pc.id]| != |pc.observed| then Go(w, agent, Rejecting(pc.id, pc.version))
    else
      var w' := w.(canonical := w.canonical + {w.attempts[pc.id]});
      if w.attempts[pc.id] != pc.observed then Go(w', agent, Rejecting(pc.id, pc.version))
      else Go(w', agent, Promoted(pc.id, pc.version, pc.observed))
  }

  ghost function StepRecordPromoted(w: World, agent: Agent): World
    requires agent in w.workers && w.workers[agent].pc.Promoted?
  {
    var pc := w.workers[agent].pc;
    var r := RecordValidated(w.db, w.workers[agent].lease, pc.id, pc.version, pc.blob);
    if r.None? then Go(w, agent, Stopped)
    else Go(w.(db := r.value), agent, Verifying(pc.id, pc.version + 1, pc.blob))
  }

  ghost function StepVerify(w: World, agent: Agent): World
    requires agent in w.workers && w.workers[agent].pc.Verifying?
  {
    var t := w.workers[agent];
    if t.pc.observed !in w.canonical || t.todo == [] then Go(w, agent, Stopped)
    else w.(workers := w.workers[agent := t.(todo := t.todo[1..], done := t.done + [Ref(t.pc.id, t.pc.version)], pc := Reserving)])
  }

  ghost function StepReject(w: World, agent: Agent): World
    requires agent in w.workers && w.workers[agent].pc.Rejecting?
  {
    var pc := w.workers[agent].pc;
    var r := Reject(w.db, w.workers[agent].lease, pc.id, pc.version);
    Go(if r.None? then w else w.(db := r.value), agent, Stopped)
  }

  /** Best-effort cleanup after finalization: delete, then record; failures are skipped. */
  ghost function StepCleanDelete(w: World, agent: Agent): World
    requires agent in w.workers && w.workers[agent].pc.Cleaning?
  {
    var t := w.workers[agent];
    if t.pc.next >= |t.done| then Go(w, agent, Stopped)
    else Go(w.(attempts := w.attempts - {t.done[t.pc.next].id}), agent, Cleaned(t.pc.next))
  }

  ghost function StepCleanRecord(w: World, agent: Agent): World
    requires agent in w.workers && w.workers[agent].pc.Cleaned?
  {
    var t := w.workers[agent];
    if t.pc.next >= |t.done| || t.done[t.pc.next].id !in w.db.rows then Go(w, agent, Stopped)
    else
      var id := t.done[t.pc.next].id;
      var r := RecordCleanup(w.db, id, w.db.rows[id].version);
      Go(if r.None? then w else w.(db := r.value), agent, Cleaning(t.pc.next + 1))
  }

  // ------------------------------------------------------------------- sweeper steps

  ghost function StepTakeTerminal(w: World, s: Agent, id: PublicationId): World {
    if id !in w.db.rows || !Terminal(w.db.rows[id]) then w
    else w.(sweepers := w.sweepers[s := Deleting(id, w.db.rows[id].version)])
  }

  ghost function StepTakeStale(w: World, s: Agent, id: PublicationId): World {
    if id !in w.db.rows || Terminal(w.db.rows[id]) then w
    else
      var (db, abandoned) := Abandon(w.db, id, w.db.rows[id].version);
      w.(db := db, sweepers := w.sweepers[s := if abandoned then Deleting(id, w.db.rows[id].version + 1) else Idle])
  }

  ghost function StepTakeUnknown(w: World, s: Agent, id: PublicationId): World {
    if id in w.db.rows || id !in w.attempts then w
    else w.(sweepers := w.sweepers[s := DeletingUnknown(id)])
  }

  ghost function StepSweepDelete(w: World, s: Agent): World {
    if s !in w.sweepers then w
    else match w.sweepers[s]
      case Deleting(id, version) =>
        w.(attempts := w.attempts - {id}, sweepers := w.sweepers[s := Deleted(id, version)])
      case DeletingUnknown(id) => w.(attempts := w.attempts - {id}, sweepers := w.sweepers[s := Idle])
      case _ => w
  }

  ghost function StepSweepRecord(w: World, s: Agent): World {
    if s !in w.sweepers || !w.sweepers[s].Deleted? then w
    else
      var r := RecordCleanup(w.db, w.sweepers[s].id, w.sweepers[s].version);
      w.(db := if r.None? then w.db else r.value, sweepers := w.sweepers[s := Idle])
  }

  // ---------------------------------------------------------------------------- runs

  ghost function StepWorker(w: World, accepts: Bytes -> bool, op: Op): World {
    match op
    case ReserveOrFinalize(a, newId) =>
      if a !in w.workers || !w.workers[a].pc.Reserving? then w
      else if w.workers[a].todo == [] then StepFinalize(w, a) else StepReserve(w, a, newId)
    case Write(a, content) => if a !in w.workers || !w.workers[a].pc.Writing? then w else StepWrite(w, a, content)
    case RecordWritten(a) => if a !in w.workers || !w.workers[a].pc.Written? then w else StepRecordWritten(w, a)
    case Validate(a) => if a !in w.workers || !w.workers[a].pc.Validating? then w else StepValidate(w, accepts, a)
    case Promote(a) => if a !in w.workers || !w.workers[a].pc.Promoting? then w else StepPromote(w, a)
    case RecordPromoted(a) => if a !in w.workers || !w.workers[a].pc.Promoted? then w else StepRecordPromoted(w, a)
    case Verify(a) => if a !in w.workers || !w.workers[a].pc.Verifying? then w else StepVerify(w, a)
    case DoReject(a) => if a !in w.workers || !w.workers[a].pc.Rejecting? then w else StepReject(w, a)
    case CleanDelete(a) => if a !in w.workers || !w.workers[a].pc.Cleaning? then w else StepCleanDelete(w, a)
    case CleanRecord(a) => if a !in w.workers || !w.workers[a].pc.Cleaned? then w else StepCleanRecord(w, a)
    case Crash(a) => if a !in w.workers then w else Go(w, a, Stopped)
    case StartWorker(a, lease, todo) =>
      if a in w.workers || lease !in w.issued then w
      else w.(workers := w.workers[a := Worker(lease, todo, [], Reserving)])
    case _ => w
  }

  ghost function StepOther(w: World, op: Op): World {
    match op
    case StartLease(lease, required) =>
      if lease in w.issued then w
      else w.(db := w.db.(current := w.db.current + {lease}, required := w.db.required[lease := required]),
              issued := w.issued + {lease})
    case ExpireLease(lease) => w.(db := w.db.(current := w.db.current - {lease}))
    case Tick(seconds) => w.(db := w.db.(now := w.db.now + seconds))
    case TakeTerminal(s, id) => StepTakeTerminal(w, s, id)
    case TakeStale(s, id) => StepTakeStale(w, s, id)
    case TakeUnknown(s, id) => StepTakeUnknown(w, s, id)
    case SweepDelete(s) => StepSweepDelete(w, s)
    case SweepRecord(s) => StepSweepRecord(w, s)
    case _ => w
  }

  ghost function Step(w: World, accepts: Bytes -> bool, op: Op): World {
    if op.StartLease? || op.ExpireLease? || op.Tick? || op.TakeTerminal? || op.TakeStale? || op.TakeUnknown?
       || op.SweepDelete? || op.SweepRecord?
    then StepOther(w, op) else StepWorker(w, accepts, op)
  }

  ghost function After(w: World, accepts: Bytes -> bool, ops: seq<Op>): World
    decreases |ops|
  {
    if ops == [] then w else Step(After(w, accepts, ops[..|ops| - 1]), accepts, ops[|ops| - 1])
  }

  /** Nothing reserved yet; foreign objects may lie in the attempt store. */
  ghost predicate Initial(w: World) {
    && w.db.rows == map[] && w.db.current <= w.issued && w.attempts.Keys <= w.minted
    && w.workers == map[] && w.sweepers == map[]
  }
}
