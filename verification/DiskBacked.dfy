/** The L2 facade over the disk store: every put of the store is one of the calls the
    facade's results are proved for, so that fail-closed holds of the real store. */
module DiskBacked {
  import opened Common
  import opened CacheKeys
  import opened StagedPath
  import opened CacheHistory
  import opened CacheFailClosed
  import Disk = DiskStore
  import L2 = ConditionCache

  /** Both files of an entry are there. */
  predicate Held(s: Disk.Disk, d: Disk.Digest) {
    d in s.data && d in s.meta
  }

  /** `keys` are the keys ever in use, told apart by their digests. */
  datatype Naming = Naming(keys: set<ConditionKey>, digest: ConditionKey -> Disk.Digest)

  ghost predicate Injective(n: Naming) {
    forall a, b :: a in n.keys && b in n.keys && n.digest(a) == n.digest(b) ==> a == b
  }

  function Name(n: Naming, key: ConditionKey): Disk.EntryKey {
    Disk.EntryKey(n.digest(key), L2.Fingerprint(key))
  }

  function Resident(s: Disk.Disk, n: Naming): set<ConditionKey> {
    set key | key in n.keys && Held(s, n.digest(key))
  }

  function Reported(result: Disk.PutResult): L2.PutResult {
    match result
    case Stored => L2.Stored
    case Present => L2.Present
    case Conflict => L2.Conflict
    case Rejected => L2.Rejected
    case Fault => L2.Fault
    case Raised => L2.Fault
  }

  /** The put gets as far as publishing both files. */
  predicate Publishes(s: Disk.Disk, key: Disk.EntryKey, payload: Bytes, t: Disk.Clocks, p: Disk.Policy) {
    && payload != [] && |payload| <= p.maxEntryBytes && p.validBundle(payload) && !Disk.Fused(s, key.deployment)
    && var (s1, existing) := Disk.GetEntry(s, key, t.read, t.readTick, p);
       existing.None? && key.digest !in s1.data && key.digest !in s1.meta
  }

  /** What the facade sees of a put: whether the pair was placed, which pairs are gone
      afterwards, and the answer. */
  ghost function Seen(s: Disk.Disk, n: Naming, key: ConditionKey, payload: Bytes, t: Disk.Clocks, p: Disk.Policy,
                      statFails: bool, fuse: L2.FuseIo): L2.PutCall {
    var (s', result) := Disk.PutIfAbsent(s, Name(n, key), payload, t, p);
    var placed := Publishes(s, Name(n, key), payload, t, p);
    L2.PutCall(statFails, placed, (if placed then Resident(s, n) + {key} else Resident(s, n)) - Resident(s', n),
               result.Raised?, Reported(result), fuse)
  }

  lemma AnswerOfPublishing(s: Disk.Disk, key: Disk.EntryKey, payload: Bytes, t: Disk.Clocks, p: Disk.Policy)
    ensures var (s', result) := Disk.PutIfAbsent(s, key, payload, t, p);
            && (result.Stored? ==> Publishes(s, key, payload, t, p) && Held(s', key.digest))
            && (Publishes(s, key, payload, t, p) ==> result.Stored? || (result.Rejected? && !Held(s', key.digest)))
            && (result.Present? ==> !Publishes(s, key, payload, t, p))
  {
    var s1 := Disk.GetEntry(s, key, t.read, t.readTick, p).0;
    Disk.PollsWriteNothing(s1, key, payload, t.polls, p);
  }

  /** The store keeps its promise: "stored" leaves the pair in place, and "present" and
      "rejected" leave none of this call. */
  lemma DiskPutIsHonest(s: Disk.Disk, n: Naming, key: ConditionKey, payload: Bytes, t: Disk.Clocks, p: Disk.Policy,
                        statFails: bool, fuse: L2.FuseIo)
    requires key in n.keys
    ensures L2.Honest(Seen(s, n, key, payload, t, p, statFails, fuse), key)
  {
    AnswerOfPublishing(s, Name(n, key), payload, t, p);
  }

  /** A put replaces no pair that could be served. */
  lemma PublishingReplacesUnservable(s: Disk.Disk, key: Disk.EntryKey, payload: Bytes, t: Disk.Clocks, p: Disk.Policy)
    requires Publishes(s, key, payload, t, p)
    ensures !Disk.Servable(s, key, t.read, p)
  {
    Disk.GetServesExactly(s, key, t.read, t.readTick, p);
  }

  /** No other process publishes metadata while the put waits. */
  predicate Alone(t: Disk.Clocks) {
    forall k :: 0 <= k < |t.polls| ==> t.polls[k].arrived.None?
  }

  lemma {:induction false} PollsAddNothing(s: Disk.Disk, key: Disk.EntryKey, payload: Bytes, polls: seq<Disk.Poll>,
                                           p: Disk.Policy)
    requires forall k :: 0 <= k < |polls| ==> polls[k].arrived.None?
    ensures var s' := Disk.Polled(s, key, payload, polls, p).0;
            forall d :: Held(s', d) ==> Held(s, d) && s'.data[d] == s.data[d]
    decreases |polls|
  {
    if polls != [] {
      var (s1, read) := Disk.ReadEntry(Disk.Arrived(s, key.digest, polls[0]), key, polls[0].now, p);
      if read.Absent? {
        PollsAddNothing(s1, key, payload, polls[1..], p);
      }
    }
  }

  lemma GetAddsNothing(s: Disk.Disk, key: Disk.EntryKey, t: Disk.Clocks, p: Disk.Policy)
    ensures var s1 := Disk.GetEntry(s, key, t.read, t.readTick, p).0;
            forall d :: Held(s1, d) ==> Held(s, d) && s1.data[d] == s.data[d]
  {
  }

  lemma PublicationAdds(s: Disk.Disk, key: Disk.EntryKey, payload: Bytes, t: Disk.Clocks, p: Disk.Policy)
    ensures var s' := Disk.Publication(s, key, payload, t, p).0;
            forall d :: Held(s', d) ==>
              if d == key.digest && d !in s.meta then s'.data[d].content == payload
              else Held(s, d) && s'.data[d] == s.data[d]
  {
  }

  /** Left alone, a put adds at most its own pair. */
  lemma PutAdds(s: Disk.Disk, key: Disk.EntryKey, payload: Bytes, t: Disk.Clocks, p: Disk.Policy)
    requires Alone(t)
    ensures var s' := Disk.PutIfAbsent(s, key, payload, t, p).0;
            forall d :: Held(s', d) ==>
              if d == key.digest && Publishes(s, key, payload, t, p) then s'.data[d].content == payload
              else Held(s, d) && s'.data[d] == s.data[d]
  {
    var s1 := Disk.GetEntry(s, key, t.read, t.readTick, p).0;
    GetAddsNothing(s, key, t, p);
    PollsAddNothing(s1, key, payload, t.polls, p);
    PublicationAdds(s1, key, payload, t, p);
  }

  lemma ResidentAfter(s: Disk.Disk, n: Naming, key: ConditionKey, payload: Bytes, t: Disk.Clocks, p: Disk.Policy)
    requires Injective(n) && key in n.keys && Alone(t)
    ensures var s' := Disk.PutIfAbsent(s, Name(n, key), payload, t, p).0;
            var placed := Publishes(s, Name(n, key), payload, t, p);
            && Resident(s', n) <= (if placed then Resident(s, n) + {key} else Resident(s, n))
            && (forall k :: k in Resident(s', n) ==>
                  s'.data[n.digest(k)].content == if placed && k == key then payload else s.data[n.digest(k)].content)
  {
    var s' := Disk.PutIfAbsent(s, Name(n, key), payload, t, p).0;
    PutAdds(s, Name(n, key), payload, t, p);
    forall k | k in Resident(s', n) ensures k == key || n.digest(k) != n.digest(key) {
    }
  }

  /** The facade's store is the disk's complete pairs, with their payloads. */
  ghost predicate Mirrors(l2: L2.State, s: Disk.Disk, n: Naming) {
    && l2.store.Keys == Resident(s, n)
    && (forall key :: key in l2.store ==> l2.store[key].payload == s.data[n.digest(key)].content)
  }

  /** Refinement: the facade's put over the call it sees leaves exactly the pairs the disk
      store leaves. */
  lemma PutMirrors(l2: L2.State, s: Disk.Disk, n: Naming, key: ConditionKey, payload: Bytes, writer: Id, t: Disk.Clocks,
                   p: Disk.Policy, fuse: L2.FuseIo)
    requires Injective(n) && key in n.keys && Mirrors(l2, s, n) && Alone(t)
    requires !L2.Disabled(l2, L2.Fingerprint(key))
    ensures var call := Seen(s, n, key, payload, t, p, false, fuse);
            Mirrors(L2.SafePut(l2, key, payload, writer, call).0, Disk.PutIfAbsent(s, Name(n, key), payload, t, p).0, n)
  {
    ResidentAfter(s, n, key, payload, t, p);
  }

  /** A call to the disk store: one that raised, at whatever point, or one that answered. */
  ghost predicate FromDisk(call: L2.PutCall, key: ConditionKey) {
    call.raises || exists s, n: Naming, payload, t, p ::
      key in n.keys && call == Seen(s, n, key, payload, t, p, call.statFails, call.fuse)
  }

  ghost predicate DiskOp(w: World, op: Op) {
    op.CommitL2? && op.id in w.invs && w.invs[op.id].l2.Some? ==>
      forall j: nat :: j < |w.invs[op.id].l2.value.pending| ==> FromDisk(op.puts(j), w.invs[op.id].l2.value.pending[j].0)
  }

  ghost predicate DiskRun(w: World, b: Backend, p: Policy, ops: seq<Op>)
    decreases |ops|
  {
    ops == [] || (DiskRun(w, b, p, ops[..|ops| - 1]) && DiskOp(After(w, b, p, ops[..|ops| - 1]), ops[|ops| - 1]))
  }

  lemma FromDiskIsHonest(call: L2.PutCall, key: ConditionKey)
    requires FromDisk(call, key)
    ensures L2.Honest(call, key)
  {
    if !call.raises {
      var s, n: Naming, payload, t, p :| key in n.keys && call == Seen(s, n, key, payload, t, p, call.statFails, call.fuse);
      DiskPutIsHonest(s, n, key, payload, t, p, call.statFails, call.fuse);
    }
  }

  lemma {:induction false} DiskRunIsHonest(w: World, b: Backend, p: Policy, ops: seq<Op>)
    requires DiskRun(w, b, p, ops)
    ensures HonestRun(w, b, p, ops)
    decreases |ops|
  {
    if ops != [] {
      DiskRunIsHonest(w, b, p, ops[..|ops| - 1]);
      var before, op := After(w, b, p, ops[..|ops| - 1]), ops[|ops| - 1];
      if op.CommitL2? && op.id in before.invs && before.invs[op.id].l2.Some? {
        var pending := before.invs[op.id].l2.value.pending;
        forall j: nat | j < |pending| ensures L2.Honest(op.puts(j), pending[j].0) {
          FromDiskIsHonest(op.puts(j), pending[j].0);
        }
      }
    }
  }

  /** Fail closed over the disk store, with nothing assumed of its answers. */
  lemma DiskFailsClosed(w: World, b: Backend, p: Policy, ops: seq<Op>, key: ConditionKey)
    requires Initial(w) && DiskRun(w, b, p, ops)
    ensures var w' := After(w, b, p, ops);
            L2.Readable(w'.l2, key) ==>
              var writer := w'.l2.store[key].writer;
              || writer in w'.prior
              || (writer in w'.invs && key in NewlyStored(w'.invs[writer]) && !w'.invs[writer].phase.Failed?)
  {
    DiskRunIsHonest(w, b, p, ops);
    FailedInvocationsLeaveNothing(w, b, p, ops, key);
  }
}
