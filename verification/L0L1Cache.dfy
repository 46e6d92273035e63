/** The L0/L1 cache facade: generation fence, delayed writes, and a drift check at
    commit.  As for L2, the store's behaviour in each call is an explicit argument. */
module L0L1Cache {
  import opened Common
  import opened CacheKeys

  datatype Tier = L0Metadata | L1Preprocess
  datatype Slot = Slot(tier: Tier, key: CacheKey)

  /** L0 holds the key's canonical text, L1 an exported preprocess value. */
  datatype Content = Canonical(key: CacheKey) | Exported(bytes: Bytes)
  datatype Entry = Entry(content: Content, sealed: Content, generation: nat)

  datatype State = State(store: map<Slot, Entry>, generation: nat, globallyDisabled: bool, disabled: set<string>)

  function Fingerprint(slot: Slot): string {
    slot.key.deployment.fingerprint
  }

  predicate Disabled(s: State, fingerprint: string) {
    s.globallyDisabled || fingerprint in s.disabled
  }

  predicate Intact(e: Entry) {
    e.content == e.sealed
  }

  predicate Readable(s: State, slot: Slot) {
    slot in s.store && Intact(s.store[slot]) && !Disabled(s, Fingerprint(slot))
  }

  datatype GetCall = GetCall(raises: bool, drops: bool, deleteRaises: bool)
  datatype PutResult = Stored | Present | Rejected | Fault
  datatype PutCall = PutCall(placed: bool, evicted: set<Slot>, raises: bool, result: PutResult)

  /** `_read`: a fault or an absent entry is a miss, a broken one is deleted. */
  function Read(s: State, slot: Slot, expected: Option<Content>, call: GetCall): (State, Option<Content>) {
    if Disabled(s, Fingerprint(slot)) || call.raises || slot !in s.store then (s, None)
    else if call.drops then (s.(store := s.store - {slot}), None)
    else
      var e := s.store[slot];
      if !Intact(e) || (expected.Some? && e.content != expected.value) then
        (if call.deleteRaises then s else s.(store := s.store - {slot}), None)
      else (s, Some(e.content))
  }

  /** The reads of a new transaction: the state, the cached preprocess payload, and
      whether the L0 entry was hit. */
  function BeginReads(s: State, key: CacheKey, l0: GetCall, l1: GetCall): (State, Option<Bytes>, bool) {
    var (s1, metadata) := Read(s, Slot(L0Metadata, key), Some(Canonical(key)), l0);
    var (s2, payload) := Read(s1, Slot(L1Preprocess, key), None, l1);
    (s2, if payload.Some? && payload.value.Exported? then Some(payload.value.bytes) else None, metadata.Some?)
  }

  function SafePut(s: State, slot: Slot, content: Content, call: PutCall): (State, PutResult) {
    if Disabled(s, Fingerprint(slot)) then (s, Fault)
    else
      var placed := if call.placed then s.store[slot := Entry(content, content, s.generation)] else s.store;
      (s.(store := placed - call.evicted), if call.raises then Fault else call.result)
  }

  function Puts(s: State, pending: seq<(Slot, Content)>, calls: nat -> PutCall, k: nat): State
    decreases |pending|
  {
    if pending == [] then s
    else Puts(SafePut(s, pending[0].0, pending[0].1, calls(k)).0, pending[1..], calls, k + 1)
  }

  datatype CommitOutcome = Committed | Invalidated | Drifted

  /** `commit` of a keyed transaction.  `current` is the key derived now (None: it could
      not be derived).  A stale generation returns before the keys are compared. */
  function Commit(s: State, key: CacheKey, generation: nat, current: Option<CacheKey>,
                  pending: seq<(Slot, Content)>, calls: nat -> PutCall): (State, CommitOutcome) {
    if current.None? then (s, Drifted)
    else if generation != s.generation then (s, Invalidated)
    else if current != Some(key) then (s, Drifted)
    else (Puts(s, pending, calls, 0), Committed)
  }

  function OfDeployment(store: map<Slot, Entry>, fingerprint: string): set<Slot> {
    set slot | slot in store && Fingerprint(slot) == fingerprint
  }

  /** `removed` is what a raising store had already dropped. */
  function InvalidateDeployment(s: State, fingerprint: string, raises: bool, removed: set<Slot>): State {
    var s0 := s.(generation := s.generation + 1);
    if s.globallyDisabled then s0
    else if raises then s0.(store := s0.store - removed, disabled := s0.disabled + {fingerprint})
    else s0.(store := s0.store - OfDeployment(s0.store, fingerprint))
  }

  function InvalidateAll(s: State, raises: bool, removed: set<Slot>): State {
    var s0 := s.(generation := s.generation + 1);
    if s.globallyDisabled then s0
    else if raises then s0.(store := s0.store - removed, globallyDisabled := true)
    else s0.(store := map[])
  }

  function Close(s: State): State {
    s.(generation := s.generation + 1, globallyDisabled := true)
  }

  /** The drift check is skipped exactly when the generation is stale (and a key can
      still be derived): only then can a commit of drifted inputs end without raising. */
  lemma DriftGoesUnnoticedIffStale(s: State, key: CacheKey, generation: nat, current: Option<CacheKey>,
                                   pending: seq<(Slot, Content)>, calls: nat -> PutCall)
    requires current != Some(key)
    ensures Commit(s, key, generation, current, pending, calls).1 != Drifted
            <==> current.Some? && generation != s.generation
  {
  }

  /** A read is a hit exactly on a readable entry of the expected content, unless the store
      fails or has dropped it, and it returns that content. */
  lemma ReadServes(s: State, slot: Slot, expected: Option<Content>, call: GetCall)
    ensures var (s', content) := Read(s, slot, expected, call);
            && (content.Some? <==> Readable(s, slot) && !call.raises && !call.drops
                                   && (expected.Some? ==> s.store[slot].content == expected.value))
            && (content.Some? ==> content.value == s.store[slot].content && s' == s)
            && (forall other :: other in s.store && other != slot ==> other in s'.store && s'.store[other] == s.store[other])
  {
  }

  /** A put the store carries out is readable at once under the current generation, and
      touches only what the store evicts. */
  lemma PutServes(s: State, slot: Slot, content: Content, call: PutCall)
    requires !Disabled(s, Fingerprint(slot)) && call.placed && slot !in call.evicted
    ensures var s' := SafePut(s, slot, content, call).0;
            && Readable(s', slot) && s'.store[slot] == Entry(content, content, s.generation)
            && (forall other :: other in s.store && other != slot && other !in call.evicted ==>
                  other in s'.store && s'.store[other] == s.store[other])
  {
  }

  /** A raised or invalidated commit writes nothing. */
  lemma OnlyCurrentTransactionsWrite(s: State, key: CacheKey, generation: nat, current: Option<CacheKey>,
                                     pending: seq<(Slot, Content)>, calls: nat -> PutCall)
    ensures Commit(s, key, generation, current, pending, calls).0 != s ==> generation == s.generation && current == Some(key)
  {
  }

  /** `ControlFoleyL0L1Cache` over the store's entries. */
  class Facade {
    var store: map<Slot, Entry>
    var generation: nat
    var globallyDisabled: bool
    var disabled: set<string>

    ghost function Model(): State
      reads this
    {
      State(store, generation, globallyDisabled, disabled)
    }

    constructor ()
      ensures Model() == State(map[], 0, false, {})
    {
      store, generation, globallyDisabled, disabled := map[], 0, false, {};
    }

    method Put(slot: Slot, content: Content, call: PutCall) returns (result: PutResult)
      modifies this`store
      ensures (Model(), result) == SafePut(old(Model()), slot, content, call)
    {
      if globallyDisabled || Fingerprint(slot) in disabled {
        return Fault;
      }
      if call.placed {
        store := store[slot := Entry(content, content, generation)];
      }
      store := store - call.evicted;
      result := if call.raises then Fault else call.result;
    }

    method CommitTransaction(key: CacheKey, began: nat, current: Option<CacheKey>,
                             pending: seq<(Slot, Content)>, calls: nat -> PutCall)
      returns (outcome: CommitOutcome, writes: nat, faults: nat)
      modifies this`store
      ensures (Model(), outcome) == Commit(old(Model()), key, began, current, pending, calls)
      ensures outcome == Committed ==> writes + faults <= |pending|
    {
      writes, faults := 0, 0;
      if current.None? {
        return Drifted, 0, 0;
      }
      if began != generation {
        return Invalidated, 0, 0;
      }
      if current.value != key {
        return Drifted, 0, 0;
      }
      var k := 0;
      while k < |pending|
        invariant 0 <= k <= |pending| && writes + faults <= k
        invariant Puts(Model(), pending[k..], calls, k) == Puts(old(Model()), pending, calls, 0)
      {
        var result := Put(pending[k].0, pending[k].1, calls(k));
        match result {
          case Stored => writes := writes + 1;
          case Present =>
          case Rejected => faults := faults + 1;
          case Fault => faults := faults + 1;
        }
        k := k + 1;
      }
      outcome := Committed;
    }

    method Invalidate(fingerprint: string, raises: bool, removed: set<Slot>)
      modifies this
      ensures Model() == InvalidateDeployment(old(Model()), fingerprint, raises, removed)
    {
      generation := generation + 1;
      if globallyDisabled {
        return;
      }
      if raises {
        store := store - removed;
        disabled := disabled + {fingerprint};
      } else {
        store := store - OfDeployment(store, fingerprint);
      }
    }
  }
}
