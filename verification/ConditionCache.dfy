/** The L2 condition cache facade: fail-closed fuses, generation fence, delayed writes
    and rollback.  The store behind it may fail, drop entries or raise after having
    acted; each call's behaviour is an explicit argument, so that statements over all
    arguments are statements over all store behaviours. */
module ConditionCache {
  import opened Common
  import opened CacheKeys

  type TransactionId = nat

  /** `sealed` are the bytes the entry's recorded SHA-256 was computed from; `writer`
      and `generation` record which transaction wrote it, and when. */
  datatype Entry = Entry(payload: Bytes, sealed: Bytes, writer: TransactionId, generation: nat)

  predicate Intact(e: Entry) {
    e.payload == e.sealed
  }

  /** The facade's fields, the store's readable entries and the durable fuse files. */
  datatype State = State(
    store: map<ConditionKey, Entry>,
    generation: nat,
    globallyDisabled: bool,
    disabled: set<string>,
    globalFuse: bool,
    fuses: set<string>)

  function Fingerprint(key: ConditionKey): string {
    key.parent.deployment.fingerprint
  }

  predicate Disabled(s: State, fingerprint: string) {
    s.globallyDisabled || fingerprint in s.disabled || s.globalFuse || fingerprint in s.fuses
  }

  /** A later `begin` can be served from this entry. */
  predicate Readable(s: State, key: ConditionKey) {
    key in s.store && Intact(s.store[key]) && !Disabled(s, Fingerprint(key))
  }

  /** Writing a fuse file: its creation alone arms the fuse. */
  datatype FuseWrite = Written | CreatedThenFailed | NotCreated
  datatype FuseIo = FuseIo(deployment: FuseWrite, global: FuseWrite)

  datatype PutResult = Stored | Present | Conflict | Rejected | Fault

  /** One `put_if_absent` of the store: whether the entry was placed, which entries
      were evicted, and what came back. */
  datatype PutCall = PutCall(statFails: bool, placed: bool, evicted: set<ConditionKey>, raises: bool,
                             result: PutResult, fuse: FuseIo)
  datatype GetCall = GetCall(statFails: bool, raises: bool, drops: bool)
  datatype DeleteCall = DeleteCall(statFails: bool, raises: bool, removed: bool, fuse: FuseIo)

  /** The store's own promise: "stored" means resident, and any other result that does
      not make the facade fuse means the call left no entry of its own behind. */
  predicate Honest(call: PutCall, key: ConditionKey) {
    && (!call.raises && call.result == Stored ==> call.placed && key !in call.evicted)
    && (!call.raises && call.result in {Present, Rejected} ==> !call.placed || key in call.evicted)
  }

  function CheckDisabled(s: State, fingerprint: string, statFails: bool): (bool, State) {
    if s.globallyDisabled || fingerprint in s.disabled then (true, s)
    else if statFails then (true, s.(globallyDisabled := true))
    else (s.globalFuse || fingerprint in s.fuses, s)
  }

  function FuseAll(s: State, write: FuseWrite): State {
    s.(globallyDisabled := true, globalFuse := s.globalFuse || write != NotCreated)
  }

  function FuseDeployment(s: State, fingerprint: string, io: FuseIo): State {
    var s1 := s.(disabled := s.disabled + {fingerprint},
                 fuses := if io.deployment == NotCreated then s.fuses else s.fuses + {fingerprint});
    if io.deployment == Written then s1 else FuseAll(s1, io.global)
  }

  function SafePut(s: State, key: ConditionKey, payload: Bytes, writer: TransactionId, call: PutCall): (State, PutResult) {
    var (off, s0) := CheckDisabled(s, Fingerprint(key), call.statFails);
    if off then (s0, Fault)
    else
      var placed := if call.placed then s0.store[key := Entry(payload, payload, writer, s0.generation)] else s0.store;
      var s1 := s0.(store := placed - call.evicted);
      if call.raises || call.result == Fault then (FuseDeployment(s1, Fingerprint(key), call.fuse), Fault)
      else if call.result == Conflict then (FuseDeployment(s1, Fingerprint(key), call.fuse), Conflict)
      else (s1, call.result)
  }

  function SafeDelete(s: State, key: ConditionKey, call: DeleteCall): State {
    var (off, s0) := CheckDisabled(s, Fingerprint(key), call.statFails);
    if off then s0
    else if !call.raises then s0.(store := s0.store - {key})
    else FuseDeployment(if call.removed then s0.(store := s0.store - {key}) else s0, Fingerprint(key), call.fuse)
  }

  /** A transaction's read of one role; a broken entry is quarantined. */
  function Read(s: State, key: ConditionKey, call: GetCall): (State, Option<Bytes>) {
    var (off, s0) := CheckDisabled(s, Fingerprint(key), call.statFails);
    if off || call.raises || key !in s0.store then (s0, None)
    else if call.drops || !Intact(s0.store[key]) then (s0.(store := s0.store - {key}), None)
    else (s0, Some(s0.store[key].payload))
  }

  function ReadRoles(s: State, parent: CacheKey, roles: seq<FeatureRole>, p: Policy, calls: nat -> GetCall)
    : (State, map<FeatureRole, Bytes>)
  {
    if roles == [] then (s, map[])
    else
      var n := |roles| - 1;
      var (s1, payloads) := ReadRoles(s, parent, roles[..n], p, calls);
      var (s2, payload) := Read(s1, KeyForParent(parent, roles[n], p), calls(n));
      (s2, if payload.Some? then payloads[roles[n] := payload.value] else payloads)
  }

  /** The put loop of a commit from pending item `pending[0]` on: `cancelled(k)` is the
      cancellation check before item k (and, after the last item, the final one).
      Returns the keys newly stored and whether a check raised. */
  function CommitPuts(s: State, writer: TransactionId, stored: seq<ConditionKey>, pending: seq<(ConditionKey, Bytes)>,
                      calls: nat -> PutCall, cancelled: nat -> bool, k: nat): (State, seq<ConditionKey>, bool)
    decreases |pending|
  {
    if cancelled(k) then (s, stored, true)
    else if pending == [] then (s, stored, false)
    else
      var (s1, result) := SafePut(s, pending[0].0, pending[0].1, writer, calls(k));
      CommitPuts(s1, writer, if result == Stored then stored + [pending[0].0] else stored,
                 pending[1..], calls, cancelled, k + 1)
  }

  /** `rollback_new_writes`: the newest key first. */
  function Rollback(s: State, keys: seq<ConditionKey>, calls: nat -> DeleteCall): State
    decreases |keys|
  {
    if keys == [] then s
    else
      var n := |keys| - 1;
      Rollback(SafeDelete(s, keys[n], calls(n)), keys[..n], calls)
  }

  datatype CommitOutcome = Committed | Raised

  /** The part of a commit that runs under the facade lock once generation and key
      matched.  `revalidated` says whether the keys still agree after persisting. */
  function CommitWrites(s: State, writer: TransactionId, pending: seq<(ConditionKey, Bytes)>, calls: nat -> PutCall,
                        cancelled: nat -> bool, revalidated: bool, deletes: nat -> DeleteCall)
    : (State, seq<ConditionKey>, CommitOutcome)
  {
    var (s1, stored, raised) := CommitPuts(s, writer, [], pending, calls, cancelled, 0);
    if raised || !revalidated then (Rollback(s1, stored, deletes), [], Raised)
    else (s1, stored, Committed)
  }

  /** Invalidation: `raises` with `removed` is a store that failed part way, having
      perhaps cleared the durable fuse already; `clearFails` is the facade's own clear. */
  datatype InvalidateCall = InvalidateCall(raises: bool, removed: set<ConditionKey>, fuseCleared: bool,
                                           clearFails: bool, fuse: FuseIo)

  function OfDeployment(store: map<ConditionKey, Entry>, fingerprint: string): set<ConditionKey> {
    set key | key in store && Fingerprint(key) == fingerprint
  }

  function InvalidateDeployment(s: State, fingerprint: string, call: InvalidateCall): State {
    var s0 := s.(generation := s.generation + 1);
    if call.raises then
      var s1 := s0.(store := s0.store - call.removed,
                    fuses := if call.fuseCleared then s0.fuses - {fingerprint} else s0.fuses);
      FuseDeployment(s1, fingerprint, call.fuse)
    else
      var s1 := s0.(store := s0.store - OfDeployment(s0.store, fingerprint), fuses := s0.fuses - {fingerprint});
      if call.clearFails then FuseDeployment(s1, fingerprint, call.fuse)
      else s1.(disabled := s1.disabled - {fingerprint})
  }

  /** `cleared` are the fuse files already gone when `invalidate_all` failed. */
  function InvalidateAll(s: State, call: InvalidateCall, cleared: set<string>): State {
    var s0 := s.(generation := s.generation + 1);
    if call.raises then
      FuseAll(s0.(store := s0.store - call.removed, fuses := s0.fuses - cleared,
                  globalFuse := s0.globalFuse && !call.fuseCleared), call.fuse.global)
    else
      var s1 := s0.(store := map[], fuses := {}, globalFuse := false);
      if call.clearFails then FuseAll(s1, call.fuse.global)
      else s1.(globallyDisabled := false, disabled := {})
  }

  /** Session unload: cleanup may expire entries; if it raises, the deployment fuses. */
  function Release(s: State, fingerprint: string, raises: bool, removed: set<ConditionKey>, fuse: FuseIo): State {
    if s.globallyDisabled then s
    else
      var s1 := s.(store := s.store - removed);
      if raises then FuseDeployment(s1.(generation := s1.generation + 1), fingerprint, fuse) else s1
  }

  /** `raises` is the store's own close. */
  function Close(s: State, raises: bool, write: FuseWrite): State {
    var s1 := s.(generation := s.generation + 1, globallyDisabled := true);
    if raises then FuseAll(s1, write) else s1
  }

  /** A new process over the same directory: what it finds counts as older than anything it
      writes itself. */
  function Restart(s: State): State {
    State(Inherited(s.store), 0, s.globalFuse, {}, s.globalFuse, s.fuses)
  }

  function Inherited(store: map<ConditionKey, Entry>): map<ConditionKey, Entry> {
    map key | key in store :: store[key].(generation := 0)
  }

  /** Kept from being served by a fuse file. */
  predicate Fused(s: State, fingerprint: string) {
    s.globalFuse || fingerprint in s.fuses
  }

  // ---------------------------------------------------------------- fail closed

  /** No entry of `writer` can ever be served. */
  ghost predicate Withdrawn(s: State, writer: TransactionId, except: set<ConditionKey>) {
    forall key :: key in s.store && s.store[key].writer == writer && key !in except ==> Disabled(s, Fingerprint(key))
  }

  lemma PutWithdraws(s: State, key: ConditionKey, payload: Bytes, writer: TransactionId, call: PutCall, except: set<ConditionKey>)
    requires Honest(call, key)
    requires Withdrawn(s, writer, except)
    ensures var (s', result) := SafePut(s, key, payload, writer, call);
            Withdrawn(s', writer, if result == Stored then except + {key} else except)
  {
  }

  lemma DeleteWithdraws(s: State, key: ConditionKey, writer: TransactionId, call: DeleteCall, except: set<ConditionKey>)
    requires Withdrawn(s, writer, except + {key})
    ensures Withdrawn(SafeDelete(s, key, call), writer, except)
  {
  }

  ghost function Keys(keys: seq<ConditionKey>): set<ConditionKey> {
    set k | k in keys
  }

  lemma CommitPutsWithdraw(s: State, writer: TransactionId, stored: seq<ConditionKey>, pending: seq<(ConditionKey, Bytes)>,
                           calls: nat -> PutCall, cancelled: nat -> bool, k: nat)
    requires forall j: nat :: j < |pending| ==> Honest(calls(k + j), pending[j].0)
    requires Withdrawn(s, writer, Keys(stored))
    ensures var (s', stored', raised) := CommitPuts(s, writer, stored, pending, calls, cancelled, k);
            Withdrawn(s', writer, Keys(stored'))
    decreases |pending|
  {
    if !cancelled(k) && pending != [] {
      assert Honest(calls(k + 0), pending[0].0);
      PutWithdraws(s, pending[0].0, pending[0].1, writer, calls(k), Keys(stored));
      var (s1, result) := SafePut(s, pending[0].0, pending[0].1, writer, calls(k));
      var stored1 := if result == Stored then stored + [pending[0].0] else stored;
      assert result == Stored ==> Keys(stored1) == Keys(stored) + {pending[0].0};
      forall j: nat | j < |pending[1..]| ensures Honest(calls(k + 1 + j), pending[1..][j].0) {
        assert Honest(calls(k + (j + 1)), pending[j + 1].0);
      }
      CommitPutsWithdraw(s1, writer, stored1, pending[1..], calls, cancelled, k + 1);
    }
  }

  lemma RollbackWithdraws(s: State, keys: seq<ConditionKey>, writer: TransactionId, calls: nat -> DeleteCall)
    requires Withdrawn(s, writer, Keys(keys))
    ensures Withdrawn(Rollback(s, keys, calls), writer, {})
    decreases |keys|
  {
    if keys != [] {
      var n := |keys| - 1;
      assert keys == keys[..n] + [keys[n]];
      assert Keys(keys) == Keys(keys[..n]) + {keys[n]};
      DeleteWithdraws(s, keys[n], writer, calls(n), Keys(keys[..n]));
      RollbackWithdraws(SafeDelete(s, keys[n], calls(n)), keys[..n], writer, calls);
    }
  }

  /** Fail closed: a commit that raises, at whichever check, put or revalidation and
      however the store and the fuses misbehave, leaves no entry of its own readable;
      a commit that succeeds leaves readable only the keys it reports as newly stored. */
  lemma CommitFailsClosed(s: State, writer: TransactionId, pending: seq<(ConditionKey, Bytes)>, calls: nat -> PutCall,
                          cancelled: nat -> bool, revalidated: bool, deletes: nat -> DeleteCall)
    requires forall j: nat :: j < |pending| ==> Honest(calls(j), pending[j].0)
    requires Withdrawn(s, writer, {})
    ensures var (s', stored, outcome) := CommitWrites(s, writer, pending, calls, cancelled, revalidated, deletes);
            && Withdrawn(s', writer, Keys(stored))
            && (outcome == Raised ==> stored == [])
  {
    var (s1, stored, raised) := CommitPuts(s, writer, [], pending, calls, cancelled, 0);
    assert Keys([]) == {};
    forall j: nat | j < |pending| ensures Honest(calls(0 + j), pending[j].0) {
      assert Honest(calls(j), pending[j].0);
    }
    CommitPutsWithdraw(s, writer, [], pending, calls, cancelled, 0);
    RollbackWithdraws(s1, stored, writer, deletes);
  }

  // ------------------------------------------------------ what a commit reports

  /** The state before the put of item j, counting from the first. */
  function BeforePut(s: State, writer: TransactionId, pending: seq<(ConditionKey, Bytes)>, calls: nat -> PutCall, j: nat): State
    requires j <= |pending|
    decreases j
  {
    if j == 0 then s else SafePut(BeforePut(s, writer, pending, calls, j - 1), pending[j - 1].0, pending[j - 1].1, writer, calls(j - 1)).0
  }

  /** What the put of item j answered. */
  function Answer(s: State, writer: TransactionId, pending: seq<(ConditionKey, Bytes)>, calls: nat -> PutCall, j: nat): PutResult
    requires j < |pending|
  {
    SafePut(BeforePut(s, writer, pending, calls, j), pending[j].0, pending[j].1, writer, calls(j)).1
  }

  /** The number of puts made: up to the first cancellation check that raises. */
  function Made(cancelled: nat -> bool, k: nat, items: nat): (n: nat)
    ensures k <= n <= k + items
    ensures forall j :: k <= j < n ==> !cancelled(j)
    ensures cancelled(n) || n == k + items
    decreases items
  {
    if cancelled(k) || items == 0 then k else Made(cancelled, k + 1, items - 1)
  }

  /** The items of `pending` from k on whose put, of those made, answered "stored". */
  function StoredFrom(s: State, writer: TransactionId, pending: seq<(ConditionKey, Bytes)>, calls: nat -> PutCall, k: nat, made: nat)
    : seq<ConditionKey>
    requires k <= made <= |pending|
    decreases made - k
  {
    if k == made then []
    else (if Answer(s, writer, pending, calls, k) == Stored then [pending[k].0] else [])
         + StoredFrom(s, writer, pending, calls, k + 1, made)
  }

  lemma {:induction false} StoredFromMember(s: State, writer: TransactionId, pending: seq<(ConditionKey, Bytes)>,
                                            calls: nat -> PutCall, k: nat, made: nat, key: ConditionKey)
    requires k <= made <= |pending|
    ensures key in StoredFrom(s, writer, pending, calls, k, made) <==>
              exists j :: k <= j < made && pending[j].0 == key && Answer(s, writer, pending, calls, j) == Stored
    decreases made - k
  {
    if k < made {
      StoredFromMember(s, writer, pending, calls, k + 1, made, key);
    }
  }

  /** One turn of the put loop. */
  lemma CommitPutsTurn(s: State, writer: TransactionId, stored: seq<ConditionKey>, pending: seq<(ConditionKey, Bytes)>,
                       calls: nat -> PutCall, cancelled: nat -> bool, k: nat)
    requires k < |pending| && !cancelled(k)
    ensures var more := if Answer(s, writer, pending, calls, k) == Stored then [pending[k].0] else [];
            CommitPuts(BeforePut(s, writer, pending, calls, k), writer, stored, pending[k..], calls, cancelled, k)
            == CommitPuts(BeforePut(s, writer, pending, calls, k + 1), writer, stored + more, pending[k + 1..], calls, cancelled, k + 1)
  {
    assert pending[k..][1..] == pending[k + 1..];
    assert stored + [] == stored;
  }

  lemma CommitPutsStops(s: State, writer: TransactionId, stored: seq<ConditionKey>, pending: seq<(ConditionKey, Bytes)>,
                        calls: nat -> PutCall, cancelled: nat -> bool, k: nat)
    requires k <= |pending| && (cancelled(k) || k == |pending|)
    ensures CommitPuts(BeforePut(s, writer, pending, calls, k), writer, stored, pending[k..], calls, cancelled, k)
            == (BeforePut(s, writer, pending, calls, k), stored + StoredFrom(s, writer, pending, calls, k, k), cancelled(k))
  {
    assert stored + [] == stored;
  }

  lemma Regrouped(a: seq<ConditionKey>, b: seq<ConditionKey>, c: seq<ConditionKey>)
    ensures a + b + c == a + (b + c)
  {
  }

  /** The put loop from item k on, in terms of the answers of its puts. */
  lemma {:induction false} CommitPutsAnswers(s: State, writer: TransactionId, stored: seq<ConditionKey>,
                                             pending: seq<(ConditionKey, Bytes)>, calls: nat -> PutCall, cancelled: nat -> bool,
                                             k: nat, made: nat)
    requires k <= |pending| && made == Made(cancelled, k, |pending| - k)
    ensures CommitPuts(BeforePut(s, writer, pending, calls, k), writer, stored, pending[k..], calls, cancelled, k)
            == (BeforePut(s, writer, pending, calls, made), stored + StoredFrom(s, writer, pending, calls, k, made), cancelled(made))
    decreases |pending| - k
  {
    if !cancelled(k) && k < |pending| {
      var more := if Answer(s, writer, pending, calls, k) == Stored then [pending[k].0] else [];
      CommitPutsTurn(s, writer, stored, pending, calls, cancelled, k);
      CommitPutsAnswers(s, writer, stored + more, pending, calls, cancelled, k + 1, made);
      Regrouped(stored, more, StoredFrom(s, writer, pending, calls, k + 1, made));
    } else {
      CommitPutsStops(s, writer, stored, pending, calls, cancelled, k);
    }
  }

  lemma CommitWritesAnswers(s: State, writer: TransactionId, pending: seq<(ConditionKey, Bytes)>, calls: nat -> PutCall,
                            cancelled: nat -> bool, revalidated: bool, deletes: nat -> DeleteCall)
    ensures var made := Made(cancelled, 0, |pending|);
            var stored := StoredFrom(s, writer, pending, calls, 0, made);
            var puts := BeforePut(s, writer, pending, calls, made);
            CommitWrites(s, writer, pending, calls, cancelled, revalidated, deletes)
            == if cancelled(made) || !revalidated then (Rollback(puts, stored, deletes), [], Raised) else (puts, stored, Committed)
  {
    var made := Made(cancelled, 0, |pending|);
    CommitPutsAnswers(s, writer, [], pending, calls, cancelled, 0, made);
    assert pending[0..] == pending;
    assert [] + StoredFrom(s, writer, pending, calls, 0, made) == StoredFrom(s, writer, pending, calls, 0, made);
  }

  /** A commit that succeeds has made every put, and reports a key exactly when that key's
      own put answered "stored"; "present" claims nothing.  Over an honest store the put
      left the entry resident, with its payload, under this transaction. */
  lemma CommitReportsStored(s: State, writer: TransactionId, pending: seq<(ConditionKey, Bytes)>, calls: nat -> PutCall,
                            cancelled: nat -> bool, revalidated: bool, deletes: nat -> DeleteCall, key: ConditionKey)
    ensures var (s', reported, outcome) := CommitWrites(s, writer, pending, calls, cancelled, revalidated, deletes);
            && (outcome == Committed <==> revalidated && forall k :: 0 <= k <= |pending| ==> !cancelled(k))
            && (outcome == Committed ==> s' == BeforePut(s, writer, pending, calls, |pending|))
            && (outcome == Committed ==>
                  (key in reported <==>
                     exists j :: 0 <= j < |pending| && pending[j].0 == key && Answer(s, writer, pending, calls, j) == Stored))
  {
    CommitWritesAnswers(s, writer, pending, calls, cancelled, revalidated, deletes);
    var made := Made(cancelled, 0, |pending|);
    if made == |pending| {
      StoredFromMember(s, writer, pending, calls, 0, made, key);
    }
  }

  lemma StoredLeavesEntry(s: State, writer: TransactionId, pending: seq<(ConditionKey, Bytes)>, calls: nat -> PutCall, j: nat)
    requires j < |pending| && Honest(calls(j), pending[j].0) && Answer(s, writer, pending, calls, j) == Stored
    ensures var after := BeforePut(s, writer, pending, calls, j + 1);
            && pending[j].0 in after.store
            && after.store[pending[j].0] == Entry(pending[j].1, pending[j].1, writer, after.generation)
  {
  }

  /** No put made has placed or evicted the key. */
  ghost predicate Untouched(pending: seq<(ConditionKey, Bytes)>, calls: nat -> PutCall, made: nat, key: ConditionKey)
    requires made <= |pending|
  {
    forall j :: 0 <= j < made ==> key !in calls(j).evicted && !(calls(j).placed && pending[j].0 == key)
  }

  lemma {:induction false} PutsKeepUntouched(s: State, writer: TransactionId, pending: seq<(ConditionKey, Bytes)>,
                                             calls: nat -> PutCall, made: nat, key: ConditionKey)
    requires made <= |pending| && key in s.store && Untouched(pending, calls, made, key)
    ensures var s' := BeforePut(s, writer, pending, calls, made); key in s'.store && s'.store[key] == s.store[key]
    decreases made
  {
    if made > 0 {
      PutsKeepUntouched(s, writer, pending, calls, made - 1, key);
    }
  }

  lemma {:induction false} RollbackKeepsUnlisted(s: State, keys: seq<ConditionKey>, calls: nat -> DeleteCall, key: ConditionKey)
    requires key in s.store && key !in keys
    ensures var s' := Rollback(s, keys, calls); key in s'.store && s'.store[key] == s.store[key]
    decreases |keys|
  {
    if keys != [] {
      var n := |keys| - 1;
      RollbackKeepsUnlisted(SafeDelete(s, keys[n], calls(n)), keys[..n], calls, key);
    }
  }

  lemma UntouchedIsNotStored(s: State, writer: TransactionId, pending: seq<(ConditionKey, Bytes)>, calls: nat -> PutCall,
                             made: nat, key: ConditionKey)
    requires made <= |pending| && Untouched(pending, calls, made, key)
    requires forall j: nat :: j < |pending| ==> Honest(calls(j), pending[j].0)
    ensures key !in StoredFrom(s, writer, pending, calls, 0, made)
  {
    StoredFromMember(s, writer, pending, calls, 0, made, key);
    forall j | 0 <= j < made && pending[j].0 == key ensures Answer(s, writer, pending, calls, j) != Stored {
      assert Honest(calls(j), pending[j].0);
    }
  }

  /** A commit, raised or not, over an honest store leaves every resident entry, whoever
      wrote it, that none of its puts placed anew or evicted; its rollback takes back only
      what its own puts stored. */
  lemma CommitSparesOthers(s: State, writer: TransactionId, pending: seq<(ConditionKey, Bytes)>, calls: nat -> PutCall,
                           cancelled: nat -> bool, revalidated: bool, deletes: nat -> DeleteCall, key: ConditionKey)
    requires forall j: nat :: j < |pending| ==> Honest(calls(j), pending[j].0)
    requires key in s.store && Untouched(pending, calls, Made(cancelled, 0, |pending|), key)
    ensures var s' := CommitWrites(s, writer, pending, calls, cancelled, revalidated, deletes).0;
            key in s'.store && s'.store[key] == s.store[key]
  {
    CommitWritesAnswers(s, writer, pending, calls, cancelled, revalidated, deletes);
    var made := Made(cancelled, 0, |pending|);
    var stored := StoredFrom(s, writer, pending, calls, 0, made);
    PutsKeepUntouched(s, writer, pending, calls, made, key);
    UntouchedIsNotStored(s, writer, pending, calls, made, key);
    RollbackKeepsUnlisted(BeforePut(s, writer, pending, calls, made), stored, deletes, key);
  }

  /** A transaction's read is a hit exactly when the entry is readable and neither the check
      nor the store fails, and then it is the entry's payload. */
  lemma ReadServes(s: State, key: ConditionKey, call: GetCall)
    ensures var (s', payload) := Read(s, key, call);
            && (payload.Some? <==> Readable(s, key) && !(call.statFails || call.raises || call.drops))
            && (payload.Some? ==> payload.value == s.store[key].payload && s' == s)
  {
  }

  /** While the fuse checks succeed, each role of a new transaction is a hit exactly when its
      own entry was readable and its own read does not fail; other roles do not matter. */
  lemma {:induction false} RolesServe(s: State, parent: CacheKey, roles: seq<FeatureRole>, p: Policy, calls: nat -> GetCall)
    requires forall i, j :: 0 <= i < j < |roles| ==> roles[i] != roles[j]
    requires forall k: nat :: !calls(k).statFails
    ensures var (s', payloads) := ReadRoles(s, parent, roles, p, calls);
            && (forall role :: role in payloads ==> role in roles)
            && (forall k :: 0 <= k < |roles| ==>
                  var key := KeyForParent(parent, roles[k], p);
                  && (roles[k] in payloads <==> Readable(s, key) && !calls(k).raises && !calls(k).drops)
                  && (roles[k] in payloads ==> payloads[roles[k]] == s.store[key].payload))
            && (forall key :: (forall k :: 0 <= k < |roles| ==> key != KeyForParent(parent, roles[k], p)) ==>
                  (key in s'.store <==> key in s.store) && (key in s.store ==> s'.store[key] == s.store[key]))
            && (forall fp :: Disabled(s', fp) <==> Disabled(s, fp))
  {
    if roles != [] {
      var n := |roles| - 1;
      RolesServe(s, parent, roles[..n], p, calls);
      var s1 := ReadRoles(s, parent, roles[..n], p, calls).0;
      var key := KeyForParent(parent, roles[n], p);
      forall k | 0 <= k < n ensures key != KeyForParent(parent, roles[..n][k], p) {
        assert roles[..n][k] == roles[k] && roles[k] != roles[n];
      }
      assert !calls(n).statFails;
      ReadServes(s1, key, calls(n));
    }
  }

  /** Of the put's answers, a conflict and anything uncertain disable the deployment; the
      others leave the flags and fuses as they are. */
  lemma PutFuses(s: State, key: ConditionKey, payload: Bytes, writer: TransactionId, call: PutCall)
    requires !Disabled(s, Fingerprint(key)) && !call.statFails
    ensures var (s', result) := SafePut(s, key, payload, writer, call);
            && result == (if call.raises then Fault else call.result)
            && (Disabled(s', Fingerprint(key)) <==> result == Fault || result == Conflict)
            && (result != Fault && result != Conflict ==> s' == s.(store := s'.store))
  {
  }

  // ------------------------------------------------- only invalidation re-enables

  /** A disabled deployment is enabled again only by an invalidation that emptied it. */
  lemma InvalidationReenablesEmpty(s: State, fingerprint: string, call: InvalidateCall, cleared: set<string>, fp: string)
    requires Disabled(s, fp)
    ensures !Disabled(InvalidateDeployment(s, fingerprint, call), fp) ==>
              OfDeployment(InvalidateDeployment(s, fingerprint, call).store, fp) == {}
    ensures !Disabled(InvalidateAll(s, call, cleared), fp) ==> InvalidateAll(s, call, cleared).store == map[]
  {
  }

  /** The invalidation fence for one call: whatever the store did, no entry of an
      affected deployment that was resident before the call is readable after it. */
  lemma InvalidationFences(s: State, fingerprint: string, call: InvalidateCall, cleared: set<string>, key: ConditionKey)
    ensures Fingerprint(key) == fingerprint ==> !Readable(InvalidateDeployment(s, fingerprint, call), key)
    ensures !Readable(InvalidateAll(s, call, cleared), key)
  {
  }

  /** Across a restart the in-memory flags are gone.  A deployment disabled in this
      process stays disabled in the next one exactly when a fuse file covers it. */
  lemma RestartKeepsDisabledIffFused(s: State, fp: string)
    ensures Disabled(Restart(s), fp) <==> Fused(s, fp)
  {
  }

  /** After a fuse attempt, that is: unless both fuse files could not even be created. */
  lemma FuseSurvivesRestart(s: State, fp: string, io: FuseIo)
    requires !s.globalFuse && fp !in s.fuses
    ensures Disabled(FuseDeployment(s, fp, io), fp)
    ensures Disabled(Restart(FuseDeployment(s, fp, io)), fp) <==>
              !(io.deployment == NotCreated && io.global == NotCreated)
  {
  }

  // ------------------------------------------------------- the facade as a class

  /** `ControlFoleyConditionCache` with its resident entries and fuse files. */
  class Facade {
    const policy: Policy
    var store: map<ConditionKey, Entry>
    var generation: nat
    var globallyDisabled: bool
    var disabled: set<string>
    var globalFuse: bool
    var fuses: set<string>

    ghost function Model(): State
      reads this
    {
      State(store, generation, globallyDisabled, disabled, globalFuse, fuses)
    }

    constructor (policy: Policy, resident: map<ConditionKey, Entry>, globalFuse: bool, fuses: set<string>)
      ensures Model() == Restart(State(resident, 0, false, {}, globalFuse, fuses))
      ensures this.policy == policy
    {
      this.policy := policy;
      store, generation, disabled := Inherited(resident), 0, {};
      globallyDisabled, this.globalFuse, this.fuses := globalFuse, globalFuse, fuses;
    }

    method IsDisabled(fingerprint: string, statFails: bool) returns (off: bool)
      modifies this`globallyDisabled
      ensures (off, Model()) == CheckDisabled(old(Model()), fingerprint, statFails)
    {
      if globallyDisabled || fingerprint in disabled {
        return true;
      }
      if statFails {
        globallyDisabled := true;
        return true;
      }
      off := globalFuse || fingerprint in fuses;
    }

    method Fuse(fingerprint: string, io: FuseIo)
      modifies this`disabled, this`fuses, this`globallyDisabled, this`globalFuse
      ensures Model() == FuseDeployment(old(Model()), fingerprint, io)
    {
      disabled := disabled + {fingerprint};
      if io.deployment != NotCreated {
        fuses := fuses + {fingerprint};
      }
      if io.deployment != Written {
        globallyDisabled := true;
        if io.global != NotCreated {
          globalFuse := true;
        }
      }
    }

    method Put(key: ConditionKey, payload: Bytes, writer: TransactionId, call: PutCall) returns (result: PutResult)
      modifies this
      ensures (Model(), result) == SafePut(old(Model()), key, payload, writer, call)
    {
      var off := IsDisabled(Fingerprint(key), call.statFails);
      if off {
        return Fault;
      }
      if call.placed {
        store := store[key := Entry(payload, payload, writer, generation)];
      }
      store := store - call.evicted;
      if call.raises || call.result == Fault {
        Fuse(Fingerprint(key), call.fuse);
        return Fault;
      }
      if call.result == Conflict {
        Fuse(Fingerprint(key), call.fuse);
      }
      result := call.result;
    }

    method Delete(key: ConditionKey, call: DeleteCall) returns (deleted: bool)
      modifies this
      ensures Model() == SafeDelete(old(Model()), key, call)
      ensures deleted ==> key !in store
    {
      var off := IsDisabled(Fingerprint(key), call.statFails);
      if off {
        return false;
      }
      if !call.raises || call.removed {
        store := store - {key};
      }
      if call.raises {
        Fuse(Fingerprint(key), call.fuse);
      }
      deleted := !call.raises;
    }

    method Invalidate(fingerprint: string, call: InvalidateCall)
      modifies this
      ensures Model() == InvalidateDeployment(old(Model()), fingerprint, call)
    {
      generation := generation + 1;
      if call.raises {
        store := store - call.removed;
        if call.fuseCleared {
          fuses := fuses - {fingerprint};
        }
        Fuse(fingerprint, call.fuse);
        return;
      }
      store := store - OfDeployment(store, fingerprint);
      fuses := fuses - {fingerprint};
      if call.clearFails {
        Fuse(fingerprint, call.fuse);
      } else {
        disabled := disabled - {fingerprint};
      }
    }
  }

  /** The write side of `ControlFoleyConditionCacheTransaction`. */
  class Transaction {
    const id: TransactionId
    const cache: Facade
    var pending: seq<(ConditionKey, Bytes)>
    var newlyStored: seq<ConditionKey>
    var complete: bool

    constructor (id: TransactionId, cache: Facade)
      ensures this.id == id && this.cache == cache && pending == [] && newlyStored == [] && !complete
    {
      this.id, this.cache := id, cache;
      pending, newlyStored, complete := [], [], false;
    }

    method RollbackNewWrites(calls: nat -> DeleteCall)
      modifies this, cache
      ensures cache.Model() == Rollback(old(cache.Model()), old(newlyStored), calls)
      ensures newlyStored == [] && pending == old(pending) && complete == old(complete)
    {
      var n := |newlyStored|;
      assert newlyStored[..n] == newlyStored;
      while n > 0
        invariant 0 <= n <= |newlyStored| && newlyStored == old(newlyStored)
        invariant pending == old(pending) && complete == old(complete)
        invariant Rollback(cache.Model(), newlyStored[..n], calls) == Rollback(old(cache.Model()), old(newlyStored), calls)
      {
        n := n - 1;
        assert newlyStored[..n + 1][..n] == newlyStored[..n];
        var _ := cache.Delete(newlyStored[n], calls(n));
      }
      newlyStored := [];
    }

    /** The locked part of `commit`, with its loop, its checks and its `except` arm. */
    method Commit(calls: nat -> PutCall, cancelled: nat -> bool, revalidated: bool, deletes: nat -> DeleteCall)
      returns (outcome: CommitOutcome)
      requires newlyStored == [] && !complete
      modifies this, cache
      ensures (cache.Model(), newlyStored, outcome) ==
              CommitWrites(old(cache.Model()), id, old(pending), calls, cancelled, revalidated, deletes)
      ensures pending == [] && complete
    {
      ghost var whole := CommitPuts(cache.Model(), id, [], pending, calls, cancelled, 0);
      var k := 0;
      var raised := cancelled(0);
      while k < |pending| && !raised
        invariant 0 <= k <= |pending| && pending == old(pending)
        invariant raised == cancelled(k)
        invariant CommitPuts(cache.Model(), id, newlyStored, pending[k..], calls, cancelled, k) == whole
        decreases |pending| - k
      {
        var result := cache.Put(pending[k].0, pending[k].1, id, calls(k));
        if result == Stored {
          newlyStored := newlyStored + [pending[k].0];
        }
        k := k + 1;
        raised := cancelled(k);
      }
      if raised || !revalidated {
        RollbackNewWrites(deletes);
        outcome := Raised;
      } else {
        outcome := Committed;
      }
      pending, complete := [], true;
    }
  }
}
