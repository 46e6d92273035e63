/** The on-disk L2 store: two files per entry (data, then metadata), published by
    exclusive link, with cleanup, expiry, quarantine and eviction.

    A crash can leave any combination of files behind, so cleanup is stated from every
    directory.  Calls into the file system that raise surface as faults of the facade. */
module DiskStore {
  import opened Common

  /** SHA-256 of a key; numeric order is the order of the hexadecimal names. */
  type Digest = nat

  datatype Policy = Policy(maxEntries: nat, maxTotalBytes: nat, maxEntryBytes: nat, ttl: real, grace: real,
                           codec: string, schema: string, validBundle: Bytes -> bool)

  datatype EntryKey = EntryKey(digest: Digest, deployment: string)

  datatype Metadata = Metadata(keyDigest: Digest, deployment: string, payloadSha: Bytes, size: nat,
                               createdAt: real, expiresAt: real, codec: string, schema: string)

  datatype File<T> = File(content: T, mtime: real)

  /** A metadata file whose bytes do not decode to the expected fields holds None. */
  type MetaFile = File<Option<Metadata>>

  datatype Disk = Disk(
    data: map<Digest, File<Bytes>>,
    meta: map<Digest, MetaFile>,
    temps: map<nat, real>,
    access: map<Digest, int>,
    globalFuse: bool,
    fuses: set<string>)

  datatype Entry = Entry(payload: Bytes, createdAt: real, expiresAt: real)

  predicate Fused(s: Disk, deployment: string) {
    s.globalFuse || deployment in s.fuses
  }

  predicate Parses(f: MetaFile) {
    f.content.Some? && f.content.value.size > 0
  }

  predicate Older(mtime: real, now: real, p: Policy) {
    now - mtime >= p.grace
  }

  function Deleted(s: Disk, digests: set<Digest>): Disk {
    s.(data := s.data - digests, meta := s.meta - digests, access := s.access - digests)
  }

  // ------------------------------------------------------------------ eviction order

  datatype Rank = Rank(access: int, size: nat)

  /** Python's `int`: truncation toward zero. */
  function Truncate(x: real): int {
    if x >= 0.0 then x.Floor else -(-x).Floor
  }

  /** Last access in this process on the monotonic clock, or else creation on the wall
      clock: the two clocks are compared with each other. */
  function RankOf(m: Metadata, digest: Digest, access: map<Digest, int>): Rank {
    Rank(if digest in access then access[digest] else Truncate(m.createdAt * 1000000000.0), m.size)
  }

  function Index(s: Disk): map<Digest, Rank> {
    map d | d in s.meta && Parses(s.meta[d]) :: RankOf(s.meta[d].content.value, d, s.access)
  }

  predicate Before(ranks: map<Digest, Rank>, a: Digest, b: Digest)
    requires a in ranks && b in ranks
  {
    ranks[a].access < ranks[b].access || (ranks[a].access == ranks[b].access && a < b)
  }

  ghost function TotalBytes(ranks: map<Digest, Rank>, digests: set<Digest>): nat
    requires digests <= ranks.Keys
  {
    if digests == {} then 0
    else
      var d :| d in digests;
      ranks[d].size + TotalBytes(ranks, digests - {d})
  }

  lemma {:induction false} BytesWithout(ranks: map<Digest, Rank>, digests: set<Digest>, d: Digest)
    requires d in digests && digests <= ranks.Keys
    ensures TotalBytes(ranks, digests) == ranks[d].size + TotalBytes(ranks, digests - {d})
    decreases |digests|
  {
    var e :| e in digests && TotalBytes(ranks, digests) == ranks[e].size + TotalBytes(ranks, digests - {e});
    if e != d {
      BytesWithout(ranks, digests - {e}, d);
      BytesWithout(ranks, digests - {d}, e);
      assert digests - {e} - {d} == digests - {d} - {e};
    }
  }

  lemma {:induction false} BytesMonotone(ranks: map<Digest, Rank>, some: set<Digest>, all: set<Digest>)
    requires some <= all <= ranks.Keys
    ensures TotalBytes(ranks, some) <= TotalBytes(ranks, all) && |some| <= |all|
    decreases |all|
  {
    if some != all {
      assert !(all <= some);
      var d :| d in all && d !in some;
      BytesWithout(ranks, all, d);
      BytesMonotone(ranks, some, all - {d});
    }
  }

  ghost predicate Fits(ranks: map<Digest, Rank>, digests: set<Digest>, p: Policy)
    requires digests <= ranks.Keys
  {
    |digests| <= p.maxEntries && TotalBytes(ranks, digests) <= p.maxTotalBytes
  }

  /** d and everything more recent. */
  ghost function From(ranks: map<Digest, Rank>, d: Digest): (r: set<Digest>)
    requires d in ranks
  {
    set e | e in ranks && (e == d || Before(ranks, d, e))
  }

  /** An entry survives eviction iff it and everything more recent fit the limits. */
  ghost function Survivors(ranks: map<Digest, Rank>, p: Policy): set<Digest> {
    set d | d in ranks && Fits(ranks, From(ranks, d), p)
  }

  lemma {:induction false} Least(ranks: map<Digest, Rank>, digests: set<Digest>) returns (least: Digest)
    requires {} != digests <= ranks.Keys
    ensures least in digests && forall e :: e in digests ==> e == least || Before(ranks, least, e)
    decreases |digests|
  {
    var d :| d in digests;
    if digests == {d} {
      least := d;
    } else {
      var rest := Least(ranks, digests - {d});
      least := if Before(ranks, d, rest) then d else rest;
      forall e | e in digests ensures e == least || Before(ranks, least, e) {
        assert e == d || e in digests - {d};
      }
    }
  }

  /** The survivors respect both limits. */
  lemma SurvivorsFit(ranks: map<Digest, Rank>, p: Policy)
    ensures Fits(ranks, Survivors(ranks, p), p)
  {
    var kept := Survivors(ranks, p);
    if kept != {} {
      var least := Least(ranks, kept);
      BytesMonotone(ranks, kept, From(ranks, least));
    }
  }

  /** Eviction takes the least recent entries only, and no more than it must: the
      survivors together with any one evicted entry break a limit or that entry is
      older than another evicted one. */
  lemma EvictionIsMinimal(ranks: map<Digest, Rank>, p: Policy, gone: Digest)
    requires gone in ranks && gone !in Survivors(ranks, p)
    ensures forall d :: d in Survivors(ranks, p) ==> Before(ranks, gone, d)
    ensures Fits(ranks, Survivors(ranks, p) + {gone}, p) ==>
              exists other :: other in ranks && other !in Survivors(ranks, p) && Before(ranks, gone, other)
  {
    var kept := Survivors(ranks, p);
    forall d | d in kept ensures Before(ranks, gone, d) {
      if Before(ranks, d, gone) {
        BytesMonotone(ranks, From(ranks, gone), From(ranks, d));
      }
    }
    if forall other :: other in ranks && other !in kept ==> !Before(ranks, gone, other) {
      assert From(ranks, gone) == kept + {gone};
    }
  }

  // ------------------------------------------------------------------------- cleanup

  predicate LivePair(s: Disk, d: Digest, now: real, p: Policy)
    requires d in s.meta
  {
    && Parses(s.meta[d])
    && var m := s.meta[d].content.value;
       && !Fused(s, m.deployment) && m.size <= p.maxEntryBytes
       && m.createdAt <= now < m.expiresAt <= m.createdAt + p.ttl
  }

  /** What cleanup drops before it enforces the limits. */
  predicate Dead(s: Disk, d: Digest, now: real, p: Policy)
    requires d in s.data || d in s.meta
  {
    if d in s.data && d in s.meta then !LivePair(s, d, now, p)
    else Older(if d in s.data then s.data[d].mtime else s.meta[d].mtime, now, p)
  }

  function DeadSet(s: Disk, now: real, p: Policy): set<Digest> {
    set d | d in s.data.Keys + s.meta.Keys && Dead(s, d, now, p)
  }

  function WithoutOldTemps(s: Disk, now: real, p: Policy): Disk {
    s.(temps := map t | t in s.temps && !Older(s.temps[t], now, p) :: s.temps[t])
  }

  ghost function Enforced(s: Disk, p: Policy): Disk {
    Deleted(s, s.meta.Keys - Survivors(Index(s), p))
  }

  ghost function Cleaned(s: Disk, now: real, p: Policy): Disk {
    Enforced(Deleted(WithoutOldTemps(s, now, p), DeadSet(s, now, p)), p)
  }

  /** After cleanup, from any directory whatever a crash left: every digest is a live
      complete pair or a one-sided orphan younger than the grace period, no temporary is
      older than it, and the resident records fit the limits. */
  lemma CleanupLeavesOnlyLive(s: Disk, now: real, p: Policy, d: Digest)
    ensures var s' := Cleaned(s, now, p);
            && (d in s'.data && d in s'.meta ==> LivePair(s', d, now, p))
            && (d in s'.data && d !in s'.meta ==> !Older(s'.data[d].mtime, now, p))
            && (d in s'.meta && d !in s'.data ==> Parses(s'.meta[d]) && !Older(s'.meta[d].mtime, now, p))
            && (forall t :: t in s'.temps ==> !Older(s'.temps[t], now, p))
  {
  }

  lemma RestrictedIndex(s: Disk, kept: set<Digest>)
    requires kept <= Index(s).Keys
    ensures var s' := Deleted(s, s.meta.Keys - kept);
            && s'.meta.Keys == kept && Index(s').Keys == kept
            && forall d :: d in kept ==> Index(s')[d] == Index(s)[d]
  {
    var s' := Deleted(s, s.meta.Keys - kept);
    assert s'.meta.Keys == kept;
    forall d | d in kept ensures d in Index(s') && Index(s')[d] == Index(s)[d] {
      assert d in Index(s) && s'.meta[d] == s.meta[d];
      assert d in s.access <==> d in s'.access;
    }
  }

  lemma SmallerFits(a: map<Digest, Rank>, b: map<Digest, Rank>, digests: set<Digest>, p: Policy)
    requires digests <= a.Keys && digests <= b.Keys && Fits(a, digests, p)
    requires forall d :: d in digests ==> a[d] == b[d]
    ensures Fits(b, digests, p)
  {
    SameBytes(a, b, digests);
  }

  lemma EnforcedFits(s: Disk, p: Policy)
    ensures var s' := Enforced(s, p); Index(s').Keys == s'.meta.Keys && Fits(Index(s'), s'.meta.Keys, p)
  {
    var kept := Survivors(Index(s), p);
    SurvivorsFit(Index(s), p);
    RestrictedIndex(s, kept);
    SmallerFits(Index(s), Index(Enforced(s, p)), kept, p);
  }

  lemma CleanupRespectsLimits(s: Disk, now: real, p: Policy)
    ensures var s' := Cleaned(s, now, p);
            Index(s').Keys == s'.meta.Keys && Fits(Index(s'), s'.meta.Keys, p)
  {
    EnforcedFits(Deleted(WithoutOldTemps(s, now, p), DeadSet(s, now, p)), p);
  }

  lemma {:induction false} SameBytes(a: map<Digest, Rank>, b: map<Digest, Rank>, digests: set<Digest>)
    requires digests <= a.Keys && digests <= b.Keys
    requires forall d :: d in digests ==> a[d].size == b[d].size
    ensures TotalBytes(a, digests) == TotalBytes(b, digests)
    decreases |digests|
  {
    if digests != {} {
      var d :| d in digests;
      BytesWithout(a, digests, d);
      BytesWithout(b, digests, d);
      SameBytes(a, b, digests - {d});
    }
  }

  /** Dropping records never makes a fitting one unfit. */
  lemma FewerStillFit(s: Disk, s1: Disk, p: Policy, d: Digest)
    requires Index(s1).Keys <= Index(s).Keys && d in Index(s1)
    requires forall e :: e in Index(s1) ==> Index(s1)[e].size == Index(s)[e].size
    requires Fits(Index(s), Index(s).Keys, p)
    ensures d in Survivors(Index(s1), p)
  {
    SameBytes(Index(s1), Index(s), From(Index(s1), d));
    BytesMonotone(Index(s), From(Index(s1), d), Index(s).Keys);
  }

  lemma SweptIndex(s: Disk, now: real, p: Policy)
    ensures var s1 := Deleted(WithoutOldTemps(s, now, p), DeadSet(s, now, p));
            && Index(s1).Keys <= Index(s).Keys
            && forall e :: e in Index(s1) ==> Index(s1)[e].size == Index(s)[e].size
  {
  }

  lemma EnforcedKeeps(s: Disk, p: Policy, d: Digest)
    requires d in Survivors(Index(s), p)
    ensures var s' := Enforced(s, p);
            d in s'.meta && s'.meta[d] == s.meta[d] && (d in s.data ==> d in s'.data && s'.data[d] == s.data[d])
  {
    assert d in Index(s);
  }

  /** Cleanup never loses a live pair while the limits hold. */
  lemma CleanupKeepsLivePairs(s: Disk, now: real, p: Policy, d: Digest)
    requires d in s.data && d in s.meta && LivePair(s, d, now, p)
    requires Fits(Index(s), Index(s).Keys, p)
    ensures var s' := Cleaned(s, now, p);
            d in s'.data && d in s'.meta && s'.data[d] == s.data[d] && s'.meta[d] == s.meta[d]
  {
    var s1 := Deleted(WithoutOldTemps(s, now, p), DeadSet(s, now, p));
    assert d !in DeadSet(s, now, p);
    assert d in s1.meta && s1.meta[d] == s.meta[d] && d in s1.data && s1.data[d] == s.data[d];
    SweptIndex(s, now, p);
    FewerStillFit(s, s1, p, d);
    EnforcedKeeps(s1, p, d);
  }

  // ------------------------------------------------------------------ reads and writes

  datatype ReadResult = Absent | Broken | Found(entry: Entry)

  predicate Binds(m: Metadata, key: EntryKey, p: Policy) {
    m.keyDigest == key.digest && m.deployment == key.deployment && m.codec == p.codec && m.schema == p.schema
  }

  function ReadEntry(s: Disk, key: EntryKey, now: real, p: Policy): (Disk, ReadResult) {
    var d := key.digest;
    if d !in s.data && d !in s.meta then (s, Absent)
    else if d !in s.data || d !in s.meta then
      var mtime := if d in s.data then s.data[d].mtime else s.meta[d].mtime;
      (if Older(mtime, now, p) then Deleted(s, {d}) else s, Absent)
    else if !Parses(s.meta[d]) then (s, Broken)
    else
      var m, payload := s.meta[d].content.value, s.data[d].content;
      if !Binds(m, key, p) || m.size > p.maxEntryBytes || |payload| != m.size || payload != m.payloadSha
         || !p.validBundle(payload) || m.expiresAt > m.createdAt + p.ttl
      then (s, Broken)
      else (s, Found(Entry(payload, m.createdAt, m.expiresAt)))
  }

  function GetEntry(s: Disk, key: EntryKey, now: real, tick: int, p: Policy): (Disk, Option<Entry>) {
    if Fused(s, key.deployment) then (s, None)
    else
      var (s1, read) := ReadEntry(s, key, now, p);
      match read
      case Absent => (s1, None)
      case Broken => (Deleted(s1, {key.digest}), None)
      case Found(e) =>
        if e.createdAt > now || e.expiresAt <= now then (Deleted(s1, {key.digest}), None)
        else (s1.(access := s1.access[key.digest := tick]), Some(e))
  }

  datatype PutResult = Stored | Present | Conflict | Rejected | Fault | Raised

  /** The clock readings of one put: wall clock at its read and at publication, wall
      clocks of the polls, file time and monotonic ticks. */
  datatype Clocks = Clocks(read: real, publish: real, polls: seq<Poll>, mtime: real, readTick: int, putTick: int)

  /** A poll happens at `now`; another process may have published metadata before it. */
  datatype Poll = Poll(now: real, arrived: Option<MetaFile>)

  function Published(s: Disk, key: EntryKey, payload: Bytes, t: Clocks, p: Policy): Disk {
    var m := Metadata(key.digest, key.deployment, payload, |payload|, t.publish, t.publish + p.ttl, p.codec, p.schema);
    s.(data := s.data[key.digest := File(payload, t.mtime)],
       meta := s.meta[key.digest := File(Some(m), t.mtime)],
       access := s.access[key.digest := t.putTick])
  }

  function Arrived(s: Disk, d: Digest, poll: Poll): Disk {
    if poll.arrived.Some? && d !in s.meta then s.(meta := s.meta[d := poll.arrived.value]) else s
  }

  /** A data file without metadata may belong to another process about to publish its
      metadata: the put polls for it, and gives up in the end. */
  function Polled(s: Disk, key: EntryKey, payload: Bytes, polls: seq<Poll>, p: Policy): (Disk, PutResult)
    decreases |polls|
  {
    if polls == [] then (s, Fault)
    else
      var (s1, read) := ReadEntry(Arrived(s, key.digest, polls[0]), key, polls[0].now, p);
      match read
      case Found(e) => (s1, if e.payload == payload then Present else Conflict)
      case Broken => (s1, Raised)
      case Absent => Polled(s1, key, payload, polls[1..], p)
  }

  ghost function PutIfAbsent(s: Disk, key: EntryKey, payload: Bytes, t: Clocks, p: Policy): (Disk, PutResult) {
    if payload == [] then (s, Raised)
    else if |payload| > p.maxEntryBytes then (s, Rejected)
    else if !p.validBundle(payload) then (s, Raised)
    else if Fused(s, key.deployment) then (s, Fault)
    else
      var (s1, existing) := GetEntry(s, key, t.read, t.readTick, p);
      if existing.Some? then (s1, if existing.value.payload == payload then Present else Conflict)
      else if key.digest in s1.data then Polled(s1, key, payload, t.polls, p)
      else Publication(s1, key, payload, t, p)
  }

  ghost function Publication(s: Disk, key: EntryKey, payload: Bytes, t: Clocks, p: Policy): (Disk, PutResult) {
    if key.digest in s.meta then (s, Fault)
    else
      var s' := Enforced(Published(s, key, payload, t, p), p);
      (s', if key.digest in s'.data && key.digest in s'.meta then Stored else Rejected)
  }

  /** Two files that belong together: complete, of this key, and undamaged. */
  predicate Bound(s: Disk, key: EntryKey, p: Policy) {
    var d := key.digest;
    && d in s.data && d in s.meta && Parses(s.meta[d])
    && var m := s.meta[d].content.value;
       && Binds(m, key, p) && m.payloadSha == s.data[d].content && m.size == |s.data[d].content| <= p.maxEntryBytes
       && p.validBundle(s.data[d].content) && m.expiresAt <= m.createdAt + p.ttl
  }

  /** What may be served, read off the two files. */
  predicate Servable(s: Disk, key: EntryKey, now: real, p: Policy) {
    && !Fused(s, key.deployment) && Bound(s, key, p)
    && s.meta[key.digest].content.value.createdAt <= now < s.meta[key.digest].content.value.expiresAt
  }

  /** A read returns exactly the servable payloads, and touches no other digest. */
  lemma GetServesExactly(s: Disk, key: EntryKey, now: real, tick: int, p: Policy)
    ensures var (s', entry) := GetEntry(s, key, now, tick, p);
            && (entry.Some? <==> Servable(s, key, now, p))
            && (entry.Some? ==> entry.value.payload == s.data[key.digest].content)
            && (forall d :: d != key.digest ==>
                  && (d in s'.data <==> d in s.data) && (d in s.data ==> s'.data[d] == s.data[d])
                  && (d in s'.meta <==> d in s.meta) && (d in s.meta ==> s'.meta[d] == s.meta[d]))
  {
  }

  lemma PublicationServes(s: Disk, key: EntryKey, payload: Bytes, t: Clocks, p: Policy, now: real)
    requires payload != [] && |payload| <= p.maxEntryBytes && p.validBundle(payload) && !Fused(s, key.deployment)
    ensures var (s', result) := Publication(s, key, payload, t, p);
            result == Stored ==>
              && key.digest in s'.data && s'.data[key.digest].content == payload
              && (t.publish <= now < t.publish + p.ttl ==> Servable(s', key, now, p))
  {
    StoredFiles(Published(s, key, payload, t, p), p, key.digest);
  }

  lemma GetKeepsFuses(s: Disk, key: EntryKey, now: real, tick: int, p: Policy)
    ensures var s' := GetEntry(s, key, now, tick, p).0; s'.globalFuse == s.globalFuse && s'.fuses == s.fuses
  {
  }

  /** An entry reported stored can be read back at once and until it expires. */
  lemma StoredIsServable(s: Disk, key: EntryKey, payload: Bytes, t: Clocks, p: Policy, now: real)
    ensures var (s', result) := PutIfAbsent(s, key, payload, t, p);
            result == Stored ==>
              && key.digest in s'.data && s'.data[key.digest].content == payload
              && (t.publish <= now < t.publish + p.ttl ==> Servable(s', key, now, p))
  {
    if PutIfAbsent(s, key, payload, t, p).1 == Stored {
      var s1 := GetEntry(s, key, t.read, t.readTick, p).0;
      GetKeepsFuses(s, key, t.read, t.readTick, p);
      PollsWriteNothing(s1, key, payload, t.polls, p);
      PublicationServes(s1, key, payload, t, p, now);
    }
  }

  /** A payload the put does not turn away at once. */
  predicate Admissible(s: Disk, key: EntryKey, payload: Bytes, p: Policy) {
    payload != [] && |payload| <= p.maxEntryBytes && p.validBundle(payload) && !Fused(s, key.deployment)
  }

  /** Against a servable entry the put answers "present" for its very bytes and "conflict"
      for any others. */
  lemma PutComparesServable(s: Disk, key: EntryKey, payload: Bytes, t: Clocks, p: Policy)
    requires Admissible(s, key, payload, p) && Servable(s, key, t.read, p)
    ensures PutIfAbsent(s, key, payload, t, p).1 == if s.data[key.digest].content == payload then Present else Conflict
  {
    GetServesExactly(s, key, t.read, t.readTick, p);
  }

  /** Whenever it answers so, such an entry is there afterwards. */
  lemma ComparedEntryIsThere(s: Disk, key: EntryKey, payload: Bytes, t: Clocks, p: Policy)
    ensures var (s', result) := PutIfAbsent(s, key, payload, t, p);
            && (result == Present ==> Bound(s', key, p) && s'.data[key.digest].content == payload)
            && (result == Conflict ==> Bound(s', key, p) && s'.data[key.digest].content != payload)
  {
    var s1 := GetEntry(s, key, t.read, t.readTick, p).0;
    PolledEntryIsThere(s1, key, payload, t.polls, p);
  }

  lemma {:induction false} PolledEntryIsThere(s: Disk, key: EntryKey, payload: Bytes, polls: seq<Poll>, p: Policy)
    ensures var (s', result) := Polled(s, key, payload, polls, p);
            && (result == Present ==> Bound(s', key, p) && s'.data[key.digest].content == payload)
            && (result == Conflict ==> Bound(s', key, p) && s'.data[key.digest].content != payload)
    decreases |polls|
  {
    if polls != [] {
      var (s1, read) := ReadEntry(Arrived(s, key.digest, polls[0]), key, polls[0].now, p);
      if read.Absent? {
        PolledEntryIsThere(s1, key, payload, polls[1..], p);
      }
    }
  }

  /** Nothing arrives before poll k, and the waiting data file stays young. */
  predicate Waits(s: Disk, d: Digest, polls: seq<Poll>, k: nat, p: Policy)
    requires d in s.data && k <= |polls|
  {
    forall j :: 0 <= j < k ==> polls[j].arrived.None? && !Older(s.data[d].mtime, polls[j].now, p)
  }

  /** Metadata of another process that arrives while the put waits decides in the same way;
      if it does not belong to the data, the put raises. */
  lemma {:induction false} PollsCompareArrival(s: Disk, key: EntryKey, payload: Bytes, polls: seq<Poll>, k: nat, p: Policy)
    requires key.digest in s.data && key.digest !in s.meta && k < |polls|
    requires Waits(s, key.digest, polls, k, p) && polls[k].arrived.Some?
    ensures var arrived := Arrived(s, key.digest, polls[k]);
            Polled(s, key, payload, polls, p).1 ==
              if !Bound(arrived, key, p) then Raised else if s.data[key.digest].content == payload then Present else Conflict
    decreases k
  {
    if k > 0 {
      assert polls[0].arrived.None? && !Older(s.data[key.digest].mtime, polls[0].now, p);
      assert ReadEntry(s, key, polls[0].now, p) == (s, Absent);
      forall j | 0 <= j < k - 1 ensures polls[1..][j].arrived.None? && !Older(s.data[key.digest].mtime, polls[1..][j].now, p) {
        assert polls[1..][j] == polls[j + 1];
      }
      PollsCompareArrival(s, key, payload, polls[1..], k - 1, p);
    }
  }

  lemma PutComparesArrival(s: Disk, key: EntryKey, payload: Bytes, t: Clocks, k: nat, p: Policy)
    requires Admissible(s, key, payload, p)
    requires key.digest in s.data && key.digest !in s.meta && !Older(s.data[key.digest].mtime, t.read, p)
    requires k < |t.polls| && Waits(s, key.digest, t.polls, k, p) && t.polls[k].arrived.Some?
    ensures var arrived := Arrived(s, key.digest, t.polls[k]);
            PutIfAbsent(s, key, payload, t, p).1 ==
              if !Bound(arrived, key, p) then Raised else if s.data[key.digest].content == payload then Present else Conflict
  {
    assert GetEntry(s, key, t.read, t.readTick, p) == (s, None);
    PollsCompareArrival(s, key, payload, t.polls, k, p);
  }

  /** Storing the same bytes again before they expire answers "present", other bytes
      "conflict". */
  lemma StoredThenPut(s: Disk, key: EntryKey, payload: Bytes, t: Clocks, p: Policy, again: Bytes, later: Clocks)
    requires PutIfAbsent(s, key, payload, t, p).1 == Stored && t.publish <= later.read < t.publish + p.ttl
    requires again != [] && |again| <= p.maxEntryBytes && p.validBundle(again)
    ensures PutIfAbsent(PutIfAbsent(s, key, payload, t, p).0, key, again, later, p).1
            == if again == payload then Present else Conflict
  {
    StoredIsServable(s, key, payload, t, p, later.read);
    PutComparesServable(PutIfAbsent(s, key, payload, t, p).0, key, again, later, p);
  }

  /** Any other result leaves no file of this call behind: what remains was there
      before, or is metadata another process published meanwhile. */
  lemma OnlyStoredLeavesFiles(s: Disk, key: EntryKey, payload: Bytes, t: Clocks, p: Policy)
    ensures var (s', result) := PutIfAbsent(s, key, payload, t, p);
            var d := key.digest;
            result != Stored && d in s'.data && d in s'.meta ==>
              && d in s.data && s'.data[d] == s.data[d]
              && ((d in s.meta && s'.meta[d] == s.meta[d]) || exists k :: 0 <= k < |t.polls| && t.polls[k].arrived == Some(s'.meta[d]))
  {
    var (s1, existing) := GetEntry(s, key, t.read, t.readTick, p);
    PollsWriteNothing(s1, key, payload, t.polls, p);
  }

  lemma {:induction false} PollsWriteNothing(s: Disk, key: EntryKey, payload: Bytes, polls: seq<Poll>, p: Policy)
    ensures var (s', result) := Polled(s, key, payload, polls, p);
            var d := key.digest;
            && result != Stored
            && (d in s'.data ==> d in s.data && s'.data[d] == s.data[d])
            && (d in s'.meta ==> || (d in s.meta && s'.meta[d] == s.meta[d])
                                 || exists k :: 0 <= k < |polls| && polls[k].arrived == Some(s'.meta[d]))
    decreases |polls|
  {
    if polls != [] {
      var s0 := Arrived(s, key.digest, polls[0]);
      var (s1, read) := ReadEntry(s0, key, polls[0].now, p);
      if read.Absent? {
        PollsWriteNothing(s1, key, payload, polls[1..], p);
        var s' := Polled(s1, key, payload, polls[1..], p).0;
        if k :| 0 <= k < |polls[1..]| && key.digest in s'.meta && polls[1..][k].arrived == Some(s'.meta[key.digest]) {
          assert polls[k + 1].arrived == Some(s'.meta[key.digest]);
        }
      }
    }
  }

  lemma StoredFiles(s: Disk, p: Policy, d: Digest)
    ensures var s' := Enforced(s, p);
            && (d in s'.data && d in s'.meta ==> d in s.data && d in s.meta && s'.data[d] == s.data[d] && s'.meta[d] == s.meta[d])
            && s'.globalFuse == s.globalFuse && s'.fuses == s.fuses
  {
  }

  /** The most recently put entry is not the most recent one for eviction: "stored"
      holds exactly when it and everything ranked after it fit the limits. */
  lemma StoredIffFits(s: Disk, key: EntryKey, payload: Bytes, t: Clocks, p: Policy)
    requires payload != [] && |payload| <= p.maxEntryBytes && p.validBundle(payload) && !Fused(s, key.deployment)
    requires key.digest !in s.data && key.digest !in s.meta
    ensures var s1 := Published(s, key, payload, t, p);
            var result := PutIfAbsent(s, key, payload, t, p).1;
            && key.digest in Index(s1) && result in {Stored, Rejected}
            && (result == Stored <==> Fits(Index(s1), From(Index(s1), key.digest), p))
  {
    var s1 := Published(s, key, payload, t, p);
    assert GetEntry(s, key, t.read, t.readTick, p) == (s, None);
    assert Index(s1).Keys == set d | d in s1.meta && Parses(s1.meta[d]);
    assert key.digest in Index(s1);
  }

  const OneEntry: Policy := Policy(1, 10, 10, 100.0, 1.0, "c", "s", (b: Bytes) => true)

  /** One live entry, written by an earlier process at second 50. */
  const FullDisk: Disk :=
    Disk(map[1 := File([0], 50.0)], map[1 := File(Some(Metadata(1, "f", [0], 1, 50.0, 150.0, "c", "s")), 50.0)],
         map[], map[], false, {})

  /** A put at second 60, eight nanoseconds after boot. */
  const JustBooted: Clocks := Clocks(60.0, 60.0, [], 60.0, 7, 8)

  lemma NewcomerRanksFirst()
    ensures var s1 := Published(FullDisk, EntryKey(2, "f"), [0], JustBooted, OneEntry);
            Index(s1) == map[1 := Rank(50000000000, 1), 2 := Rank(8, 1)]
  {
  }

  /** A full store can reject what it just wrote and keep an older entry: the older
      entry, from an earlier process, is ranked by wall-clock nanoseconds, the new one
      by monotonic nanoseconds since boot. */
  lemma JustPutCanBeEvicted()
    ensures PutIfAbsent(FullDisk, EntryKey(2, "f"), [0], JustBooted, OneEntry).1 == Rejected
    ensures Servable(FullDisk, EntryKey(1, "f"), 60.0, OneEntry)
  {
    StoredIffFits(FullDisk, EntryKey(2, "f"), [0], JustBooted, OneEntry);
    NewcomerRanksFirst();
    var ranks := map[1 := Rank(50000000000, 1), 2 := Rank(8, 1)];
    assert From(ranks, 2) == {1, 2};
  }

  function OfDeployment(s: Disk, deployment: string): set<Digest> {
    set d | d in s.meta && (!Parses(s.meta[d]) || s.meta[d].content.value.deployment == deployment)
  }

  function Invalidated(s: Disk, deployment: string): Disk {
    Deleted(s, OfDeployment(s, deployment)).(fuses := s.fuses - {deployment})
  }

  /** After an invalidation nothing of the deployment can be served, although its fuse is
      cleared, and what other deployments could be served stays. */
  lemma InvalidationEmpties(s: Disk, deployment: string, key: EntryKey, now: real, p: Policy)
    ensures var s' := Invalidated(s, deployment);
            if key.deployment == deployment then !Servable(s', key, now, p)
            else Servable(s', key, now, p) <==> Servable(s, key, now, p)
  {
  }

  // ------------------------------------------------------------ sorting for eviction

  function Elements(records: seq<Digest>): set<Digest> {
    set d | d in records
  }

  predicate Sorted(ranks: map<Digest, Rank>, records: seq<Digest>) {
    records == [] || (&& records[0] in ranks
                      && (forall e :: e in records[1..] ==> e in ranks && Before(ranks, records[0], e))
                      && Sorted(ranks, records[1..]))
  }

  function Insert(ranks: map<Digest, Rank>, records: seq<Digest>, d: Digest): seq<Digest>
    requires Sorted(ranks, records) && d in ranks
  {
    if records == [] || Before(ranks, d, records[0]) then [d] + records
    else [records[0]] + Insert(ranks, records[1..], d)
  }

  lemma {:induction false} InsertSorts(ranks: map<Digest, Rank>, records: seq<Digest>, d: Digest)
    requires Sorted(ranks, records) && d in ranks && d !in records
    ensures Sorted(ranks, Insert(ranks, records, d)) && |Insert(ranks, records, d)| == |records| + 1
    ensures Elements(Insert(ranks, records, d)) == Elements(records) + {d}
  {
    var r := Insert(ranks, records, d);
    if records == [] || Before(ranks, d, records[0]) {
      assert r[1..] == records;
      forall e | e in records ensures e in ranks && Before(ranks, d, e) {
        assert e == records[0] || e in records[1..];
      }
    } else {
      InsertSorts(ranks, records[1..], d);
      assert r == [records[0]] + Insert(ranks, records[1..], d);
      assert r[1..] == Insert(ranks, records[1..], d);
      assert Elements(r) == {records[0]} + Elements(r[1..]);
      assert Elements(records) == {records[0]} + Elements(records[1..]);
      forall e | e in r[1..] ensures e in ranks && Before(ranks, records[0], e) {
        assert e in Elements(r[1..]);
      }
    }
  }

  lemma SortedHead(ranks: map<Digest, Rank>, records: seq<Digest>)
    requires Sorted(ranks, records) && records != []
    ensures records[0] !in records[1..] && Elements(records[1..]) == Elements(records) - {records[0]}
    ensures forall e :: e in records ==> e in ranks && (e == records[0] || Before(ranks, records[0], e))
  {
    assert !Before(ranks, records[0], records[0]);
  }

  lemma {:induction false} SortedSize(ranks: map<Digest, Rank>, records: seq<Digest>)
    requires Sorted(ranks, records)
    ensures |Elements(records)| == |records| && Elements(records) <= ranks.Keys
  {
    if records != [] {
      SortedHead(ranks, records);
      SortedSize(ranks, records[1..]);
    }
  }

  /** The orphans and the pairs that cleanup drops make up all it drops. */
  lemma DeadParts(s: Disk, now: real, p: Policy)
    ensures var dead := DeadSet(s, now, p);
            ((s.data.Keys - s.meta.Keys) + (s.meta.Keys - s.data.Keys)) * dead + s.data.Keys * s.meta.Keys * dead == dead
    ensures forall d :: d in s.data || d in s.meta ==> (d in DeadSet(s, now, p) <==> Dead(s, d, now, p))
  {
  }

  lemma DeletedTwice(s: Disk, some: set<Digest>, more: set<Digest>)
    ensures Deleted(Deleted(s, some), more) == Deleted(s, some + more)
  {
  }

  /** The shortest prefix is dropped that makes the rest fit.  Nothing at all always
      fits, so the loop never pops from an empty list. */
  ghost function Kept(ranks: map<Digest, Rank>, records: seq<Digest>, p: Policy): seq<Digest>
    requires Sorted(ranks, records)
  {
    SortedSize(ranks, records);
    if Fits(ranks, Elements(records), p) then records else Kept(ranks, records[1..], p)
  }

  lemma DeletedNone(s: Disk, a: set<Digest>, b: set<Digest>)
    requires a == b
    ensures Deleted(s, a - b) == s
  {
  }

  /** What the pop loop keeps: `rest` are the records not evicted yet. */
  ghost predicate Popping(was: Disk, ranks: map<Digest, Rank>, records: seq<Digest>, rest: seq<Digest>, size: int,
                          now: Disk, p: Policy) {
    && Sorted(ranks, records) && Sorted(ranks, rest) && Elements(rest) <= ranks.Keys
    && size == TotalBytes(ranks, Elements(rest))
    && Kept(ranks, rest, p) == Kept(ranks, records, p)
    && now == Deleted(was, ranks.Keys - Elements(rest))
  }

  lemma PopStep(was: Disk, ranks: map<Digest, Rank>, records: seq<Digest>, rest: seq<Digest>, size: int, now: Disk, p: Policy)
    requires Popping(was, ranks, records, rest, size, now, p)
    requires |rest| > p.maxEntries || size > p.maxTotalBytes
    ensures rest != [] && rest[0] in ranks
    ensures Popping(was, ranks, records, rest[1..], size - ranks[rest[0]].size, Deleted(now, {rest[0]}), p)
  {
    SortedSize(ranks, rest);
    assert Elements([]) == {};
    if rest != [] {
      SortedHead(ranks, rest);
      BytesWithout(ranks, Elements(rest), rest[0]);
      DeletedTwice(was, ranks.Keys - Elements(rest), {rest[0]});
      assert ranks.Keys - Elements(rest) + {rest[0]} == ranks.Keys - Elements(rest[1..]);
    }
  }

  lemma PopsEnd(ranks: map<Digest, Rank>, records: seq<Digest>, p: Policy)
    requires Sorted(ranks, records) && Elements(records) <= ranks.Keys
    requires |records| <= p.maxEntries && TotalBytes(ranks, Elements(records)) <= p.maxTotalBytes
    ensures Kept(ranks, records, p) == records
  {
    SortedSize(ranks, records);
  }

  ghost predicate UpwardClosed(ranks: map<Digest, Rank>, digests: set<Digest>) {
    forall d, e :: d in digests && d in ranks && e in ranks && Before(ranks, d, e) ==> e in digests
  }

  lemma {:induction false} KeptFrom(ranks: map<Digest, Rank>, records: seq<Digest>, p: Policy)
    requires Sorted(ranks, records) && UpwardClosed(ranks, Elements(records))
    ensures Elements(Kept(ranks, records, p)) == Survivors(ranks, p) * Elements(records)
  {
    SortedSize(ranks, records);
    if Fits(ranks, Elements(records), p) {
      forall d | d in records ensures d in Survivors(ranks, p) {
        BytesMonotone(ranks, From(ranks, d), Elements(records));
      }
    } else {
      SortedHead(ranks, records);
      assert From(ranks, records[0]) == Elements(records);
      KeptFrom(ranks, records[1..], p);
    }
  }

  lemma KeptAreSurvivors(ranks: map<Digest, Rank>, records: seq<Digest>, p: Policy)
    requires Sorted(ranks, records) && Elements(records) == ranks.Keys
    ensures Elements(Kept(ranks, records, p)) == Survivors(ranks, p)
  {
    KeptFrom(ranks, records, p);
  }

  lemma DeletedInTwo(s: Disk, all: set<Digest>, some: set<Digest>, kept: set<Digest>)
    requires kept <= some <= all
    ensures Deleted(Deleted(s, all - some), some - kept) == Deleted(s, all - kept)
  {
    assert all - some + (some - kept) == all - kept;
    DeletedTwice(s, all - some, some - kept);
  }

  lemma EnforcedByKept(s: Disk, ranks: map<Digest, Rank>, records: seq<Digest>, p: Policy)
    requires ranks == Index(s) && Sorted(ranks, records) && Elements(records) == ranks.Keys
    ensures Enforced(s, p) ==
            Deleted(Deleted(s, s.meta.Keys - ranks.Keys), ranks.Keys - Elements(Kept(ranks, records, p)))
  {
    KeptAreSurvivors(ranks, records, p);
    DeletedInTwo(s, s.meta.Keys, ranks.Keys, Survivors(ranks, p));
  }

  // ---------------------------------------------------------------------- the store

  /** `ControlFoleyLocalConditionCacheStore` over its directory. */
  class Store {
    const policy: Policy
    var data: map<Digest, File<Bytes>>
    var meta: map<Digest, MetaFile>
    var temps: map<nat, real>
    var access: map<Digest, int>
    var globalFuse: bool
    var fuses: set<string>

    ghost function Model(): Disk
      reads this
    {
      Disk(data, meta, temps, access, globalFuse, fuses)
    }

    /** Opening cleans up whatever is found. */
    constructor (policy: Policy, found: Disk, now: real)
      ensures this.policy == policy && Model() == Cleaned(found.(access := map[]), now, policy)
    {
      this.policy := policy;
      data, meta, temps, access := found.data, found.meta, found.temps, map[];
      globalFuse, fuses := found.globalFuse, found.fuses;
      new;
      Cleanup(now);
    }

    /** Temporaries, one-sided digests, pairs, then the limits. */
    method Cleanup(now: real)
      modifies this`data, this`meta, this`temps, this`access
      ensures Model() == Cleaned(old(Model()), now, policy)
    {
      ghost var was := Model();
      CleanTemps(now);
      ghost var dead := DeadSet(was, now, policy);
      var orphans, pairs := (data.Keys - meta.Keys) + (meta.Keys - data.Keys), data.Keys * meta.Keys;
      DeadParts(was, now, policy);
      CleanOrphans(orphans, now, dead);
      CleanPairs(pairs, now, dead);
      DeletedTwice(WithoutOldTemps(was, now, policy), orphans * dead, pairs * dead);
      EnforceLimits();
    }

    method CleanTemps(now: real)
      modifies this`temps
      ensures Model() == WithoutOldTemps(old(Model()), now, policy)
    {
      ghost var was := temps;
      var names := temps.Keys;
      while names != {}
        invariant names <= was.Keys
        invariant temps == map t | t in was && (t in names || !Older(was[t], now, policy)) :: was[t]
        decreases names
      {
        var t :| t in names;
        if now - temps[t] >= policy.grace {
          temps := temps - {t};
        }
        names := names - {t};
      }
    }

    method CleanOrphans(orphans: set<Digest>, now: real, ghost dead: set<Digest>)
      requires forall d :: d in orphans ==> (d in data) != (d in meta)
      requires forall d :: d in orphans ==>
                 (d in dead <==> Older(if d in data then data[d].mtime else meta[d].mtime, now, policy))
      modifies this`data, this`meta, this`access
      ensures Model() == Deleted(old(Model()), orphans * dead)
    {
      ghost var was := Model();
      ghost var gone := {};
      var todo := orphans;
      while todo != {}
        invariant todo <= orphans && gone == (orphans - todo) * dead
        invariant Model() == Deleted(was, gone)
        decreases todo
      {
        var d :| d in todo;
        var mtime := if d in data then data[d].mtime else meta[d].mtime;
        if now - mtime >= policy.grace {
          DeletedTwice(was, gone, {d});
          DeleteDigest(d);
          gone := gone + {d};
        }
        todo := todo - {d};
      }
      assert gone == orphans * dead;
    }

    method CleanPairs(pairs: set<Digest>, now: real, ghost dead: set<Digest>)
      requires forall d :: d in pairs ==> d in meta && (d in dead <==> !LivePair(Model(), d, now, policy))
      modifies this`data, this`meta, this`access
      ensures Model() == Deleted(old(Model()), pairs * dead)
    {
      ghost var was := Model();
      ghost var gone := {};
      var todo := pairs;
      while todo != {}
        invariant todo <= pairs && gone == (pairs - todo) * dead
        invariant Model() == Deleted(was, gone)
        decreases todo
      {
        var d :| d in todo;
        assert meta[d] == was.meta[d];
        if !Lives(meta[d], now) {
          DeletedTwice(was, gone, {d});
          DeleteDigest(d);
          gone := gone + {d};
        }
        todo := todo - {d};
      }
      assert gone == pairs * dead;
    }

    /** The checks cleanup makes on a pair's metadata. */
    predicate Lives(f: MetaFile, now: real)
      reads this`globalFuse, this`fuses
    {
      match f.content
      case None => false
      case Some(m) =>
        m.size > 0 && !globalFuse && m.deployment !in fuses && m.size <= policy.maxEntryBytes
        && m.createdAt <= now && m.createdAt < m.expiresAt <= m.createdAt + policy.ttl && now < m.expiresAt
    }

    method ReadFiles(key: EntryKey, now: real) returns (read: ReadResult)
      modifies this`data, this`meta, this`access
      ensures (Model(), read) == ReadEntry(old(Model()), key, now, policy)
    {
      var d := key.digest;
      if d !in data && d !in meta {
        return Absent;
      }
      if d !in data || d !in meta {
        var mtime := if d in data then data[d].mtime else meta[d].mtime;
        if now - mtime >= policy.grace {
          DeleteDigest(d);
        }
        return Absent;
      }
      match meta[d].content {
        case None => return Broken;
        case Some(m) =>
          var payload := data[d].content;
          if m.size == 0 || m.keyDigest != d || m.deployment != key.deployment || m.codec != policy.codec
             || m.schema != policy.schema || m.size > policy.maxEntryBytes || |payload| != m.size
             || payload != m.payloadSha || !policy.validBundle(payload) || m.expiresAt > m.createdAt + policy.ttl {
            return Broken;
          }
          return Found(Entry(payload, m.createdAt, m.expiresAt));
      }
    }

    method Get(key: EntryKey, now: real, tick: int) returns (entry: Option<Entry>)
      modifies this`data, this`meta, this`access
      ensures (Model(), entry) == GetEntry(old(Model()), key, now, tick, policy)
    {
      if globalFuse || key.deployment in fuses {
        return None;
      }
      var read := ReadFiles(key, now);
      match read {
        case Absent => return None;
        case Broken =>
          DeleteDigest(key.digest);
          return None;
        case Found(e) =>
          if e.createdAt > now || e.expiresAt <= now {
            DeleteDigest(key.digest);
            return None;
          }
          access := access[key.digest := tick];
          return Some(e);
      }
    }

    /** The polling loop. */
    method AwaitMetadata(key: EntryKey, payload: Bytes, polls: seq<Poll>) returns (result: PutResult)
      modifies this`data, this`meta, this`access
      ensures (Model(), result) == Polled(old(Model()), key, payload, polls, policy)
    {
      ghost var whole := Polled(Model(), key, payload, polls, policy);
      var k := 0;
      while k < |polls|
        invariant 0 <= k <= |polls|
        invariant Polled(Model(), key, payload, polls[k..], policy) == whole
      {
        if polls[k].arrived.Some? && key.digest !in meta {
          meta := meta[key.digest := polls[k].arrived.value];
        }
        var read := ReadFiles(key, polls[k].now);
        match read {
          case Found(e) => return if e.payload == payload then Present else Conflict;
          case Broken => return Raised;
          case Absent =>
        }
        k := k + 1;
      }
      result := Fault;
    }

    method Put(key: EntryKey, payload: Bytes, t: Clocks) returns (result: PutResult)
      modifies this`data, this`meta, this`access
      ensures (Model(), result) == PutIfAbsent(old(Model()), key, payload, t, policy)
    {
      if payload == [] {
        return Raised;
      }
      if |payload| > policy.maxEntryBytes {
        return Rejected;
      }
      if !policy.validBundle(payload) {
        return Raised;
      }
      if globalFuse || key.deployment in fuses {
        return Fault;
      }
      var existing := Get(key, t.read, t.readTick);
      if existing.Some? {
        return if existing.value.payload == payload then Present else Conflict;
      }
      if key.digest in data {
        result := AwaitMetadata(key, payload, t.polls);
        return;
      }
      result := PublishPair(key, payload, t);
    }

    /** Data first, then metadata, then the limits. */
    method PublishPair(key: EntryKey, payload: Bytes, t: Clocks) returns (result: PutResult)
      requires key.digest !in data
      modifies this`data, this`meta, this`access
      ensures (Model(), result) == Publication(old(Model()), key, payload, t, policy)
    {
      ghost var was, unpublished := Model(), data;
      data := data[key.digest := File(payload, t.mtime)];
      if key.digest in meta {
        data := data - {key.digest};
        assert data == unpublished;
        return Fault;
      }
      var m := Metadata(key.digest, key.deployment, payload, |payload|, t.publish, t.publish + policy.ttl,
                        policy.codec, policy.schema);
      meta := meta[key.digest := File(Some(m), t.mtime)];
      access := access[key.digest := t.putTick];
      assert Model() == Published(was, key, payload, t, policy);
      EnforceLimits();
      assert Model() == Enforced(Published(was, key, payload, t, policy), policy);
      result := if key.digest in data && key.digest in meta then Stored else Rejected;
    }

    /** Records of the deployment go, and so do records that do not parse. */
    method InvalidateDeployment(deployment: string)
      modifies this`data, this`meta, this`access, this`fuses
      ensures Model() == Invalidated(old(Model()), deployment)
    {
      ghost var was := Model();
      var todo := meta.Keys;
      ghost var gone := {};
      while todo != {}
        invariant todo <= was.meta.Keys && gone <= was.meta.Keys - todo
        invariant forall d :: d in was.meta.Keys - todo ==> (d in gone <==> d in OfDeployment(was, deployment))
        invariant Model() == Deleted(was, gone)
        decreases todo
      {
        var d :| d in todo;
        assert meta[d] == was.meta[d];
        if !Parses(meta[d]) || meta[d].content.value.deployment == deployment {
          DeletedTwice(was, gone, {d});
          DeleteDigest(d);
          gone := gone + {d};
        }
        todo := todo - {d};
      }
      assert gone == OfDeployment(was, deployment);
      fuses := fuses - {deployment};
    }

    method DeleteDigest(d: Digest)
      modifies this`data, this`meta, this`access
      ensures Model() == Deleted(old(Model()), {d})
    {
      data, meta, access := data - {d}, meta - {d}, access - {d};
    }

    /** Metadata that does not parse is quarantined; the rest is listed least recent
        first. */
    method Records(ranks: map<Digest, Rank>) returns (records: seq<Digest>, total: nat)
      requires ranks.Keys <= meta.Keys
      modifies this`data, this`meta, this`access
      ensures Sorted(ranks, records) && Elements(records) == ranks.Keys
      ensures total == TotalBytes(ranks, Elements(records))
      ensures Model() == Deleted(old(Model()), old(meta.Keys) - ranks.Keys)
    {
      ghost var was := Model();
      ghost var gone := {};
      records, total := [], 0;
      var todo := meta.Keys;
      while todo != {}
        invariant todo <= was.meta.Keys && gone == was.meta.Keys - todo - ranks.Keys
        invariant Sorted(ranks, records) && Elements(records) == ranks.Keys - todo
        invariant total == TotalBytes(ranks, Elements(records))
        invariant Model() == Deleted(was, gone)
        decreases todo
      {
        var d :| d in todo;
        if d !in ranks {
          DeletedTwice(was, gone, {d});
          DeleteDigest(d);
          gone := gone + {d};
        } else {
          InsertSorts(ranks, records, d);
          BytesWithout(ranks, Elements(records) + {d}, d);
          assert Elements(records) + {d} - {d} == Elements(records);
          records := Insert(ranks, records, d);
          total := total + ranks[d].size;
        }
        todo := todo - {d};
      }
      assert Elements(records) == ranks.Keys;
    }

    /** The pop loop. */
    method Evict(ranks: map<Digest, Rank>, records: seq<Digest>, total: nat)
      requires Sorted(ranks, records) && Elements(records) == ranks.Keys && total == TotalBytes(ranks, ranks.Keys)
      modifies this`data, this`meta, this`access
      ensures Model() == Deleted(old(Model()), ranks.Keys - Elements(Kept(ranks, records, policy)))
    {
      ghost var was := Model();
      var rest, size := records, total;
      DeletedNone(was, ranks.Keys, Elements(records));
      while |rest| > policy.maxEntries || size > policy.maxTotalBytes
        invariant Popping(was, ranks, records, rest, size, Model(), policy)
        decreases |rest|
      {
        PopStep(was, ranks, records, rest, size, Model(), policy);
        DeleteDigest(rest[0]);
        size, rest := size - ranks[rest[0]].size, rest[1..];
      }
      PopsEnd(ranks, rest, policy);
    }

    method EnforceLimits()
      modifies this`data, this`meta, this`access
      ensures Model() == Enforced(old(Model()), policy)
    {
      ghost var was := Model();
      var ranks := map d | d in meta && Parses(meta[d]) :: RankOf(meta[d].content.value, d, access);
      var records, total := Records(ranks);
      Evict(ranks, records, total);
      EnforcedByKept(was, ranks, records, policy);
    }
  }
}
