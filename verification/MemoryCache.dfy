/** The bounded in-memory L0/L1 store: a byte- and item-limited LRU with TTL.  The
    ordered dictionary is a sequence of entries, least recently used first. */
module MemoryCache {
  import opened Common

  datatype Tier = L0Metadata | L1Preprocess
  datatype Identity = Identity(tier: Tier, digest: string)
  datatype Entry = Entry(identity: Identity, deployment: string, payload: Bytes, expiresAt: real)

  datatype Limits = Limits(maxEntries: nat, maxEntryBytes: nat, maxTotalBytes: nat, ttl: real)

  predicate ValidLimits(l: Limits) {
    0 < l.maxEntries && 0 < l.maxEntryBytes <= l.maxTotalBytes && l.ttl > 0.0
  }

  /** A clock reading; Invalid covers non-numbers, NaN and infinities. */
  datatype Reading = Invalid | Reads(seconds: real)

  datatype PutResult = Stored | Present | Rejected
  datatype Outcome<+T> = Ok(value: T) | Raised

  // ------------------------------------------------------- the ordered dictionary

  function Find(entries: seq<Entry>, id: Identity): Option<Entry> {
    if entries == [] then None
    else if entries[0].identity == id then Some(entries[0])
    else Find(entries[1..], id)
  }

  predicate Distinct(entries: seq<Entry>) {
    entries == [] || (Find(entries[1..], entries[0].identity).None? && Distinct(entries[1..]))
  }

  function Without(entries: seq<Entry>, id: Identity): seq<Entry> {
    if entries == [] then []
    else if entries[0].identity == id then entries[1..]
    else [entries[0]] + Without(entries[1..], id)
  }

  function Bytesum(entries: seq<Entry>): nat {
    if entries == [] then 0 else |entries[0].payload| + Bytesum(entries[1..])
  }

  predicate Sized(entries: seq<Entry>, l: Limits) {
    entries == [] || (0 < |entries[0].payload| <= l.maxEntryBytes && Sized(entries[1..], l))
  }

  function Keep(entries: seq<Entry>, keep: Entry -> bool): seq<Entry> {
    if entries == [] then []
    else if keep(entries[0]) then [entries[0]] + Keep(entries[1..], keep)
    else Keep(entries[1..], keep)
  }

  predicate Fits(entries: seq<Entry>, l: Limits) {
    |entries| <= l.maxEntries && Bytesum(entries) <= l.maxTotalBytes
  }

  /** Drop least-recent entries until both limits hold. */
  function Evict(entries: seq<Entry>, l: Limits): seq<Entry> {
    if Fits(entries, l) || entries == [] then entries else Evict(entries[1..], l)
  }

  lemma {:induction false} FindIdentity(entries: seq<Entry>, id: Identity)
    ensures Find(entries, id).Some? ==> Find(entries, id).value.identity == id
  {
    if entries != [] {
      FindIdentity(entries[1..], id);
    }
  }

  lemma {:induction false} AppendFind(w: seq<Entry>, e: Entry, id: Identity)
    ensures Find(w + [e], id) ==
            if Find(w, id).Some? then Find(w, id) else if e.identity == id then Some(e) else None
  {
    if w != [] {
      assert (w + [e])[1..] == w[1..] + [e];
      AppendFind(w[1..], e, id);
    }
  }

  lemma {:induction false} AppendShape(w: seq<Entry>, e: Entry, l: Limits)
    ensures Bytesum(w + [e]) == Bytesum(w) + |e.payload|
    ensures Sized(w, l) && 0 < |e.payload| <= l.maxEntryBytes ==> Sized(w + [e], l)
    ensures Distinct(w) && Find(w, e.identity).None? ==> Distinct(w + [e])
  {
    if w == [] {
      assert w + [e] == [e];
    } else {
      assert (w + [e])[1..] == w[1..] + [e];
      AppendShape(w[1..], e, l);
      AppendFind(w[1..], e, w[0].identity);
    }
  }

  lemma {:induction false} WithoutFind(entries: seq<Entry>, id: Identity, x: Identity)
    requires Distinct(entries)
    ensures Find(Without(entries, id), x) == if x == id then None else Find(entries, x)
  {
    if entries != [] && entries[0].identity != id {
      assert Without(entries, id)[1..] == Without(entries[1..], id);
      WithoutFind(entries[1..], id, x);
    }
  }

  lemma {:induction false} WithoutShape(entries: seq<Entry>, id: Identity, l: Limits)
    requires Distinct(entries)
    ensures Distinct(Without(entries, id))
    ensures Sized(entries, l) ==> Sized(Without(entries, id), l)
    ensures var found := Find(entries, id);
            && Bytesum(Without(entries, id)) == Bytesum(entries) - (if found.Some? then |found.value.payload| else 0)
            && |Without(entries, id)| == |entries| - (if found.Some? then 1 else 0)
  {
    if entries != [] && entries[0].identity != id {
      assert Without(entries, id)[1..] == Without(entries[1..], id);
      WithoutShape(entries[1..], id, l);
      WithoutFind(entries[1..], id, entries[0].identity);
    }
  }

  lemma {:induction false} KeepFind(entries: seq<Entry>, keep: Entry -> bool, id: Identity)
    requires Distinct(entries)
    ensures var found := Find(entries, id);
            Find(Keep(entries, keep), id) == if found.Some? && keep(found.value) then found else None
  {
    if entries != [] {
      KeepFind(entries[1..], keep, id);
      if keep(entries[0]) {
        assert Keep(entries, keep)[1..] == Keep(entries[1..], keep);
      }
    }
  }

  lemma {:induction false} KeepShape(entries: seq<Entry>, keep: Entry -> bool, l: Limits)
    requires Distinct(entries)
    ensures Distinct(Keep(entries, keep)) && |Keep(entries, keep)| <= |entries|
    ensures Bytesum(Keep(entries, keep)) <= Bytesum(entries)
    ensures Sized(entries, l) ==> Sized(Keep(entries, keep), l)
  {
    if entries != [] {
      KeepShape(entries[1..], keep, l);
      if keep(entries[0]) {
        assert Keep(entries, keep)[1..] == Keep(entries[1..], keep);
        KeepFind(entries[1..], keep, entries[0].identity);
      }
    }
  }

  // -------------------------------------------------------------------- eviction

  /** Eviction keeps exactly the longest recent suffix that meets both limits. */
  ghost predicate LongestFittingSuffix(entries: seq<Entry>, kept: seq<Entry>, l: Limits) {
    && |kept| <= |entries| && kept == entries[|entries| - |kept|..] && Fits(kept, l)
    && forall n :: 0 <= n < |entries| - |kept| ==> !Fits(entries[n..], l)
  }

  lemma {:induction false} EvictIsMinimal(entries: seq<Entry>, l: Limits)
    ensures LongestFittingSuffix(entries, Evict(entries, l), l)
  {
    assert entries[0..] == entries;
    if !Fits(entries, l) && entries != [] {
      EvictIsMinimal(entries[1..], l);
      var kept := Evict(entries, l);
      forall n | 0 < n < |entries| - |kept| ensures !Fits(entries[n..], l) {
        assert entries[n..] == entries[1..][n - 1..];
      }
      assert entries[|entries| - |kept|..] == entries[1..][|entries| - 1 - |kept|..];
    }
  }

  /** A newest entry within the entry limit is never evicted by its own insertion. */
  lemma {:induction false} EvictKeepsNewest(w: seq<Entry>, e: Entry, l: Limits)
    requires ValidLimits(l) && Distinct(w + [e]) && Sized(w + [e], l)
    ensures var kept := Evict(w + [e], l);
            && kept != [] && kept[|kept| - 1] == e && Find(kept, e.identity) == Some(e)
            && Distinct(kept) && Sized(kept, l) && Fits(kept, l)
  {
    if w == [] {
      assert w + [e] == [e] && [e][1..] == [];
      assert Bytesum([e]) == |e.payload|;
    } else {
      assert (w + [e])[1..] == w[1..] + [e];
      EvictKeepsNewest(w[1..], e, l);
      if Fits(w + [e], l) {
        AppendFind(w, e, e.identity);
        LastIsUnique(w, e);
      }
    }
  }

  lemma {:induction false} LastIsUnique(w: seq<Entry>, e: Entry)
    requires Distinct(w + [e])
    ensures Find(w, e.identity).None?
  {
    if w != [] {
      assert (w + [e])[1..] == w[1..] + [e];
      AppendFind(w[1..], e, e.identity);
      LastIsUnique(w[1..], e);
    }
  }

  // ------------------------------------------------------------ the store, a value

  datatype Lru = Lru(entries: seq<Entry>, evictions: nat, lastNow: Option<real>, closed: bool)

  ghost predicate WellFormed(s: Lru, l: Limits) {
    ValidLimits(l) && Distinct(s.entries) && Fits(s.entries, l) && Sized(s.entries, l)
  }

  function Now(s: Lru, r: Reading): (Lru, Outcome<real>) {
    if r.Invalid? || r.seconds < 0.0 || (s.lastNow.Some? && r.seconds < s.lastNow.value) then (s, Raised)
    else (s.(lastNow := Some(r.seconds)), Ok(r.seconds))
  }

  /** `OrderedDict.move_to_end`. */
  function Promote(entries: seq<Entry>, e: Entry): seq<Entry> {
    Without(entries, e.identity) + [e]
  }

  /** `get_entry`: a live entry moves to the recent end, an expired one is removed. */
  function Get(s: Lru, id: Identity, r: Reading): (Lru, Outcome<Option<Entry>>) {
    var found := Find(s.entries, id);
    if s.closed then (s, Raised)
    else if found.None? then (s, Ok(None))
    else
      var (s1, now) := Now(s, r);
      if now.Raised? then (s1, Raised)
      else if found.value.expiresAt <= now.value then (s1.(entries := Without(s.entries, id)), Ok(None))
      else (s1.(entries := Promote(s.entries, found.value)), Ok(found))
  }

  /** The entries after inserting a new one. */
  function Insert(entries: seq<Entry>, e: Entry, l: Limits): seq<Entry> {
    Evict(Promote(entries, e), l)
  }

  /** `put_if_absent`. */
  function Put(s: Lru, l: Limits, id: Identity, deployment: string, payload: Bytes, r: Reading): (Lru, Outcome<PutResult>) {
    if payload == [] then (s, Raised)
    else if |payload| > l.maxEntryBytes then (s, Ok(Rejected))
    else if s.closed then (s, Raised)
    else
      var (s1, now) := Now(s, r);
      if now.Raised? then (s1, Raised)
      else
        var found := Find(s.entries, id);
        if found.Some? && found.value.expiresAt > now.value then
          (s1.(entries := Promote(s.entries, found.value)), Ok(Present))
        else
          var e := Entry(id, deployment, payload, now.value + l.ttl);
          var kept := Insert(s.entries, e, l);
          EvictIsMinimal(Promote(s.entries, e), l);
          (s1.(entries := kept, evictions := s.evictions + (|Promote(s.entries, e)| - |kept|)), Ok(Stored))
  }

  // ------------------------------------------------------------------ its theorems

  ghost predicate SameContents(a: seq<Entry>, b: seq<Entry>) {
    forall id :: Find(a, id) == Find(b, id)
  }

  /** A hit permutes the entries and keeps every bound. */
  lemma PromoteKeeps(entries: seq<Entry>, e: Entry, l: Limits)
    requires Distinct(entries) && Sized(entries, l) && Find(entries, e.identity) == Some(e)
    requires 0 < |e.payload| <= l.maxEntryBytes
    ensures var p := Promote(entries, e);
            && Distinct(p) && Sized(p, l) && Bytesum(p) == Bytesum(entries) && |p| == |entries|
            && SameContents(p, entries)
  {
    WithoutShape(entries, e.identity, l);
    WithoutFind(entries, e.identity, e.identity);
    AppendShape(Without(entries, e.identity), e, l);
    forall id ensures Find(Promote(entries, e), id) == Find(entries, id) {
      WithoutFind(entries, e.identity, id);
      AppendFind(Without(entries, e.identity), e, id);
    }
  }

  lemma {:induction false} FoundIsSized(entries: seq<Entry>, id: Identity, l: Limits)
    requires Sized(entries, l) && Find(entries, id).Some?
    ensures Find(entries, id).value.identity == id && 0 < |Find(entries, id).value.payload| <= l.maxEntryBytes
  {
    if entries[0].identity != id {
      FoundIsSized(entries[1..], id, l);
    }
  }

  /** The entry just inserted is resident with its bytes; every other entry either
      survives unchanged or was among the least recent ones evicted. */
  lemma InsertSpec(entries: seq<Entry>, e: Entry, l: Limits)
    requires ValidLimits(l) && Distinct(entries) && Sized(entries, l) && 0 < |e.payload| <= l.maxEntryBytes
    ensures var kept := Insert(entries, e, l);
            && Distinct(kept) && Sized(kept, l) && Fits(kept, l)
            && Find(kept, e.identity) == Some(e)
            && LongestFittingSuffix(Promote(entries, e), kept, l)
  {
    var w := Without(entries, e.identity);
    WithoutShape(entries, e.identity, l);
    WithoutFind(entries, e.identity, e.identity);
    AppendShape(w, e, l);
    EvictKeepsNewest(w, e, l);
    EvictIsMinimal(w + [e], l);
  }

  lemma GetKeepsWellFormed(s: Lru, l: Limits, id: Identity, r: Reading)
    requires WellFormed(s, l)
    ensures WellFormed(Get(s, id, r).0, l)
    ensures Get(s, id, r).1.Ok? && Get(s, id, r).1.value.Some? ==> SameContents(Get(s, id, r).0.entries, s.entries)
  {
    WithoutShape(s.entries, id, l);
    if Find(s.entries, id).Some? {
      FoundIsSized(s.entries, id, l);
      PromoteKeeps(s.entries, Find(s.entries, id).value, l);
    }
  }

  /** Both limits hold after every put.  "rejected" is answered only for an oversized
      payload: the final residency test cannot fail.  A live entry is never overwritten,
      and a put that does not store keeps the same contents. */
  lemma PutSpec(s: Lru, l: Limits, id: Identity, deployment: string, payload: Bytes, r: Reading)
    requires WellFormed(s, l)
    ensures var (s', out) := Put(s, l, id, deployment, payload, r);
            && WellFormed(s', l)
            && (out == Ok(Rejected) <==> payload != [] && |payload| > l.maxEntryBytes)
            && (out != Ok(Stored) ==> SameContents(s'.entries, s.entries) && s'.evictions == s.evictions)
            && (out == Ok(Stored) ==>
                  && Now(s, r).1.Ok?
                  && Find(s'.entries, id) == Some(Entry(id, deployment, payload, Now(s, r).1.value + l.ttl))
                  && !(Find(s.entries, id).Some? && Find(s.entries, id).value.expiresAt > Now(s, r).1.value))
  {
    var found := Find(s.entries, id);
    var now := Now(s, r).1;
    if payload != [] && |payload| <= l.maxEntryBytes && !s.closed && now.Ok? {
      if found.Some? && found.value.expiresAt > now.value {
        FoundIsSized(s.entries, id, l);
        PromoteKeeps(s.entries, found.value, l);
      } else {
        InsertSpec(s.entries, Entry(id, deployment, payload, now.value + l.ttl), l);
      }
    }
  }

  /** What a stored entry is for: a later read before its expiry, with no other call in
      between, returns exactly the stored bytes; at or after the expiry it misses. */
  lemma PutThenGet(s: Lru, l: Limits, id: Identity, deployment: string, payload: Bytes, r: Reading, later: Reading)
    requires WellFormed(s, l) && r.Reads? && later.Reads? && r.seconds <= later.seconds
    requires Put(s, l, id, deployment, payload, r).1 == Ok(Stored)
    ensures var s' := Put(s, l, id, deployment, payload, r).0;
            Get(s', id, later).1 ==
              if later.seconds < r.seconds + l.ttl
              then Ok(Some(Entry(id, deployment, payload, r.seconds + l.ttl)))
              else Ok(None)
  {
    PutSpec(s, l, id, deployment, payload, r);
  }

  function Doomed(entries: seq<Entry>, keep: Entry -> bool): seq<Identity> {
    if entries == [] then []
    else if keep(entries[0]) then Doomed(entries[1..], keep)
    else [entries[0].identity] + Doomed(entries[1..], keep)
  }

  lemma {:induction false} DoomedAreFound(entries: seq<Entry>, keep: Entry -> bool, id: Identity)
    requires Distinct(entries) && id in Doomed(entries, keep)
    ensures Find(entries, id).Some?
  {
    if entries[0].identity != id {
      DoomedAreFound(entries[1..], keep, id);
    }
  }

  /** Removing the first doomed entry leaves the other doomed ones and the kept ones. */
  lemma {:induction false} RemoveDoomed(entries: seq<Entry>, keep: Entry -> bool)
    requires Distinct(entries) && Doomed(entries, keep) != []
    ensures var rest := Without(entries, Doomed(entries, keep)[0]);
            Doomed(rest, keep) == Doomed(entries, keep)[1..] && Keep(rest, keep) == Keep(entries, keep)
  {
    if keep(entries[0]) {
      var id := Doomed(entries[1..], keep)[0];
      DoomedAreFound(entries[1..], keep, id);
      assert entries[0].identity != id;
      var rest := Without(entries, id);
      assert rest[1..] == Without(entries[1..], id);
      RemoveDoomed(entries[1..], keep);
    }
  }

  lemma {:induction false} NoneDoomed(entries: seq<Entry>, keep: Entry -> bool)
    requires Doomed(entries, keep) == []
    ensures Keep(entries, keep) == entries
  {
    if entries != [] {
      NoneDoomed(entries[1..], keep);
    }
  }

  // -------------------------------------------------------------------- recency

  /** The entries of other identities, in their order. */
  function Others(entries: seq<Entry>, id: Identity): seq<Entry> {
    Keep(entries, (e: Entry) => e.identity != id)
  }

  lemma {:induction false} WithoutIsOthers(entries: seq<Entry>, id: Identity)
    requires Distinct(entries)
    ensures Without(entries, id) == Others(entries, id)
  {
    if entries != [] {
      if entries[0].identity == id {
        AbsentOthers(entries[1..], id);
      } else {
        WithoutIsOthers(entries[1..], id);
      }
    }
  }

  lemma {:induction false} AbsentOthers(entries: seq<Entry>, id: Identity)
    requires Find(entries, id).None?
    ensures Others(entries, id) == entries
  {
    if entries != [] {
      AbsentOthers(entries[1..], id);
    }
  }

  /** A hit leaves the entry last and the others in their order; a miss moves nothing, and
      takes out at most the expired entry. */
  lemma GetMovesLast(s: Lru, l: Limits, id: Identity, r: Reading)
    requires WellFormed(s, l)
    ensures var (s', out) := Get(s, id, r);
            && (out.Ok? && out.value.Some? ==>
                  Find(s.entries, id) == out.value && s'.entries == Others(s.entries, id) + [out.value.value])
            && (!s.closed && Now(s, r).1.Ok? ==>
                  var found := Find(s.entries, id);
                  out == Ok(if found.Some? && found.value.expiresAt > Now(s, r).1.value then found else None))
            && (out == Ok(None) ==> s'.entries == Others(s.entries, id))
            && (out.Raised? ==> s'.entries == s.entries)
  {
    WithoutIsOthers(s.entries, id);
    FindIdentity(s.entries, id);
    if Find(s.entries, id).None? {
      AbsentOthers(s.entries, id);
    }
  }

  /** So does a put that finds a live entry; one that stores puts its own entry last, after
      the recent end of the others. */
  lemma PutMovesLast(s: Lru, l: Limits, id: Identity, deployment: string, payload: Bytes, r: Reading)
    requires WellFormed(s, l)
    ensures var (s', out) := Put(s, l, id, deployment, payload, r);
            && (out == Ok(Present) ==>
                  Find(s.entries, id).Some? && s'.entries == Others(s.entries, id) + [Find(s.entries, id).value])
            && (out == Ok(Stored) ==>
                  var others := Others(s.entries, id);
                  && 0 < |s'.entries| <= |others| + 1
                  && s'.entries[|s'.entries| - 1] == Entry(id, deployment, payload, Now(s, r).1.value + l.ttl)
                  && s'.entries[..|s'.entries| - 1] == others[|others| + 1 - |s'.entries|..])
            && (out.Raised? || out == Ok(Rejected) ==> s'.entries == s.entries)
  {
    WithoutIsOthers(s.entries, id);
    FindIdentity(s.entries, id);
    var (s', out) := Put(s, l, id, deployment, payload, r);
    if out == Ok(Stored) {
      var e := Entry(id, deployment, payload, Now(s, r).1.value + l.ttl);
      InsertSpec(s.entries, e, l);
      var all := Others(s.entries, id) + [e];
      assert s'.entries == all[|all| - |s'.entries|..];
    }
  }

  /** The calls of a user, and the removals of invalidations, deletes and expiry sweeps. */
  datatype Call =
    | GetCall(id: Identity, reading: Reading)
    | PutCall(id: Identity, deployment: string, payload: Bytes, reading: Reading)
    | RemoveCall(keep: Entry -> bool)

  function Step(s: Lru, l: Limits, c: Call): Lru {
    match c
    case GetCall(id, r) => Get(s, id, r).0
    case PutCall(id, deployment, payload, r) => Put(s, l, id, deployment, payload, r).0
    case RemoveCall(keep) => s.(entries := Keep(s.entries, keep))
  }

  /** The identity a call uses: read by a hit, stored, or found present by a put. */
  function Used(s: Lru, l: Limits, c: Call): Option<Identity> {
    match c
    case GetCall(id, r) =>
      var out := Get(s, id, r).1;
      if out.Ok? && out.value.Some? then Some(id) else None
    case PutCall(id, deployment, payload, r) =>
      if Put(s, l, id, deployment, payload, r).1 in {Ok(Stored), Ok(Present)} then Some(id) else None
    case RemoveCall(_) => None
  }

  function After(l: Limits, calls: seq<Call>): Lru
    decreases |calls|
  {
    if calls == [] then Lru([], 0, None, false) else Step(After(l, calls[..|calls| - 1]), l, calls[|calls| - 1])
  }

  /** The number of the last call that used the identity, counting from 1; 0 for none. */
  function LastUse(l: Limits, calls: seq<Call>, id: Identity): (n: nat)
    ensures n <= |calls|
    decreases |calls|
  {
    if calls == [] then 0
    else
      var before := calls[..|calls| - 1];
      if Used(After(l, before), l, calls[|calls| - 1]) == Some(id) then |calls| else LastUse(l, before, id)
  }

  /** From the least recent to the most recent, the last uses rise from above `floor`. */
  predicate Ascending(l: Limits, calls: seq<Call>, entries: seq<Entry>, floor: nat)
    decreases |entries|
  {
    entries == [] || (floor < LastUse(l, calls, entries[0].identity)
                      && Ascending(l, calls, entries[1..], LastUse(l, calls, entries[0].identity)))
  }

  lemma {:induction false} AscendingLower(l: Limits, calls: seq<Call>, entries: seq<Entry>, floor: nat, lower: nat)
    requires Ascending(l, calls, entries, floor) && lower <= floor
    ensures Ascending(l, calls, entries, lower)
  {
  }

  lemma {:induction false} AscendingKeep(l: Limits, calls: seq<Call>, entries: seq<Entry>, floor: nat, keep: Entry -> bool)
    requires Ascending(l, calls, entries, floor)
    ensures Ascending(l, calls, Keep(entries, keep), floor)
    decreases |entries|
  {
    if entries != [] {
      var use := LastUse(l, calls, entries[0].identity);
      AscendingKeep(l, calls, entries[1..], use, keep);
      if keep(entries[0]) {
        assert Keep(entries, keep)[1..] == Keep(entries[1..], keep);
      } else {
        AscendingLower(l, calls, Keep(entries[1..], keep), use, floor);
      }
    }
  }

  lemma {:induction false} AscendingSuffix(l: Limits, calls: seq<Call>, entries: seq<Entry>, floor: nat, n: nat)
    requires Ascending(l, calls, entries, floor) && n <= |entries|
    ensures Ascending(l, calls, entries[n..], floor)
    decreases n
  {
    if n > 0 {
      var use := LastUse(l, calls, entries[0].identity);
      AscendingSuffix(l, calls, entries[1..], use, n - 1);
      assert entries[1..][n - 1..] == entries[n..];
      AscendingLower(l, calls, entries[n..], use, floor);
    }
  }

  /** One more call leaves the last uses of the identities it does not use. */
  lemma {:induction false} AscendingOneMore(l: Limits, calls: seq<Call>, c: Call, entries: seq<Entry>, floor: nat)
    requires Ascending(l, calls, entries, floor)
    requires var used := Used(After(l, calls), l, c); used.Some? ==> Find(entries, used.value).None?
    ensures Ascending(l, calls + [c], entries, floor)
    decreases |entries|
  {
    assert (calls + [c])[..|calls|] == calls;
    if entries != [] {
      AscendingOneMore(l, calls, c, entries[1..], LastUse(l, calls, entries[0].identity));
    }
  }

  lemma {:induction false} AscendingAppend(l: Limits, calls: seq<Call>, entries: seq<Entry>, floor: nat, e: Entry, top: nat)
    requires Ascending(l, calls, entries, floor) && floor <= top < LastUse(l, calls, e.identity)
    requires forall k :: 0 <= k < |entries| ==> LastUse(l, calls, entries[k].identity) <= top
    ensures Ascending(l, calls, entries + [e], floor)
    decreases |entries|
  {
    if entries == [] {
      assert (entries + [e])[1..] == [];
    } else {
      assert (entries + [e])[1..] == entries[1..] + [e];
      AscendingAppend(l, calls, entries[1..], LastUse(l, calls, entries[0].identity), e, top);
    }
  }

  lemma {:induction false} OthersAbsent(entries: seq<Entry>, id: Identity)
    ensures Find(Others(entries, id), id).None?
  {
    if entries != [] {
      OthersAbsent(entries[1..], id);
    }
  }

  lemma {:induction false} NotAmong(entries: seq<Entry>, id: Identity, k: nat)
    requires Find(entries, id).None? && k < |entries|
    ensures entries[k].identity != id
  {
    if k > 0 {
      NotAmong(entries[1..], id, k - 1);
    }
  }

  lemma {:induction false} AbsentSuffix(entries: seq<Entry>, id: Identity, n: nat)
    requires Find(entries, id).None? && n <= |entries|
    ensures Find(entries[n..], id).None?
  {
    if n > 0 {
      AbsentSuffix(entries[1..], id, n - 1);
      assert entries[1..][n - 1..] == entries[n..];
    }
  }

  /** A call that uses an identity puts it last, after entries not used since. */
  lemma UseAscends(l: Limits, calls: seq<Call>, c: Call, n: nat, e: Entry)
    requires var s := After(l, calls);
             Ascending(l, calls, s.entries, 0) && Used(s, l, c) == Some(e.identity) && n <= |Others(s.entries, e.identity)|
    ensures Ascending(l, calls + [c], Others(After(l, calls).entries, e.identity)[n..] + [e], 0)
  {
    var s := After(l, calls);
    var rest := Others(s.entries, e.identity);
    AscendingKeep(l, calls, s.entries, 0, (x: Entry) => x.identity != e.identity);
    AscendingSuffix(l, calls, rest, 0, n);
    OthersAbsent(s.entries, e.identity);
    AbsentSuffix(rest, e.identity, n);
    AscendingOneMore(l, calls, c, rest[n..], 0);
    assert (calls + [c])[..|calls|] == calls;
    forall k | 0 <= k < |rest[n..]| ensures LastUse(l, calls + [c], rest[n..][k].identity) <= |calls| {
      NotAmong(rest[n..], e.identity, k);
    }
    AscendingAppend(l, calls + [c], rest[n..], 0, e, |calls|);
  }

  lemma GetAscends(l: Limits, calls: seq<Call>, id: Identity, r: Reading)
    requires var s := After(l, calls); WellFormed(s, l) && Ascending(l, calls, s.entries, 0)
    ensures Ascending(l, calls + [GetCall(id, r)], Get(After(l, calls), id, r).0.entries, 0)
  {
    var s := After(l, calls);
    var (s', out) := Get(s, id, r);
    GetMovesLast(s, l, id, r);
    FindIdentity(s.entries, id);
    if out.Ok? && out.value.Some? {
      UseAscends(l, calls, GetCall(id, r), 0, out.value.value);
      assert Others(s.entries, id)[0..] == Others(s.entries, id);
    } else {
      AscendingKeep(l, calls, s.entries, 0, (x: Entry) => x.identity != id);
      AscendingOneMore(l, calls, GetCall(id, r), s'.entries, 0);
    }
  }

  /** A put that uses the identity: a recent part of the others, then its entry. */
  lemma PutEnds(s: Lru, l: Limits, id: Identity, deployment: string, payload: Bytes, r: Reading) returns (n: nat, last: Entry)
    requires WellFormed(s, l) && Put(s, l, id, deployment, payload, r).1 in {Ok(Stored), Ok(Present)}
    ensures n <= |Others(s.entries, id)| && last.identity == id
    ensures Put(s, l, id, deployment, payload, r).0.entries == Others(s.entries, id)[n..] + [last]
  {
    PutMovesLast(s, l, id, deployment, payload, r);
    FindIdentity(s.entries, id);
    var entries, others := Put(s, l, id, deployment, payload, r).0.entries, Others(s.entries, id);
    n, last := |others| + 1 - |entries|, entries[|entries| - 1];
    assert entries == entries[..|entries| - 1] + [last];
  }

  lemma PutUnchanged(s: Lru, l: Limits, id: Identity, deployment: string, payload: Bytes, r: Reading)
    requires WellFormed(s, l) && Put(s, l, id, deployment, payload, r).1 !in {Ok(Stored), Ok(Present)}
    ensures Put(s, l, id, deployment, payload, r).0.entries == s.entries
  {
    PutMovesLast(s, l, id, deployment, payload, r);
  }

  lemma PutAscends(l: Limits, calls: seq<Call>, c: Call)
    requires c.PutCall?
    requires var s := After(l, calls); WellFormed(s, l) && Ascending(l, calls, s.entries, 0)
    ensures Ascending(l, calls + [c], Step(After(l, calls), l, c).entries, 0)
  {
    var s := After(l, calls);
    var used := Used(s, l, c);
    if used.Some? {
      var n, last := PutEnds(s, l, c.id, c.deployment, c.payload, c.reading);
      assert used == Some(last.identity);
      UseAscends(l, calls, c, n, last);
      assert Step(s, l, c).entries == Others(s.entries, last.identity)[n..] + [last];
    } else {
      PutUnchanged(s, l, c.id, c.deployment, c.payload, c.reading);
      assert Step(s, l, c).entries == s.entries;
      AscendingOneMore(l, calls, c, s.entries, 0);
    }
  }

  lemma StepAscends(l: Limits, calls: seq<Call>, c: Call)
    requires var s := After(l, calls); WellFormed(s, l) && Ascending(l, calls, s.entries, 0)
    ensures Ascending(l, calls + [c], Step(After(l, calls), l, c).entries, 0)
  {
    match c
    case GetCall(id, r) => GetAscends(l, calls, id, r);
    case PutCall(_, _, _, _) => PutAscends(l, calls, c);
    case RemoveCall(keep) =>
      var entries := After(l, calls).entries;
      AscendingKeep(l, calls, entries, 0, keep);
      AscendingOneMore(l, calls, c, Keep(entries, keep), 0);
  }

  lemma StepKeepsWellFormed(s: Lru, l: Limits, c: Call)
    requires WellFormed(s, l)
    ensures WellFormed(Step(s, l, c), l)
  {
    match c
    case GetCall(id, r) => GetKeepsWellFormed(s, l, id, r);
    case PutCall(id, deployment, payload, r) => PutSpec(s, l, id, deployment, payload, r);
    case RemoveCall(keep) => KeepShape(s.entries, keep, l);
  }

  /** After any calls the entries stand in the order of their last use. */
  lemma {:induction false} RecencyIsLastUse(l: Limits, calls: seq<Call>)
    requires ValidLimits(l)
    ensures WellFormed(After(l, calls), l) && Ascending(l, calls, After(l, calls).entries, 0)
    decreases |calls|
  {
    if calls != [] {
      var before, c := calls[..|calls| - 1], calls[|calls| - 1];
      RecencyIsLastUse(l, before);
      StepKeepsWellFormed(After(l, before), l, c);
      StepAscends(l, before, c);
      assert before + [c] == calls;
    }
  }

  lemma {:induction false} AscendingPair(l: Limits, calls: seq<Call>, entries: seq<Entry>, floor: nat, i: nat, j: nat)
    requires Ascending(l, calls, entries, floor) && i < j < |entries|
    ensures floor < LastUse(l, calls, entries[i].identity) < LastUse(l, calls, entries[j].identity)
  {
    var use := LastUse(l, calls, entries[0].identity);
    if i > 0 {
      AscendingPair(l, calls, entries[1..], use, i - 1, j - 1);
    } else if j > 1 {
      AscendingPair(l, calls, entries[1..], use, 0, j - 1);
    }
  }

  lemma RecentPart(l: Limits, calls: seq<Call>, others: seq<Entry>, n: nat, last: Entry, gone: nat, kept: nat)
    requires n <= |others| && gone < |others| && kept < |others| && Find(others, last.identity).None?
    requires others[gone] !in others[n..] + [last] && others[kept] in others[n..] + [last]
    requires Ascending(l, calls, others, 0)
    ensures LastUse(l, calls, others[gone].identity) < LastUse(l, calls, others[kept].identity)
  {
    forall i | n <= i < |others| ensures others[i] in others[n..] {
      assert others[n..][i - n] == others[i];
    }
    NotAmong(others, last.identity, kept);
    var k :| 0 <= k < |others[n..]| && others[n..][k] == others[kept];
    AscendingPair(l, calls, others, 0, gone, n + k);
  }

  /** Least recently used first: whenever a put evicts, it evicts no entry while keeping
      another that was used less recently. */
  lemma EvictsLeastRecentlyUsed(l: Limits, calls: seq<Call>, id: Identity, deployment: string, payload: Bytes, r: Reading,
                                gone: nat, kept: nat)
    requires ValidLimits(l) && Put(After(l, calls), l, id, deployment, payload, r).1 == Ok(Stored)
    requires var others := Others(After(l, calls).entries, id);
             var entries := Put(After(l, calls), l, id, deployment, payload, r).0.entries;
             gone < |others| && kept < |others| && others[gone] !in entries && others[kept] in entries
    ensures var others := Others(After(l, calls).entries, id);
            LastUse(l, calls, others[gone].identity) < LastUse(l, calls, others[kept].identity)
  {
    var s := After(l, calls);
    RecencyIsLastUse(l, calls);
    var n, last := PutEnds(s, l, id, deployment, payload, r);
    OthersAbsent(s.entries, id);
    AscendingKeep(l, calls, s.entries, 0, (e: Entry) => e.identity != id);
    RecentPart(l, calls, Others(s.entries, id), n, last, gone, kept);
  }

  // ------------------------------------------------------------------- the class

  /** `ControlFoleyMemoryCacheStore`. */
  class Store {
    const limits: Limits
    var entries: seq<Entry>
    var bytesUsed: int
    var evictions: nat
    var lastNow: Option<real>
    var closed: bool

    ghost function Model(): Lru
      reads this
    {
      Lru(entries, evictions, lastNow, closed)
    }

    ghost predicate Valid()
      reads this
    {
      WellFormed(Model(), limits) && bytesUsed == Bytesum(entries)
    }

    constructor (limits: Limits)
      requires ValidLimits(limits)
      ensures Valid() && Model() == Lru([], 0, None, false) && this.limits == limits
    {
      this.limits := limits;
      entries, bytesUsed, evictions, lastNow, closed := [], 0, 0, None, false;
    }

    method ReadClock(r: Reading) returns (now: Outcome<real>)
      modifies this`lastNow
      ensures (Model(), now) == Now(old(Model()), r)
    {
      if r.Invalid? || r.seconds < 0.0 || (lastNow.Some? && r.seconds < lastNow.value) {
        return Raised;
      }
      lastNow := Some(r.seconds);
      now := Ok(r.seconds);
    }

    method Remove(id: Identity)
      requires Distinct(entries) && bytesUsed == Bytesum(entries)
      modifies this`entries, this`bytesUsed
      ensures entries == Without(old(entries), id) && bytesUsed == Bytesum(entries)
    {
      WithoutShape(entries, id, limits);
      var found := Find(entries, id);
      if found.Some? {
        bytesUsed := bytesUsed - |found.value.payload|;
      }
      entries := Without(entries, id);
    }

    method MoveToEnd(e: Entry)
      requires Distinct(entries) && bytesUsed == Bytesum(entries)
      modifies this`entries, this`bytesUsed
      ensures entries == Promote(old(entries), e) && bytesUsed == Bytesum(entries)
    {
      Remove(e.identity);
      AppendShape(entries, e, limits);
      entries, bytesUsed := entries + [e], bytesUsed + |e.payload|;
    }

    method EvictToLimits()
      requires bytesUsed == Bytesum(entries)
      modifies this`entries, this`bytesUsed, this`evictions
      ensures entries == Evict(old(entries), limits) && bytesUsed == Bytesum(entries)
      ensures evictions + |entries| == old(evictions) + |old(entries)|
    {
      while |entries| > limits.maxEntries || bytesUsed > limits.maxTotalBytes
        invariant Evict(entries, limits) == Evict(old(entries), limits) && bytesUsed == Bytesum(entries)
        invariant evictions + |entries| == old(evictions) + |old(entries)|
        decreases |entries|
      {
        bytesUsed := bytesUsed - |entries[0].payload|;
        entries := entries[1..];
        evictions := evictions + 1;
      }
    }

    method GetEntry(id: Identity, r: Reading) returns (out: Outcome<Option<Entry>>)
      requires Valid()
      modifies this
      ensures Valid() && (Model(), out) == Get(old(Model()), id, r)
    {
      GetKeepsWellFormed(Model(), limits, id, r);
      FindIdentity(entries, id);
      var found := Find(entries, id);
      if closed {
        return Raised;
      }
      if found.None? {
        return Ok(None);
      }
      var now := ReadClock(r);
      if now.Raised? {
        return Raised;
      }
      if found.value.expiresAt <= now.value {
        Remove(id);
        return Ok(None);
      }
      MoveToEnd(found.value);
      out := Ok(found);
    }

    method PutIfAbsent(id: Identity, deployment: string, payload: Bytes, r: Reading) returns (out: Outcome<PutResult>)
      requires Valid()
      modifies this
      ensures Valid() && (Model(), out) == Put(old(Model()), limits, id, deployment, payload, r)
    {
      PutSpec(Model(), limits, id, deployment, payload, r);
      if payload == [] {
        return Raised;
      }
      if |payload| > limits.maxEntryBytes {
        return Ok(Rejected);
      }
      if closed {
        return Raised;
      }
      var now := ReadClock(r);
      if now.Raised? {
        return Raised;
      }
      FindIdentity(entries, id);
      var found := Find(entries, id);
      if found.Some? && found.value.expiresAt > now.value {
        MoveToEnd(found.value);
        return Ok(Present);
      }
      var entry := Entry(id, deployment, payload, now.value + limits.ttl);
      MoveToEnd(entry);
      EvictToLimits();
      out := if Find(entries, id).Some? then Ok(Stored) else Ok(Rejected);
    }

    /** Also the shape of an expiry sweep: `snapshot` removes what `keep` refuses. */
    method RemoveWhere(ghost keep: Entry -> bool, doomed: seq<Identity>)
      requires Valid() && doomed == Doomed(entries, keep)
      modifies this`entries, this`bytesUsed
      ensures Valid() && entries == Keep(old(entries), keep)
    {
      ghost var start := entries;
      KeepShape(start, keep, limits);
      var k := 0;
      while k < |doomed|
        invariant 0 <= k <= |doomed| && Distinct(entries) && bytesUsed == Bytesum(entries)
        invariant Doomed(entries, keep) == doomed[k..] && Keep(entries, keep) == Keep(start, keep)
      {
        WithoutShape(entries, doomed[k], limits);
        RemoveDoomed(entries, keep);
        Remove(doomed[k]);
        k := k + 1;
      }
      NoneDoomed(entries, keep);
    }

    method InvalidateDeployment(fingerprint: string) returns (count: Outcome<nat>)
      requires Valid()
      modifies this
      ensures Valid() && evictions == old(evictions) && closed == old(closed) && lastNow == old(lastNow)
      ensures closed ==> count.Raised? && entries == old(entries)
      ensures !closed ==> entries == Keep(old(entries), (e: Entry) => e.deployment != fingerprint)
      ensures !closed ==> count.Ok? && count.value == |Doomed(old(entries), (e: Entry) => e.deployment != fingerprint)|
    {
      if closed {
        return Raised;
      }
      var keep := (e: Entry) => e.deployment != fingerprint;
      var doomed := Doomed(entries, keep);
      RemoveWhere(keep, doomed);
      count := Ok(|doomed|);
    }

    method Snapshot(r: Reading) returns (used: Outcome<(nat, int, nat)>)
      requires Valid()
      modifies this
      ensures Valid()
      ensures closed == old(closed) && evictions == old(evictions)
      ensures used.Ok? ==> used.value == (|entries|, bytesUsed, evictions)
      ensures used.Ok? ==> r.Reads? && entries == Keep(old(entries), (e: Entry) => e.expiresAt > r.seconds)
      ensures used.Raised? ==> entries == old(entries)
    {
      if closed {
        return Raised;
      }
      var now := ReadClock(r);
      if now.Raised? {
        return Raised;
      }
      var keep := (e: Entry) => e.expiresAt > r.seconds;
      RemoveWhere(keep, Doomed(entries, keep));
      used := Ok((|entries|, bytesUsed, evictions));
    }

    method Close()
      requires Valid()
      modifies this
      ensures Valid() && closed && entries == [] && bytesUsed == 0
    {
      entries, bytesUsed, closed := [], 0, true;
    }
  }
}
