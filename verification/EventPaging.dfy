/** Cursor paging over an append-only event log, and the remote node's wait loop. */
module EventPaging {
  import opened Common

  datatype Event = Event(id: nat, job: string, kind: string)

  /** The log in the order of its serial ids. */
  type Log = seq<Event>

  /** Ids grow, above `low` and below 2^63 (a signed 64-bit serial). */
  predicate Ordered(log: Log, low: nat) {
    log == [] || (low < log[0].id < 0x8000_0000_0000_0000 && Ordered(log[1..], log[0].id))
  }

  lemma {:induction false} OrderedAt(log: Log, low: nat, k: nat)
    requires Ordered(log, low) && k < |log|
    ensures low < log[k].id < 0x8000_0000_0000_0000
  {
    if k > 0 {
      OrderedAt(log[1..], log[0].id, k - 1);
    }
  }

  lemma OrderedBelow(log: Log, low: nat, lower: nat)
    requires Ordered(log, low) && lower <= low
    ensures Ordered(log, lower)
  {
  }

  predicate Wanted(e: Event, job: string, kinds: set<string>, after: nat) {
    e.job == job && e.id > after && e.kind in kinds
  }

  /** The query's WHERE clause in id order. */
  function Matching(log: Log, job: string, kinds: set<string>, after: nat): Log {
    if log == [] then []
    else (if Wanted(log[0], job, kinds, after) then [log[0]] else []) + Matching(log[1..], job, kinds, after)
  }

  /** An event matches exactly when it is in the log, of this job, of a requested kind and
      after the cursor. */
  lemma {:induction false} MatchesExactly(log: Log, job: string, kinds: set<string>, after: nat, e: Event)
    ensures e in Matching(log, job, kinds, after) <==> e in log && e.job == job && e.kind in kinds && e.id > after
  {
    if log != [] {
      MatchesExactly(log[1..], job, kinds, after, e);
      assert e in log <==> e == log[0] || e in log[1..];
    }
  }

  function Take(log: Log, n: nat): Log {
    if |log| <= n then log else log[..n]
  }

  lemma {:induction false} MatchingAppend(a: Log, b: Log, job: string, kinds: set<string>, after: nat)
    ensures Matching(a + b, job, kinds, after) == Matching(a, job, kinds, after) + Matching(b, job, kinds, after)
  {
    if a == [] {
      assert a + b == b;
    } else {
      assert (a + b)[1..] == a[1..] + b;
      MatchingAppend(a[1..], b, job, kinds, after);
      var head := if Wanted(a[0], job, kinds, after) then [a[0]] else [];
      var left, right := Matching(a[1..], job, kinds, after), Matching(b, job, kinds, after);
      assert head + (left + right) == (head + left) + right;
    }
  }

  lemma {:induction false} MatchingOrdered(log: Log, low: nat, job: string, kinds: set<string>, after: nat)
    requires Ordered(log, low)
    ensures Ordered(Matching(log, job, kinds, after), low)
  {
    if log != [] {
      var rest := Matching(log[1..], job, kinds, after);
      MatchingOrdered(log[1..], log[0].id, job, kinds, after);
      if Wanted(log[0], job, kinds, after) {
        assert ([log[0]] + rest)[1..] == rest;
      } else {
        assert Matching(log, job, kinds, after) == rest;
        OrderedBelow(rest, log[0].id, low);
      }
    }
  }

  /** Asking for all ids above a or b is the same when both lie below the log. */
  lemma {:induction false} SameAfter(log: Log, low: nat, job: string, kinds: set<string>, a: nat, b: nat)
    requires Ordered(log, low) && a <= low && b <= low
    ensures Matching(log, job, kinds, a) == Matching(log, job, kinds, b)
  {
    if log != [] {
      OrderedBelow(log[1..], log[0].id, low);
      SameAfter(log[1..], low, job, kinds, a, b);
    }
  }

  /** Asking for what lies after the k-th match gives exactly the matches from k on. */
  lemma {:induction false} MatchingAfter(log: Log, low: nat, job: string, kinds: set<string>, k: nat)
    requires Ordered(log, low) && 0 < k <= |Matching(log, job, kinds, low)|
    ensures Matching(log, job, kinds, Matching(log, job, kinds, low)[k - 1].id) == Matching(log, job, kinds, low)[k..]
  {
    var id, all := log[0].id, Matching(log, job, kinds, low);
    var rest := Matching(log[1..], job, kinds, id);
    OrderedBelow(log[1..], id, low);
    SameAfter(log[1..], id, job, kinds, low, id);
    var wanted := Wanted(log[0], job, kinds, low);
    assert all == (if wanted then [log[0]] else []) + rest;
    if wanted && k == 1 {
      assert all[1..] == rest;
    } else {
      var j := if wanted then k - 1 else k;
      assert all[k..] == rest[j..] && all[k - 1] == rest[j - 1];
      MatchingOrdered(log[1..], id, job, kinds, id);
      OrderedAt(rest, id, j - 1);
      MatchingAfter(log[1..], id, job, kinds, j);
    }
  }

  // -------------------------------------------------------------------------- cursors

  function Digit(d: nat): char
    requires d < 10
  {
    ('0' as int + d) as char
  }

  /** `str` of a natural number. */
  function Decimal(n: nat): (s: string)
    ensures s != [] && forall k :: 0 <= k < |s| ==> '0' <= s[k] <= '9'
  {
    if n < 10 then [Digit(n)] else Decimal(n / 10) + [Digit(n % 10)]
  }

  /** `int` of a string of decimal digits. */
  function Parse(s: string): nat
    requires forall k :: 0 <= k < |s| ==> '0' <= s[k] <= '9'
  {
    if s == [] then 0 else 10 * Parse(s[..|s| - 1]) + (s[|s| - 1] as int - '0' as int)
  }

  /** The validator of the service, of the repository and of the remote node. */
  predicate ValidCursor(s: string) {
    0 < |s| <= 20 && (forall k :: 0 <= k < |s| ==> '0' <= s[k] <= '9') && s == Decimal(Parse(s))
  }

  lemma {:induction false} ParseDecimal(n: nat)
    ensures Parse(Decimal(n)) == n
  {
    if n >= 10 {
      ParseDecimal(n / 10);
      assert Decimal(n)[..|Decimal(n)| - 1] == Decimal(n / 10);
    }
  }

  function TenTo(k: nat): nat {
    if k == 0 then 1 else 10 * TenTo(k - 1)
  }

  lemma {:induction false} DecimalLength(n: nat, k: nat)
    requires n < TenTo(k) && k > 0
    ensures |Decimal(n)| <= k
  {
    if n >= 10 {
      DecimalLength(n / 10, k - 1);
    }
  }

  /** Every cursor the service emits is accepted again, and stands for its own event. */
  lemma EmittedCursorIsValid(id: nat)
    requires id < 0x8000_0000_0000_0000
    ensures ValidCursor(Decimal(id)) && Parse(Decimal(id)) == id
  {
    ParseDecimal(id);
    assert TenTo(5) == 100000 && TenTo(10) == TenTo(5) * 100000 by {
      assert TenTo(6) == 10 * TenTo(5) && TenTo(7) == 10 * TenTo(6) && TenTo(8) == 10 * TenTo(7) && TenTo(9) == 10 * TenTo(8);
    }
    assert TenTo(11) == 10 * TenTo(10) && TenTo(12) == 10 * TenTo(11) && TenTo(13) == 10 * TenTo(12)
           && TenTo(14) == 10 * TenTo(13) && TenTo(15) == 10 * TenTo(14);
    assert TenTo(16) == 10 * TenTo(15) && TenTo(17) == 10 * TenTo(16) && TenTo(18) == 10 * TenTo(17)
           && TenTo(19) == 10 * TenTo(18) && TenTo(20) == 10 * TenTo(19);
    DecimalLength(id, 20);
  }

  // ---------------------------------------------------------------------------- pages

  datatype Page = Page(events: Log, next: Option<string>)

  /** `list_events`. */
  function ListEvents(log: Log, job: string, kinds: set<string>, cursor: Option<string>, limit: nat): Option<Log> {
    if (cursor.Some? && !ValidCursor(cursor.value)) || limit < 1 || limit > 101 then None
    else Some(Take(Matching(log, job, kinds, if cursor.Some? then Parse(cursor.value) else 0), limit))
  }

  /** `ApplicationService.events`: one row more than asked for tells whether to go on. */
  function Events(log: Log, job: string, kinds: set<string>, cursor: Option<string>, limit: nat): Option<Page> {
    if (cursor.Some? && !ValidCursor(cursor.value)) || limit < 1 || limit > 100 then None
    else Some(PageOf(ListEvents(log, job, kinds, cursor, limit + 1).value, limit))
  }

  function PageOf(rows: Log, limit: nat): Page
    requires limit > 0
  {
    var visible := Take(rows, limit);
    Page(visible, if |rows| > limit then Some(Decimal(visible[|visible| - 1].id)) else None)
  }

  /** The reader's position after n matching events. */
  function CursorAt(log: Log, job: string, kinds: set<string>, n: nat): Option<string> {
    CursorOf(Matching(log, job, kinds, 0), n)
  }

  function CursorOf(all: Log, n: nat): Option<string> {
    if n == 0 || n > |all| then None else Some(Decimal(all[n - 1].id))
  }

  function Reached(all: Log, n: nat, limit: nat): nat {
    if n + limit < |all| then n + limit else |all|
  }

  lemma PageOfTail(all: Log, n: nat, limit: nat)
    requires n <= |all| && limit > 0
    ensures var reached := Reached(all, n, limit);
            PageOf(Take(all[n..], limit + 1), limit)
            == Page(all[n..reached], if reached < |all| then Some(Decimal(all[reached - 1].id)) else None)
  {
  }

  lemma RowsAt(log: Log, job: string, kinds: set<string>, n: nat)
    requires Ordered(log, 0) && n <= |Matching(log, job, kinds, 0)|
    ensures var cursor := CursorAt(log, job, kinds, n);
            && (cursor.Some? ==> ValidCursor(cursor.value))
            && Matching(log, job, kinds, if cursor.Some? then Parse(cursor.value) else 0) == Matching(log, job, kinds, 0)[n..]
  {
    var all := Matching(log, job, kinds, 0);
    MatchingOrdered(log, 0, job, kinds, 0);
    if n > 0 {
      OrderedAt(all, 0, n - 1);
      EmittedCursorIsValid(all[n - 1].id);
      MatchingAfter(log, 0, job, kinds, n);
    } else {
      assert all[0..] == all;
    }
  }

  /** One page from position n of a log: the next matches, none skipped or repeated; a
      next cursor exactly when matches remain, and it is the position reached. */
  lemma PageAdvances(log: Log, job: string, kinds: set<string>, n: nat, limit: nat)
    requires Ordered(log, 0) && 1 <= limit <= 100 && n <= |Matching(log, job, kinds, 0)|
    ensures var all := Matching(log, job, kinds, 0);
            var page := Events(log, job, kinds, CursorAt(log, job, kinds, n), limit);
            var reached := Reached(all, n, limit);
            && page.Some? && page.value.events == all[n..reached]
            && page.value.next == if reached < |all| then CursorAt(log, job, kinds, reached) else None
  {
    var cursor := CursorAt(log, job, kinds, n);
    RowsAt(log, job, kinds, n);
    PageOfTail(Matching(log, job, kinds, 0), n, limit);
    assert ListEvents(log, job, kinds, cursor, limit + 1) == Some(Take(Matching(log, job, kinds, 0)[n..], limit + 1));
  }

  /** Appending events moves no position: earlier matches stay where they are. */
  lemma AppendKeepsPosition(log: Log, more: Log, job: string, kinds: set<string>, n: nat)
    requires n <= |Matching(log, job, kinds, 0)|
    ensures var all := Matching(log + more, job, kinds, 0);
            && n <= |all| && all[..n] == Matching(log, job, kinds, 0)[..n]
            && CursorAt(log + more, job, kinds, n) == CursorAt(log, job, kinds, n)
  {
    MatchingAppend(log, more, job, kinds, 0);
    var all := Matching(log + more, job, kinds, 0);
    assert all[..n] == Matching(log, job, kinds, 0)[..n];
  }

  /** Where a reader stands: it has the first matches, and its cursor is their number. */
  predicate Reading(log: Log, job: string, kinds: set<string>, events: Log, cursor: Option<string>) {
    var all := Matching(log, job, kinds, 0);
    |events| <= |all| && events == all[..|events|] && cursor == CursorAt(log, job, kinds, |events|)
  }

  lemma ReadingGoesOn(log: Log, job: string, kinds: set<string>, events: Log, cursor: Option<string>, limit: nat)
    requires Ordered(log, 0) && 1 <= limit <= 100 && Reading(log, job, kinds, events, cursor)
    ensures Events(log, job, kinds, cursor, limit).Some?
    ensures var all := Matching(log, job, kinds, 0);
            var page := Events(log, job, kinds, cursor, limit).value;
            if page.next.Some?
            then Reading(log, job, kinds, events + page.events, page.next) && |page.events| > 0 && |events + page.events| < |all|
            else events + page.events == all
  {
    var all := Matching(log, job, kinds, 0);
    var n := |events|;
    PageAdvances(log, job, kinds, n, limit);
    assert all[..n] + all[n..Reached(all, n, limit)] == all[..Reached(all, n, limit)];
  }

  /** A page holds events of the job only, of the kinds asked for, from after the cursor. */
  lemma PageMembers(log: Log, job: string, kinds: set<string>, cursor: Option<string>, limit: nat, e: Event)
    requires Events(log, job, kinds, cursor, limit).Some?
    ensures e in Events(log, job, kinds, cursor, limit).value.events ==>
              e in log && e.job == job && e.kind in kinds && e.id > if cursor.Some? then Parse(cursor.value) else 0
  {
    MatchesExactly(log, job, kinds, if cursor.Some? then Parse(cursor.value) else 0, e);
  }

  /** The reader's loop over pages of one log: lossless, in order, without repetition, and
      it ends because the number of matches left goes down with every page. */
  method ReadAll(log: Log, job: string, kinds: set<string>, limit: nat) returns (events: Log)
    requires Ordered(log, 0) && 1 <= limit <= 100
    ensures events == Matching(log, job, kinds, 0)
    ensures forall e :: e in events <==> e in log && e.job == job && e.kind in kinds
    ensures Ordered(events, 0)
  {
    forall e ensures e in Matching(log, job, kinds, 0) <==> e in log && e.job == job && e.kind in kinds {
      MatchesExactly(log, job, kinds, 0, e);
      if k :| 0 <= k < |log| && log[k] == e {
        OrderedAt(log, 0, k);
      }
    }
    MatchingOrdered(log, 0, job, kinds, 0);
    events := [];
    var cursor: Option<string> := None;
    var more := true;
    while more
      invariant if more then Reading(log, job, kinds, events, cursor) else events == Matching(log, job, kinds, 0)
      decreases more, |Matching(log, job, kinds, 0)| - |events|
    {
      ReadingGoesOn(log, job, kinds, events, cursor, limit);
      var page := Events(log, job, kinds, cursor, limit).value;
      events := events + page.events;
      cursor, more := page.next, page.next.Some?;
    }
  }

  // ---------------------------------------------------------------------- the wait node

  /** What one iteration of the wait loop sees: its cancellation source, its clock (in
      nanoseconds), the log at its page request, and the answer of the short wait. */
  datatype Answer = NotYet | Finished | Broken
  datatype Poll = Poll(cancelled: bool, now: int, log: Log, answer: Answer)

  datatype Waited = Returned(types: seq<string>) | Cancelled | TimedOut | ClockWentBack | Failed | PollLimit

  const WINDOW := 256
  const PAGE := 50

  function Types(log: Log): seq<string> {
    seq(|log|, k requires 0 <= k < |log| => log[k].kind)
  }

  function Last(types: seq<string>, n: nat): seq<string> {
    if |types| <= n then types else types[|types| - n..]
  }

  lemma LastAgain(a: seq<string>, b: seq<string>, n: nat)
    ensures Last(Last(a, n) + b, n) == Last(a + b, n)
  {
  }

  predicate Extends(a: Log, b: Log) {
    |a| <= |b| && b[..|a|] == a
  }

  /** The log only grows from one request to the next. */
  predicate Growing(polls: seq<Poll>) {
    && (forall k :: 0 <= k < |polls| ==> Ordered(polls[k].log, 0))
    && (forall k :: 0 < k < |polls| ==> Extends(polls[k - 1].log, polls[k].log))
  }

  /** The node's cursor after a page: the next cursor, or else the last event's id. */
  function Moved(cursor: Option<string>, page: Page): Option<string> {
    if page.next.Some? then page.next
    else if page.events != [] then Some(Decimal(page.events[|page.events| - 1].id))
    else cursor
  }

  lemma ReadingMoves(log: Log, job: string, kinds: set<string>, events: Log, cursor: Option<string>)
    requires Ordered(log, 0) && Reading(log, job, kinds, events, cursor)
    ensures Events(log, job, kinds, cursor, PAGE).Some?
    ensures var page := Events(log, job, kinds, cursor, PAGE).value;
            Reading(log, job, kinds, events + page.events, Moved(cursor, page))
  {
    PageAdvances(log, job, kinds, |events|, PAGE);
    MovedIsCursor(Matching(log, job, kinds, 0), |events|);
    var all := Matching(log, job, kinds, 0);
    var reached := Reached(all, |events|, PAGE);
    assert all[..|events|] + all[|events|..reached] == all[..reached];
  }

  /** After a page the node's cursor is its position, also without a next cursor. */
  lemma MovedIsCursor(all: Log, n: nat)
    requires n <= |all|
    ensures var reached := Reached(all, n, PAGE);
            Moved(CursorOf(all, n), Page(all[n..reached], if reached < |all| then CursorOf(all, reached) else None)) == CursorOf(all, reached)
  {
  }

  lemma ReadingSurvivesAppend(a: Log, b: Log, job: string, kinds: set<string>, events: Log, cursor: Option<string>)
    requires Extends(a, b) && Reading(a, job, kinds, events, cursor)
    ensures Reading(b, job, kinds, events, cursor)
  {
    assert b == a + b[|a|..];
    AppendKeepsPosition(a, b[|a|..], job, kinds, |events|);
  }

  /** Between two iterations: the node has read a gap-free prefix and kept its window. */
  predicate Keeping(log: Log, job: string, kinds: set<string>, read: Log, cursor: Option<string>, types: seq<string>) {
    Reading(log, job, kinds, read, cursor) && types == Last(Types(read), WINDOW)
  }

  lemma ReadingFurther(before: Log, log: Log, job: string, kinds: set<string>, read: Log, cursor: Option<string>)
    requires Ordered(log, 0) && Extends(before, log) && Reading(before, job, kinds, read, cursor)
    ensures Events(log, job, kinds, cursor, PAGE).Some?
    ensures var page := Events(log, job, kinds, cursor, PAGE).value;
            Reading(log, job, kinds, read + page.events, Moved(cursor, page))
  {
    ReadingSurvivesAppend(before, log, job, kinds, read, cursor);
    ReadingMoves(log, job, kinds, read, cursor);
  }

  lemma KeepingGoesOn(before: Log, log: Log, job: string, kinds: set<string>, read: Log, cursor: Option<string>, types: seq<string>)
    requires Ordered(log, 0) && Extends(before, log) && Keeping(before, job, kinds, read, cursor, types)
    ensures Events(log, job, kinds, cursor, PAGE).Some?
    ensures var page := Events(log, job, kinds, cursor, PAGE).value;
            Keeping(log, job, kinds, read + page.events, Moved(cursor, page), Last(types + Types(page.events), WINDOW))
  {
    ReadingFurther(before, log, job, kinds, read, cursor);
    var page := Events(log, job, kinds, cursor, PAGE).value;
    WindowMoves(read, page.events, types);
  }

  lemma KeepingStarts(job: string, kinds: set<string>)
    ensures Keeping([], job, kinds, [], None, [])
  {
  }

  lemma WindowMoves(read: Log, events: Log, types: seq<string>)
    requires types == Last(Types(read), WINDOW)
    ensures Last(types + Types(events), WINDOW) == Last(Types(read + events), WINDOW)
  {
    LastAgain(Types(read), Types(events), WINDOW);
    assert Types(read + events) == Types(read) + Types(events);
  }

  /** One page request of an iteration. */
  method ReadPage(ghost before: Log, log: Log, job: string, kinds: set<string>, position: Option<string>, types: seq<string>,
                  read: Log)
    returns (position': Option<string>, types': seq<string>, read': Log)
    requires Ordered(log, 0) && Extends(before, log) && Keeping(before, job, kinds, read, position, types)
    ensures Keeping(log, job, kinds, read', position', types') && Extends(read, read')
  {
    KeepingGoesOn(before, log, job, kinds, read, position, types);
    var page := Events(log, job, kinds, position, PAGE).value;
    position', types', read' := Moved(position, page), Last(types + Types(page.events), WINDOW), read + page.events;
  }

  predicate Asked(polls: seq<Poll>, asked: nat, deadline: int) {
    asked <= |polls| && forall k :: 0 <= k < asked ==> polls[k].now < deadline && !polls[k].cancelled
  }

  function LogAt(polls: seq<Poll>, asked: nat): Log
    requires asked <= |polls|
  {
    if asked == 0 then [] else polls[asked - 1].log
  }

  lemma GrowsAt(polls: seq<Poll>, asked: nat)
    requires Growing(polls) && asked < |polls|
    ensures Ordered(polls[asked].log, 0) && Extends(LogAt(polls, asked), polls[asked].log)
  {
  }

  /** `RemoteWaitNode.wait` after its argument checks.  What it returns are the last 256
      types of a gap-free prefix of the job's events, as of the last page it asked for; it
      asks at most once per allowed iteration, and only before its deadline. */
  method Wait(polls: seq<Poll>, start: int, timeout: nat, job: string, kinds: set<string>)
    returns (result: Waited, asked: nat, read: Log, cursor: Option<string>)
    requires Growing(polls)
    ensures Asked(polls, asked, start + timeout)
    ensures result.Returned? ==>
              asked > 0 && polls[asked - 1].answer == Finished && Keeping(polls[asked - 1].log, job, kinds, read, cursor, result.types)
    ensures result == PollLimit ==> asked == |polls|
  {
    var position: Option<string> := None;
    var types := [];
    var previous := start;
    read, asked, cursor := [], 0, None;
    KeepingStarts(job, kinds);
    while asked < |polls|
      invariant Asked(polls, asked, start + timeout)
      invariant Keeping(LogAt(polls, asked), job, kinds, read, position, types)
    {
      var poll := polls[asked];
      if poll.cancelled {
        return Cancelled, asked, read, position;
      }
      if poll.now < previous {
        return ClockWentBack, asked, read, position;
      }
      previous := poll.now;
      if start + timeout - poll.now <= 0 {
        return TimedOut, asked, read, position;
      }
      GrowsAt(polls, asked);
      position, types, read := ReadPage(LogAt(polls, asked), poll.log, job, kinds, position, types, read);
      asked := asked + 1;
      match poll.answer {
        case NotYet =>
        case Finished => return Returned(types), asked, read, position;
        case Broken => return Failed, asked, read, position;
      }
    }
    result := PollLimit;
  }
}
