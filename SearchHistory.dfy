/**
 * The search-history table of the home feed: `record_search`, which stores a
 * user's query unless it is blank or a case-insensitive repeat of one the
 * same user made within the dedupe window, and `get_recent_for_user`, which
 * scans the user's newest events and keeps the first event of each distinct
 * lower-cased query.  Times are in seconds.
 */
module SearchHistory {
  import opened Wrappers
  import opened Text
  import opened Query
  import Paging
  import UserModels

  datatype SearchEvent = SearchEvent(id: nat, user: UserModels.UserId, query: string, createdAt: int)

  const DEFAULT_DEDUPE_WINDOW_MINUTES: nat := 5
  const DEFAULT_RECENT_LIMIT: nat := 5

  /** The dedupe lookup: an event of `user` with a case-insensitively equal query created at or after `cutoff`. */
  predicate RecentSame(events: seq<SearchEvent>, user: UserModels.UserId, query: string, cutoff: int) {
    exists i :: 0 <= i < |events| && events[i].user == user && EqualsCI(events[i].query, query) && events[i].createdAt >= cutoff
  }

  /**
   * What `record_search` stores, if anything: nothing for a query that is
   * blank after stripping or that repeats one from the last `windowMinutes`
   * minutes; otherwise a new event carrying the stripped query.
   */
  function RecordOutcome(events: seq<SearchEvent>, next: nat, user: UserModels.UserId, query: string,
                         windowMinutes: nat, now: int): (r: Option<SearchEvent>)
    ensures r.None? <==> Strip(query) == [] || RecentSame(events, user, Strip(query), now - 60 * windowMinutes)
    ensures r.Some? ==> r.value.id == next && r.value.user == user && r.value.createdAt == now
    ensures r.Some? ==> r.value.query == Strip(query) && r.value.query != [] && IsStripped(r.value.query)
  {
    var q := Strip(query);
    if q == [] then None
    else if RecentSame(events, user, q, now - 60 * windowMinutes) then None
    else Some(SearchEvent(next, user, q, now))
  }

  /**
   * Recording a query and then, within the window, the same query again in
   * any letter case and with any surrounding whitespace, stores it once.
   */
  lemma RepeatWithinWindowIsDropped(events: seq<SearchEvent>, next: nat, user: UserModels.UserId,
                                    q1: string, q2: string, windowMinutes: nat, t1: int, t2: int)
    requires RecordOutcome(events, next, user, q1, windowMinutes, t1).Some?
    requires EqualsCI(Strip(q1), Strip(q2))
    requires t1 <= t2 <= t1 + 60 * windowMinutes
    ensures var e := RecordOutcome(events, next, user, q1, windowMinutes, t1).value;
      RecordOutcome(events + [e], next + 1, user, q2, windowMinutes, t2).None?
  {
    var e := RecordOutcome(events, next, user, q1, windowMinutes, t1).value;
    var es := events + [e];
    assert es[|events|] == e;
    assert EqualsCI(es[|events|].query, Strip(q2));
    assert RecentSame(es, user, Strip(q2), t2 - 60 * windowMinutes);
  }

  /** Another user's searches never suppress this user's query. */
  lemma OtherUsersDoNotDedupe(events: seq<SearchEvent>, next: nat, user: UserModels.UserId, query: string,
                              windowMinutes: nat, now: int)
    requires forall e :: e in events ==> e.user != user
    requires Strip(query) != []
    ensures RecordOutcome(events, next, user, query, windowMinutes, now).Some?
  {
  }

  /** `order_by('-created_at')`. */
  predicate NewerOrSame(a: SearchEvent, b: SearchEvent) { a.createdAt >= b.createdAt }

  lemma NewestFirstIsTotalPreorder()
    ensures IsTotalPreorder(NewerOrSame)
  {
  }

  /** `filter(user=user).order_by('-created_at')[:limit * 2]`: the scan's candidates. */
  function Candidates(events: seq<SearchEvent>, user: UserModels.UserId, limit: nat): (r: seq<SearchEvent>)
    ensures |r| <= 2 * limit
    ensures forall e :: e in r ==> e in events && e.user == user
    ensures SortedBy(r, NewerOrSame)
  {
    var mine := Filter(events, (e: SearchEvent) => e.user == user);
    var sorted := SortBy(mine, NewerOrSame);
    NewestFirstIsTotalPreorder();
    SortBySorted(mine, NewerOrSame);
    forall e ensures e in sorted <==> e in mine { SortByMembers(mine, NewerOrSame, e); }
    var r := Paging.Window(sorted, 0, limit * 2);
    forall i, j | 0 <= i < j < |r| ensures NewerOrSame(r[i], r[j]) {
      assert r[i] == sorted[i] && r[j] == sorted[j];
    }
    forall e | e in r ensures e in events && e.user == user {
      var k :| 0 <= k < |r| && r[k] == e;
      assert sorted[k] == e;
    }
    r
  }

  /** The lower-cased queries of a list of events: the scan's `seen_queries`. */
  function Lowered(s: seq<SearchEvent>): set<string> {
    set e | e in s :: Lower(e.query)
  }

  /** The events a scan of `s` keeps: each one whose lower-cased query no earlier kept event had. */
  function FirstOccurrences(s: seq<SearchEvent>): seq<SearchEvent> {
    if s == [] then []
    else
      var kept := FirstOccurrences(s[..|s| - 1]);
      if Lower(s[|s| - 1].query) in Lowered(kept) then kept else kept + [s[|s| - 1]]
  }

  function Take<T>(s: seq<T>, n: nat): (r: seq<T>)
    ensures |r| == Paging.Min(|s|, n) && r == s[..|r|]
  {
    if |s| <= n then s else s[..n]
  }

  /** `get_recent_for_user`: the first `limit` distinct queries among the newest `limit * 2` events. */
  function Recent(events: seq<SearchEvent>, user: UserModels.UserId, limit: nat): seq<SearchEvent> {
    Take(FirstOccurrences(Candidates(events, user, limit)), limit)
  }

  /** Everything kept comes from the scanned list. */
  lemma {:induction false} FirstOccurrencesFrom(s: seq<SearchEvent>)
    ensures forall x :: x in FirstOccurrences(s) ==> x in s
  {
    if s != [] {
      var init := s[..|s| - 1];
      FirstOccurrencesFrom(init);
      forall x | x in init ensures x in s { var k :| 0 <= k < |init| && init[k] == x; assert s[k] == x; }
    }
  }

  /** Every query of the scanned list is represented among the kept events. */
  lemma {:induction false} FirstOccurrencesCover(s: seq<SearchEvent>)
    ensures forall e :: e in s ==> Lower(e.query) in Lowered(FirstOccurrences(s))
  {
    if s != [] {
      var init := s[..|s| - 1];
      FirstOccurrencesCover(init);
      var kept := FirstOccurrences(init);
      assert Lowered(kept) <= Lowered(FirstOccurrences(s));
      forall e | e in s ensures Lower(e.query) in Lowered(FirstOccurrences(s)) {
        var k :| 0 <= k < |s| && s[k] == e;
        if k < |s| - 1 { assert init[k] == e; }
      }
    }
  }

  /** No two events of the list share a lower-cased query. */
  predicate QueriesDistinct(r: seq<SearchEvent>) {
    forall i, j :: 0 <= i < j < |r| ==> Lower(r[i].query) != Lower(r[j].query)
  }

  /** No two kept events share a lower-cased query. */
  lemma {:induction false} FirstOccurrencesDistinct(s: seq<SearchEvent>)
    ensures QueriesDistinct(FirstOccurrences(s))
  {
    if s != [] {
      var init := s[..|s| - 1];
      FirstOccurrencesDistinct(init);
      var kept := FirstOccurrences(init);
      var r := FirstOccurrences(s);
      var last := s[|s| - 1];
      if Lower(last.query) !in Lowered(kept) {
        assert r == kept + [last];
        forall i, j | 0 <= i < j < |r| ensures Lower(r[i].query) != Lower(r[j].query) {
          if j == |kept| {
            assert r[i] == kept[i] && r[j] == last;
            assert kept[i] in kept;
            assert Lower(kept[i].query) in Lowered(kept);
          } else {
            assert r[i] == kept[i] && r[j] == kept[j];
            assert Lower(kept[i].query) != Lower(kept[j].query);
          }
        }
      } else {
        assert r == kept;
      }
    }
  }

  /** Each kept event is the first one of its lower-cased query in the scanned list. */
  lemma {:induction false} FirstOccurrencesAreFirst(s: seq<SearchEvent>)
    ensures forall x :: x in FirstOccurrences(s) ==>
      exists i :: 0 <= i < |s| && s[i] == x && forall j :: 0 <= j < i ==> Lower(s[j].query) != Lower(x.query)
  {
    if s != [] {
      var init := s[..|s| - 1];
      var last := s[|s| - 1];
      FirstOccurrencesAreFirst(init);
      FirstOccurrencesCover(init);
      var kept := FirstOccurrences(init);
      forall x | x in FirstOccurrences(s)
        ensures exists i :: 0 <= i < |s| && s[i] == x && forall j :: 0 <= j < i ==> Lower(s[j].query) != Lower(x.query)
      {
        if x in kept {
          var i :| 0 <= i < |init| && init[i] == x && forall j :: 0 <= j < i ==> Lower(init[j].query) != Lower(x.query);
          assert s[i] == x;
          forall j | 0 <= j < i ensures Lower(s[j].query) != Lower(x.query) { assert s[j] == init[j]; }
        } else {
          assert x == last && Lower(last.query) !in Lowered(kept);
          forall j | 0 <= j < |s| - 1 ensures Lower(s[j].query) != Lower(x.query) { assert init[j] in init; }
        }
      }
    }
  }

  /** Keeping first occurrences of an ordered list keeps it ordered. */
  lemma {:induction false} FirstOccurrencesSorted(s: seq<SearchEvent>)
    requires SortedBy(s, NewerOrSame)
    ensures SortedBy(FirstOccurrences(s), NewerOrSame)
  {
    if s != [] {
      var init := s[..|s| - 1];
      var last := s[|s| - 1];
      assert SortedBy(init, NewerOrSame) by {
        forall i, j | 0 <= i < j < |init| ensures NewerOrSame(init[i], init[j]) { assert init[i] == s[i] && init[j] == s[j]; }
      }
      FirstOccurrencesSorted(init);
      FirstOccurrencesFrom(init);
      var kept := FirstOccurrences(init);
      var r := FirstOccurrences(s);
      forall i, j | 0 <= i < j < |r| ensures NewerOrSame(r[i], r[j]) {
        if j == |kept| {
          assert r[i] in init;
          var k :| 0 <= k < |init| && init[k] == r[i];
          assert s[k] == r[i] && r[j] == last;
        }
      }
    }
  }

  /** The scan of a prefix is a prefix of the scan of the whole. */
  lemma {:induction false} FirstOccurrencesPrefix(s: seq<SearchEvent>, n: nat)
    requires n <= |s|
    ensures var p := FirstOccurrences(s[..n]); |p| <= |FirstOccurrences(s)| && FirstOccurrences(s)[..|p|] == p
  {
    if n < |s| {
      FirstOccurrencesPrefix(s[..|s| - 1], n);
      assert s[..|s| - 1][..n] == s[..n];
    } else {
      assert s[..n] == s;
    }
  }

  /** A prefix keeps the elements and the order of the list it is taken from. */
  lemma TakeKeeps<T>(s: seq<T>, n: nat)
    ensures forall x :: x in Take(s, n) ==> x in s
    ensures forall i :: 0 <= i < |Take(s, n)| ==> Take(s, n)[i] == s[i]
  {
    var r := Take(s, n);
    forall x | x in r ensures x in s { var k :| 0 <= k < |r| && r[k] == x; assert s[k] == x; }
  }

  /** `get_recent_for_user` returns at most `limit` of the user's own events, all from the newest `limit * 2`. */
  lemma RecentBounded(events: seq<SearchEvent>, user: UserModels.UserId, limit: nat)
    ensures var r := Recent(events, user, limit);
      |r| <= limit && forall x :: x in r ==> x in Candidates(events, user, limit) && x in events && x.user == user
  {
    var c := Candidates(events, user, limit);
    FirstOccurrencesFrom(c);
    TakeKeeps(FirstOccurrences(c), limit);
  }

  /** The events `get_recent_for_user` returns are newest first. */
  lemma RecentNewestFirst(events: seq<SearchEvent>, user: UserModels.UserId, limit: nat)
    ensures SortedBy(Recent(events, user, limit), NewerOrSame)
  {
    var c := Candidates(events, user, limit);
    var f := FirstOccurrences(c);
    var r := Recent(events, user, limit);
    FirstOccurrencesSorted(c);
    TakeKeeps(f, limit);
    forall i, j | 0 <= i < j < |r| ensures NewerOrSame(r[i], r[j]) {
      assert r[i] == f[i] && r[j] == f[j];
    }
  }

  /** No two events `get_recent_for_user` returns share a lower-cased query. */
  lemma RecentDistinctQueries(events: seq<SearchEvent>, user: UserModels.UserId, limit: nat)
    ensures QueriesDistinct(Recent(events, user, limit))
  {
    var c := Candidates(events, user, limit);
    var f := FirstOccurrences(c);
    var r := Recent(events, user, limit);
    FirstOccurrencesDistinct(c);
    TakeKeeps(f, limit);
    forall i, j | 0 <= i < j < |r| ensures Lower(r[i].query) != Lower(r[j].query) {
      assert r[i] == f[i] && r[j] == f[j];
    }
  }

  /** Each returned event is the newest candidate with its lower-cased query. */
  lemma RecentKeepsNewest(events: seq<SearchEvent>, user: UserModels.UserId, limit: nat)
    ensures var r := Recent(events, user, limit); var c := Candidates(events, user, limit);
      forall x :: x in r ==>
        exists i :: 0 <= i < |c| && c[i] == x && forall j :: 0 <= j < i ==> Lower(c[j].query) != Lower(x.query)
  {
    var c := Candidates(events, user, limit);
    FirstOccurrencesAreFirst(c);
    TakeKeeps(FirstOccurrences(c), limit);
  }

  /** One step of the scan: the next event is kept exactly when its lower-cased query is new. */
  lemma ScanStep(s: seq<SearchEvent>, i: nat)
    requires i < |s|
    ensures var kept := FirstOccurrences(s[..i]);
      FirstOccurrences(s[..i + 1]) == if Lower(s[i].query) in Lowered(kept) then kept else kept + [s[i]]
    ensures forall r: seq<SearchEvent>, e: SearchEvent {:trigger Lowered(r + [e])} ::
      Lowered(r + [e]) == Lowered(r) + {Lower(e.query)}
  {
    assert s[..i + 1][..i] == s[..i];
    forall r: seq<SearchEvent>, e: SearchEvent ensures Lowered(r + [e]) == Lowered(r) + {Lower(e.query)} {
      assert forall x :: x in r + [e] <==> x in r || x == e;
    }
  }

  /** Once the scan has kept `limit` events, the rest of the list changes nothing that is returned. */
  lemma ScanStopsAtLimit(s: seq<SearchEvent>, n: nat, limit: nat)
    requires n <= |s| && |FirstOccurrences(s[..n])| >= limit >= |FirstOccurrences(s[..n])|
    ensures Take(FirstOccurrences(s), limit) == FirstOccurrences(s[..n])
  {
    FirstOccurrencesPrefix(s, n);
  }

  /** The event table with its id source. */
  class SearchLog {
    var events: seq<SearchEvent>
    var nextId: nat

    ghost predicate Valid()
      reads this
    {
      forall e :: e in events ==> e.id < nextId
    }

    constructor ()
      ensures Valid() && events == []
    {
      events, nextId := [], 0;
    }

    /** `SearchEvent.record_search`. */
    method RecordSearch(user: UserModels.UserId, query: string, windowMinutes: nat, now: int)
      returns (r: Option<SearchEvent>)
      requires Valid()
      modifies this
      ensures Valid()
      ensures r == RecordOutcome(old(events), old(nextId), user, query, windowMinutes, now)
      ensures r.None? ==> events == old(events) && nextId == old(nextId)
      ensures r.Some? ==> events == old(events) + [r.value] && nextId == old(nextId) + 1
    {
      var q := Strip(query);
      if q == [] {
        return None;
      }
      var cutoff := now - 60 * windowMinutes;
      if RecentSame(events, user, q, cutoff) {
        return None;
      }
      r := Some(SearchEvent(nextId, user, q, now));
      events := events + [r.value];
      nextId := nextId + 1;
    }

    /** `SearchEvent.get_recent_for_user`: the scan with its `seen_queries` set and early stop. */
    method RecentForUser(user: UserModels.UserId, limit: nat) returns (result: seq<SearchEvent>)
      ensures result == Recent(events, user, limit)
    {
      var cands := Candidates(events, user, limit);
      var seen: set<string> := {};
      result := [];
      var i := 0;
      while i < |cands|
        invariant 0 <= i <= |cands|
        invariant result == FirstOccurrences(cands[..i])
        invariant seen == Lowered(result)
        invariant |result| < limit || |cands| == 0
        decreases |cands| - i
      {
        var event := cands[i];
        var queryLower := Lower(event.query);
        ScanStep(cands, i);
        if queryLower !in seen {
          seen := seen + {queryLower};
          result := result + [event];
          if |result| >= limit {
            ScanStopsAtLimit(cands, i + 1, limit);
            return;
          }
        }
        i := i + 1;
      }
      assert cands[..i] == cands;
    }
  }
}
