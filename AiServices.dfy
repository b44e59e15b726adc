/**
 * The AI layer's own logic, around an abstract provider: the circuit
 * breaker that stops calling the provider after repeated failures, the chat
 * engine's decision between a fresh reply, a cached one and a fallback
 * text, the per-identifier rate limiter, and the clean-up of keywords read
 * from an image.  The clock is a parameter (`now`, in seconds); the shared
 * cache is modelled as maps whose entries carry the time they expire.
 */
module AiServices {
  import opened Wrappers
  import opened Text
  import UserSchemas

  const FAIL_THRESHOLD: int := 3
  const OPEN_SECONDS: nat := 60
  const CHAT_CACHE_TTL: nat := 600
  const BUSY_FALLBACK: string :=
    "AI servisinde geçici yoğunluk var. Lütfen biraz sonra tekrar deneyin veya mesajınızı kısaltın."
  const FAILED_FALLBACK: string :=
    "Şu an AI yanıtı üretilemiyor. Daha sonra tekrar deneyin (fallback mod)."

  // ---------------------------------------------------------------------
  // Circuit breaker
  // ---------------------------------------------------------------------

  /**
   * What the breaker keeps in the cache: the failure count with the time
   * its entry expires, and the time the breaker is open until (absent when
   * that entry was deleted).
   */
  datatype BreakerState = BreakerState(failCount: nat, failExpiresAt: int, openUntil: Option<int>)

  /** Both entries deleted. */
  const CLOSED: BreakerState := BreakerState(0, 0, None)

  /** `int(cache.get(fail_key, 0))`: the count while its entry lives, else 0. */
  function Failures(s: BreakerState, now: int): nat {
    if now < s.failExpiresAt then s.failCount else 0
  }

  /** `is_open`: an open-until time is stored and lies in the future. */
  predicate OpenAt(s: BreakerState, now: int) {
    s.openUntil.Some? && now < s.openUntil.value
  }

  /**
   * `on_failure`: the count goes up by one and lives `5 * openSeconds`
   * more; reaching the threshold opens the breaker for `openSeconds`.
   */
  function AfterFailure(s: BreakerState, now: int, threshold: int, openSeconds: nat): (r: BreakerState)
    ensures openSeconds > 0 ==> Failures(r, now) == Failures(s, now) + 1
    ensures Failures(s, now) + 1 >= threshold ==>
      forall t :: now <= t < now + openSeconds ==> OpenAt(r, t)
    ensures Failures(s, now) + 1 < threshold ==> r.openUntil == s.openUntil
  {
    var fails := Failures(s, now) + 1;
    BreakerState(fails, now + 5 * openSeconds,
                 if fails >= threshold then Some(now + openSeconds) else s.openUntil)
  }

  /** The breaker after failures at each of `times`, in order. */
  function FailAll(s: BreakerState, times: seq<int>, threshold: int, openSeconds: nat): BreakerState
  {
    if times == [] then s
    else AfterFailure(FailAll(s, times[..|times| - 1], threshold, openSeconds), times[|times| - 1], threshold, openSeconds)
  }

  /** Each failure follows the previous one before its count has expired. */
  predicate CloseTogether(times: seq<int>, openSeconds: nat) {
    forall i :: 0 < i < |times| ==> times[i - 1] <= times[i] < times[i - 1] + 5 * openSeconds
  }

  /** From a closed breaker, failures close together are all counted. */
  lemma {:induction false} FailuresAccumulate(times: seq<int>, threshold: int, openSeconds: nat)
    requires openSeconds > 0 && times != []
    requires CloseTogether(times, openSeconds)
    ensures Failures(FailAll(CLOSED, times, threshold, openSeconds), times[|times| - 1]) == |times|
  {
    if |times| > 1 {
      var p := times[..|times| - 1];
      assert CloseTogether(p, openSeconds) by {
        forall i | 0 < i < |p| ensures p[i - 1] <= p[i] < p[i - 1] + 5 * openSeconds {
          assert p[i - 1] == times[i - 1] && p[i] == times[i];
        }
      }
      FailuresAccumulate(p, threshold, openSeconds);
      var s := FailAll(CLOSED, p, threshold, openSeconds);
      assert s == AfterFailure(FailAll(CLOSED, p[..|p| - 1], threshold, openSeconds), p[|p| - 1], threshold, openSeconds);
      assert s.failExpiresAt == p[|p| - 1] + 5 * openSeconds;
      assert p[|p| - 1] == times[|times| - 2];
    }
  }

  /**
   * `threshold` failures in a row, each before the previous count expired,
   * open the breaker for `openSeconds` from the last one.
   */
  lemma ThresholdFailuresOpen(times: seq<int>, threshold: int, openSeconds: nat, t: int)
    requires openSeconds > 0 && |times| >= 1 && |times| >= threshold
    requires CloseTogether(times, openSeconds)
    requires times[|times| - 1] <= t < times[|times| - 1] + openSeconds
    ensures OpenAt(FailAll(CLOSED, times, threshold, openSeconds), t)
  {
    var p := times[..|times| - 1];
    var last := times[|times| - 1];
    if |p| > 0 {
      assert CloseTogether(p, openSeconds) by {
        forall i | 0 < i < |p| ensures p[i - 1] <= p[i] < p[i - 1] + 5 * openSeconds {
          assert p[i - 1] == times[i - 1] && p[i] == times[i];
        }
      }
      FailuresAccumulate(p, threshold, openSeconds);
      var s := FailAll(CLOSED, p, threshold, openSeconds);
      assert s == AfterFailure(FailAll(CLOSED, p[..|p| - 1], threshold, openSeconds), p[|p| - 1], threshold, openSeconds);
      assert p[|p| - 1] == times[|times| - 2];
      assert Failures(s, last) == |p|;
    }
  }

  /** Fewer failures than the threshold never open a closed breaker. */
  lemma {:induction false} FewerFailuresStayClosed(times: seq<int>, threshold: int, openSeconds: nat)
    requires |times| < threshold
    ensures FailAll(CLOSED, times, threshold, openSeconds).openUntil.None?
    ensures forall i :: 0 <= i < |times| ==> Failures(FailAll(CLOSED, times[..i], threshold, openSeconds), times[i]) <= i
  {
    if times != [] {
      var p := times[..|times| - 1];
      FewerFailuresStayClosed(p, threshold, openSeconds);
      forall i | 0 <= i < |times|
        ensures Failures(FailAll(CLOSED, times[..i], threshold, openSeconds), times[i]) <= i
      {
        FailuresBounded(times[..i], threshold, openSeconds, times[i]);
      }
      FailuresBounded(p, threshold, openSeconds, times[|times| - 1]);
    }
  }

  /** After `n` failures from closed, the visible count is at most `n`. */
  lemma {:induction false} FailuresBounded(times: seq<int>, threshold: int, openSeconds: nat, now: int)
    ensures Failures(FailAll(CLOSED, times, threshold, openSeconds), now) <= |times|
  {
    if times != [] {
      FailuresBounded(times[..|times| - 1], threshold, openSeconds, times[|times| - 1]);
    }
  }

  /** The breaker of one provider; its state lives in the shared cache. */
  class CircuitBreaker {
    const threshold: int
    const openSeconds: nat
    var failCount: nat
    var failExpiresAt: int
    var openUntil: Option<int>

    /** A breaker over whatever the cache holds already (other processes share it). */
    constructor (threshold: int, openSeconds: nat, cached: BreakerState)
      ensures this.threshold == threshold && this.openSeconds == openSeconds
      ensures State() == cached
    {
      this.threshold := threshold;
      this.openSeconds := openSeconds;
      failCount := cached.failCount;
      failExpiresAt := cached.failExpiresAt;
      openUntil := cached.openUntil;
    }

    function State(): BreakerState
      reads this
    {
      BreakerState(failCount, failExpiresAt, openUntil)
    }

    /** `is_open`. */
    method IsOpen(now: int) returns (b: bool)
      ensures b == OpenAt(State(), now)
    {
      b := openUntil.Some? && now < openUntil.value;
    }

    /** `on_success`: both entries are deleted. */
    method OnSuccess()
      modifies this
      ensures State() == CLOSED
    {
      failCount := 0;
      failExpiresAt := 0;
      openUntil := None;
    }

    /** `on_failure`. */
    method OnFailure(now: int)
      modifies this
      ensures State() == AfterFailure(old(State()), now, threshold, openSeconds)
    {
      var fails := (if now < failExpiresAt then failCount else 0) + 1;
      failCount := fails;
      failExpiresAt := now + 5 * openSeconds;
      if fails >= threshold {
        openUntil := Some(now + openSeconds);
      }
    }
  }

  // ---------------------------------------------------------------------
  // Chat engine
  // ---------------------------------------------------------------------

  /** What the response cache is keyed by (the hash of these is not modelled). */
  datatype ChatKey = ChatKey(message: string, productId: Option<nat>, supplierId: Option<nat>)

  datatype CachedReply = CachedReply(text: string, expiresAt: int)

  datatype AIResult = AIResult(text: string, fromCache: bool, degraded: bool)

  /** `cache.get(key)`: the reply while its entry lives. */
  function Lookup(replies: map<ChatKey, CachedReply>, key: ChatKey, now: int): Option<string> {
    if key in replies && now < replies[key].expiresAt then Some(replies[key].text) else None
  }

  /** The cached text when there is a non-empty one, else the given fallback text; degraded either way. */
  function Fallback(cached: Option<string>, message: string): (r: AIResult)
    ensures r.degraded
    ensures r.fromCache <==> cached.Some? && cached.value != []
    ensures r.fromCache ==> r.text == cached.value
    ensures !r.fromCache ==> r.text == message
  {
    if cached.Some? && cached.value != [] then AIResult(cached.value, true, true) else AIResult(message, false, true)
  }

  /** The result of one `chat` call and the cache it leaves behind. */
  datatype ChatStep = ChatStep(result: AIResult, called: bool, replies: map<ChatKey, CachedReply>, breaker: BreakerState)

  /**
   * `AIChatEngine.chat`.  `reply` is what the provider would give: its
   * stripped text, or nothing when it raised (after its own retries).
   */
  function ChatOutcome(replies: map<ChatKey, CachedReply>, breaker: BreakerState, threshold: int, openSeconds: nat,
                       ttl: nat, key: ChatKey, now: int, reply: Option<string>): (r: ChatStep)
    ensures OpenAt(breaker, now) ==>
      !r.called && r.replies == replies && r.breaker == breaker &&
      r.result == Fallback(Lookup(replies, key, now), BUSY_FALLBACK)
    ensures !OpenAt(breaker, now) ==> r.called
    ensures !r.result.degraded <==> !OpenAt(breaker, now) && reply.Some? && reply.value != []
    ensures !r.result.degraded ==>
      r.result == AIResult(reply.value, false, false) && r.breaker == CLOSED &&
      r.replies == replies[key := CachedReply(reply.value, now + ttl)]
    ensures r.called && r.result.degraded ==>
      r.replies == replies && r.breaker == AfterFailure(breaker, now, threshold, openSeconds) &&
      r.result == Fallback(Lookup(replies, key, now), FAILED_FALLBACK)
  {
    var cached := Lookup(replies, key, now);
    if OpenAt(breaker, now) then
      ChatStep(Fallback(cached, BUSY_FALLBACK), false, replies, breaker)
    else if reply.Some? && reply.value != [] then
      ChatStep(AIResult(reply.value, false, false), true, replies[key := CachedReply(reply.value, now + ttl)], CLOSED)
    else
      ChatStep(Fallback(cached, FAILED_FALLBACK), true, replies, AfterFailure(breaker, now, threshold, openSeconds))
  }

  /**
   * A fresh reply is served again, from the cache and marked degraded, by
   * any later call with the same key within the TTL for which the breaker
   * is open or the provider fails.
   */
  lemma FreshReplyCoversLaterOutage(replies: map<ChatKey, CachedReply>, breaker: BreakerState, threshold: int,
                                    openSeconds: nat, ttl: nat, key: ChatKey, now: int, text: string,
                                    later: int, laterBreaker: BreakerState, laterReply: Option<string>)
    requires text != []
    requires !OpenAt(breaker, now)
    requires now <= later < now + ttl
    requires OpenAt(laterBreaker, later) || laterReply.None? || laterReply == Some([])
    ensures var first := ChatOutcome(replies, breaker, threshold, openSeconds, ttl, key, now, Some(text));
      first.result == AIResult(text, false, false) &&
      ChatOutcome(first.replies, laterBreaker, threshold, openSeconds, ttl, key, later, laterReply).result ==
        AIResult(text, true, true)
  {
    var first := ChatOutcome(replies, breaker, threshold, openSeconds, ttl, key, now, Some(text));
    assert Lookup(first.replies, key, later) == Some(text);
  }

  /**
   * Chats that keep failing open the breaker: after `threshold` of them,
   * close together, from a closed breaker, the next chat within
   * `openSeconds` does not call the provider.
   */
  lemma FailingChatsStopProviderCalls(times: seq<int>, threshold: int, openSeconds: nat,
                                      replies: map<ChatKey, CachedReply>, ttl: nat, key: ChatKey, t: int,
                                      reply: Option<string>)
    requires openSeconds > 0 && |times| >= 1 && |times| >= threshold
    requires CloseTogether(times, openSeconds)
    requires times[|times| - 1] <= t < times[|times| - 1] + openSeconds
    ensures var next := ChatOutcome(replies, FailAll(CLOSED, times, threshold, openSeconds), threshold, openSeconds, ttl, key, t, reply);
      !next.called && next.result.degraded
  {
    ThresholdFailuresOpen(times, threshold, openSeconds, t);
  }

  class ChatEngine {
    const ttl: nat
    const cb: CircuitBreaker
    var replies: map<ChatKey, CachedReply>

    constructor (ttl: nat, cb: CircuitBreaker, replies: map<ChatKey, CachedReply>)
      ensures this.ttl == ttl && this.cb == cb && this.replies == replies
    {
      this.ttl := ttl;
      this.cb := cb;
      this.replies := replies;
    }

    /**
     * `chat`: the cache is read first, then the breaker decides whether the
     * provider is asked at all.  `called` tells whether it was.
     */
    method Chat(key: ChatKey, now: int, reply: Option<string>) returns (r: AIResult, called: bool)
      modifies this, cb
      ensures var step := ChatOutcome(old(replies), old(cb.State()), cb.threshold, cb.openSeconds, ttl, key, now, reply);
        r == step.result && called == step.called && replies == step.replies && cb.State() == step.breaker
    {
      var cached := if key in replies && now < replies[key].expiresAt then Some(replies[key].text) else None;
      var open := cb.IsOpen(now);
      if open {
        called := false;
        if cached.Some? && cached.value != [] {
          return AIResult(cached.value, true, true), called;
        }
        return AIResult(BUSY_FALLBACK, false, true), called;
      }
      called := true;
      if reply.Some? && reply.value != [] {
        replies := replies[key := CachedReply(reply.value, now + ttl)];
        cb.OnSuccess();
        return AIResult(reply.value, false, false), called;
      }
      cb.OnFailure(now);
      if cached.Some? && cached.value != [] {
        return AIResult(cached.value, true, true), called;
      }
      r := AIResult(FAILED_FALLBACK, false, true);
    }
  }

  // ---------------------------------------------------------------------
  // Rate limiter
  // ---------------------------------------------------------------------

  const RATE_LIMIT_WINDOW: nat := 60
  const ASSISTANT_RATE_LIMIT_MAX: nat := 20
  const SUMMARY_RATE_LIMIT_MAX: nat := 30

  datatype Counter = Counter(count: nat, expiresAt: int)

  /** `cache.get(key, 0)` for one identifier's counter. */
  function CountOf(counts: map<string, Counter>, id: string, now: int): nat {
    if id in counts && now < counts[id].expiresAt then counts[id].count else 0
  }

  /**
   * `_check_rate_limit`: refused, with nothing written, once the count has
   * reached the maximum; otherwise the count goes up by one and its entry
   * lives `window` more seconds.
   */
  function RateOutcome(counts: map<string, Counter>, id: string, now: int, max: nat, window: nat)
    : (r: (bool, map<string, Counter>))
    ensures r.0 <==> CountOf(counts, id, now) < max
    ensures !r.0 ==> r.1 == counts
    ensures r.0 && window > 0 ==> CountOf(r.1, id, now) == CountOf(counts, id, now) + 1
    ensures forall other :: other != id ==> (other in r.1 <==> other in counts)
    ensures forall other :: other != id && other in counts ==> r.1[other] == counts[other]
  {
    var count := CountOf(counts, id, now);
    if count >= max then (false, counts)
    else (true, counts[id := Counter(count + 1, now + window)])
  }

  /** Requests from one identifier at each of `times`: how many were allowed, and the counters after. */
  function RunRequests(counts: map<string, Counter>, id: string, times: seq<int>, max: nat, window: nat)
    : (nat, map<string, Counter>)
    decreases |times|
  {
    if times == [] then (0, counts)
    else
      var (ok, next) := RateOutcome(counts, id, times[0], max, window);
      var (n, last) := RunRequests(next, id, times[1..], max, window);
      ((if ok then 1 else 0) + n, last)
  }

  function Min(a: int, b: int): int { if a <= b then a else b }

  /** The requests arrive in order, all before the first one's window closes. */
  predicate WithinOneWindow(times: seq<int>, window: nat) {
    (forall i :: 0 < i < |times| ==> times[i - 1] <= times[i]) &&
    (forall i :: 0 <= i < |times| ==> times[i] < times[0] + window)
  }

  lemma {:induction false} RunWithinWindow(counts: map<string, Counter>, id: string, times: seq<int>, max: nat, window: nat)
    requires WithinOneWindow(times, window)
    requires id in counts ==> forall i :: 0 <= i < |times| ==> times[i] < counts[id].expiresAt
    ensures var c := if id in counts then counts[id].count else 0;
      RunRequests(counts, id, times, max, window).0 == if c >= max then 0 else Min(|times|, max - c)
    decreases |times|
  {
    if times != [] {
      var c := if id in counts then counts[id].count else 0;
      assert CountOf(counts, id, times[0]) == c;
      var (ok, next) := RateOutcome(counts, id, times[0], max, window);
      var rest := times[1..];
      assert WithinOneWindow(rest, window) by {
        forall i | 0 <= i < |rest| ensures rest[i] < rest[0] + window {
          assert rest[i] == times[i + 1];
          assert times[0] <= times[1];
        }
        forall i | 0 < i < |rest| ensures rest[i - 1] <= rest[i] {
          assert rest[i - 1] == times[i] && rest[i] == times[i + 1];
        }
      }
      if ok {
        assert next[id] == Counter(c + 1, times[0] + window);
        forall i | 0 <= i < |rest| ensures rest[i] < next[id].expiresAt {
          assert rest[i] == times[i + 1];
        }
      } else {
        forall i | 0 <= i < |rest| && id in next ensures rest[i] < next[id].expiresAt {
          assert rest[i] == times[i + 1];
        }
      }
      RunWithinWindow(next, id, rest, max, window);
    }
  }

  /**
   * An identifier with no live counter gets at most `max` requests through
   * in one window: exactly the first `max` of a burst are allowed.
   */
  lemma AtMostMaxPerWindow(counts: map<string, Counter>, id: string, times: seq<int>, max: nat, window: nat)
    requires id !in counts
    requires WithinOneWindow(times, window)
    ensures RunRequests(counts, id, times, max, window).0 == Min(|times|, max)
  {
    RunWithinWindow(counts, id, times, max, window);
  }

  /** The counters of one limiter (the cache key prefix tells the limiters apart). */
  class RateLimiter {
    const max: nat
    const window: nat
    var counts: map<string, Counter>

    constructor (max: nat, window: nat, counts: map<string, Counter>)
      ensures this.max == max && this.window == window && this.counts == counts
    {
      this.max := max;
      this.window := window;
      this.counts := counts;
    }

    /** `_check_rate_limit`. */
    method Check(id: string, now: int) returns (allowed: bool)
      modifies this
      ensures (allowed, counts) == RateOutcome(old(counts), id, now, max, window)
    {
      var count := if id in counts && now < counts[id].expiresAt then counts[id].count else 0;
      if count >= max {
        return false;
      }
      counts := counts[id := Counter(count + 1, now + window)];
      allowed := true;
    }
  }

  // ---------------------------------------------------------------------
  // Keyword clean-up
  // ---------------------------------------------------------------------

  /** The characters `[\w\s]` keeps. */
  predicate Kept(c: char) { UserSchemas.IsWordChar(c) || IsSpace(c) }

  predicate AllKept(s: string) {
    forall i :: 0 <= i < |s| ==> Kept(s[i])
  }

  /** `re.sub(r'[^\w\s]', '', kw)`. */
  function RemovePunctuation(s: string): (r: string)
    ensures AllKept(r)
    ensures |r| <= |s|
    ensures AllKept(s) ==> r == s
  {
    if s == [] then []
    else (if Kept(s[0]) then [s[0]] else []) + RemovePunctuation(s[1..])
  }

  /** Every kept character survives as often as it occurs; every other character is gone. */
  lemma {:induction false} RemovePunctuationCount(s: string, c: char)
    ensures multiset(RemovePunctuation(s))[c] == if Kept(c) then multiset(s)[c] else 0
  {
    if s != [] {
      assert s == [s[0]] + s[1..];
      assert multiset(s) == multiset{s[0]} + multiset(s[1..]);
      RemovePunctuationCount(s[1..], c);
    }
  }

  /**
   * The substitution works character by character, so the kept characters
   * stay in their order: removing from a concatenation is concatenating the
   * removals.
   */
  lemma {:induction false} RemovePunctuationAppend(a: string, b: string)
    ensures RemovePunctuation(a + b) == RemovePunctuation(a) + RemovePunctuation(b)
  {
    if a == [] {
      assert a + b == b;
    } else {
      var ab := a + b;
      assert ab[0] == a[0] && ab[1..] == a[1..] + b;
      RemovePunctuationAppend(a[1..], b);
      var h := if Kept(a[0]) then [a[0]] else [];
      calc {
        RemovePunctuation(ab);
        h + RemovePunctuation(a[1..] + b);
        h + (RemovePunctuation(a[1..]) + RemovePunctuation(b));
        (h + RemovePunctuation(a[1..])) + RemovePunctuation(b);
      }
    }
  }

  /** A character a cleaned keyword may hold: a lowercase word character or a space. */
  predicate CleanChar(c: char) {
    (UserSchemas.IsWordChar(c) && !('A' <= c <= 'Z')) || c == ' '
  }

  predicate AllClean(s: string) {
    forall i :: 0 <= i < |s| ==> CleanChar(s[i])
  }

  function FirstTwo<T>(s: seq<T>): (r: seq<T>)
    ensures |r| <= 2 && |r| <= |s| && r == s[..|r|]
    ensures |s| <= 2 ==> r == s
  {
    if |s| > 2 then s[..2] else s
  }

  /** One raw keyword: punctuation removed, trimmed, lowercased, its first two words; nothing when no word is left. */
  function CleanKeyword(kw: string): Option<string> {
    var words := FirstTwo(Words(Lower(Strip(RemovePunctuation(kw)))));
    if words == [] then None else Some(Join(words, " "))
  }

  /** The cleaning of each keyword of `kws`, position by position. */
  function Cleanings(kws: seq<string>): (r: seq<Option<string>>)
    ensures |r| == |kws|
  {
    seq(|kws|, i requires 0 <= i < |kws| => CleanKeyword(kws[i]))
  }

  /** The present values of `xs`, in order. */
  function Somes(xs: seq<Option<string>>): (r: seq<string>)
    ensures |r| <= |xs|
  {
    if xs == [] then []
    else if xs[0].Some? then [xs[0].value] + Somes(xs[1..])
    else Somes(xs[1..])
  }

  /**
   * Every value kept is present in `xs`, and when all are present they are
   * kept one for one, in order.
   */
  lemma {:induction false} SomesKeeps(xs: seq<Option<string>>)
    ensures forall k :: 0 <= k < |Somes(xs)| ==> Some(Somes(xs)[k]) in xs
    ensures (forall j :: 0 <= j < |xs| ==> xs[j].Some?) ==>
      |Somes(xs)| == |xs| && forall j :: 0 <= j < |xs| ==> Some(Somes(xs)[j]) == xs[j]
  {
    if xs != [] {
      SomesKeeps(xs[1..]);
      var r := Somes(xs);
      var rest := Somes(xs[1..]);
      forall k | 0 <= k < |r| ensures Some(r[k]) in xs {
        if xs[0].Some? && k == 0 {
        } else {
          var k' := if xs[0].Some? then k - 1 else k;
          assert r[k] == rest[k'];
          assert Some(rest[k']) in xs[1..];
        }
      }
      if forall j :: 0 <= j < |xs| ==> xs[j].Some? {
        assert forall j :: 0 <= j < |xs[1..]| ==> xs[1..][j].Some? by {
          forall j | 0 <= j < |xs[1..]| ensures xs[1..][j].Some? {
            assert xs[1..][j] == xs[j + 1];
          }
        }
        forall j | 0 <= j < |xs| ensures Some(r[j]) == xs[j] {
          if j > 0 {
            assert xs[1..][j - 1] == xs[j];
          }
        }
      }
    }
  }

  /** One step of the loop: the keyword at `i` is added when present. */
  lemma SomesStep(xs: seq<Option<string>>, i: nat, done: seq<string>)
    requires i < |xs|
    ensures done + Somes(xs[i..]) == (if xs[i].Some? then done + [xs[i].value] else done) + Somes(xs[i + 1..])
  {
    assert xs[i..][1..] == xs[i + 1..];
  }

  /** `_clean_keywords`: the first two raw keywords, cleaned, the empty ones dropped. */
  function CleanedKeywords(raw: seq<string>): (r: seq<string>)
    ensures |r| <= 2 && |r| <= |raw|
  {
    Somes(Cleanings(FirstTwo(raw)))
  }

  /** `_clean_keywords`, with its loop. */
  method CleanKeywords(raw: seq<string>) returns (cleaned: seq<string>)
    ensures cleaned == CleanedKeywords(raw)
  {
    cleaned := [];
    var first := FirstTwo(raw);
    ghost var all := Cleanings(first);
    var i := 0;
    while i < |first|
      invariant 0 <= i <= |first|
      invariant cleaned + Somes(all[i..]) == Somes(all)
    {
      var kw := CleanKeyword(first[i]);
      SomesStep(all, i, cleaned);
      if kw.Some? {
        cleaned := cleaned + [kw.value];
      }
      i := i + 1;
    }
  }

  /** A word of `split()` is its own first word, also with whitespace after it. */
  lemma {:induction false} FirstWordOf(w: string, rest: string)
    requires IsWord(w)
    requires rest == [] || IsSpace(rest[0])
    ensures FirstWord(w + rest) == w
  {
    var s := w + rest;
    if |w| > 1 {
      assert s[1] == w[1];
      assert s[1..] == w[1..] + rest;
      assert IsWord(w[1..]) by {
        forall i | 0 <= i < |w[1..]| ensures !IsSpace(w[1..][i]) {
          assert w[1..][i] == w[i + 1];
        }
      }
      FirstWordOf(w[1..], rest);
      assert s[..1] + w[1..] == w;
    } else {
      assert s[..1] == w;
    }
  }

  /** A word followed by nothing or by whitespace splits off as the first word. */
  lemma WordsAfterWord(w: string, rest: string)
    requires IsWord(w)
    requires rest == [] || IsSpace(rest[0])
    ensures Words(w + rest) == [w] + Words(rest)
  {
    var s := w + rest;
    assert s[0] == w[0];
    assert TrimStart(s) == s;
    FirstWordOf(w, rest);
    assert s[|w|..] == rest;
  }

  /** A single space in front of a word changes nothing in the split. */
  lemma WordsAfterSpace(tail: string)
    requires tail != [] && !IsSpace(tail[0])
    ensures Words(" " + tail) == Words(tail)
  {
    var s := " " + tail;
    assert s[0] == ' ' && IsSpace(' ');
    assert s[1..] == tail;
    assert TrimStart(tail) == tail;
    assert TrimStart(s) == tail;
  }

  /** A word on its own splits into itself. */
  lemma WordsOfOneWord(w: string)
    requires IsWord(w)
    ensures Words(w) == [w]
  {
    assert w + [] == w;
    WordsAfterWord(w, []);
    assert Words([]) == [];
  }

  /** Splitting a word, a space and a text that starts with a word. */
  lemma WordsOfJoinStep(w: string, tail: string, rest: seq<string>)
    requires IsWord(w) && tail != [] && !IsSpace(tail[0]) && Words(tail) == rest
    ensures Words(w + " " + tail) == [w] + rest
  {
    var sp := " " + tail;
    ConcatAssoc(w, " ", tail);
    assert sp[0] == ' ' && IsSpace(' ');
    WordsAfterWord(w, sp);
    WordsAfterSpace(tail);
  }

  lemma ConcatAssoc(a: string, b: string, c: string)
    ensures a + b + c == a + (b + c)
  {
  }

  /** `" ".join(words).split()` gives the words back. */
  lemma {:induction false} WordsOfJoin(ws: seq<string>)
    requires forall k :: 0 <= k < |ws| ==> IsWord(ws[k])
    ensures Words(Join(ws, " ")) == ws
  {
    if ws == [] {
    } else if |ws| == 1 {
      assert Join(ws, " ") == ws[0];
      WordsOfOneWord(ws[0]);
      assert [ws[0]] == ws;
    } else {
      WordsOfJoin(ws[1..]);
      WordsOfJoinCons(ws);
    }
  }

  /** A list of two or more words splits back when its tail does. */
  lemma WordsOfJoinCons(ws: seq<string>)
    requires |ws| >= 2 && IsWord(ws[0]) && IsWord(ws[1])
    requires Words(Join(ws[1..], " ")) == ws[1..]
    ensures Words(Join(ws, " ")) == ws
  {
    var tail := Join(ws[1..], " ");
    assert Join(ws, " ") == ws[0] + " " + tail;
    assert tail[0] == ws[1][0];
    WordsOfJoinStep(ws[0], tail, ws[1..]);
    assert [ws[0]] + ws[1..] == ws;
  }

  /** Text whose characters are clean or whitespace. */
  predicate CleanOrSpace(s: string) {
    forall i :: 0 <= i < |s| ==> CleanChar(s[i]) || IsSpace(s[i])
  }

  lemma CleanOrSpaceSlice(s: string, a: nat, b: nat)
    requires CleanOrSpace(s) && a <= b <= |s|
    ensures CleanOrSpace(s[a..b])
  {
    forall i | 0 <= i < b - a ensures CleanChar(s[a..b][i]) || IsSpace(s[a..b][i]) {
      assert s[a..b][i] == s[a + i];
    }
  }

  /** A word whose characters are clean or whitespace is clean, having no whitespace. */
  lemma CleanWord(w: string)
    requires CleanOrSpace(w) && IsWord(w)
    ensures AllClean(w)
  {
  }

  /** The words of text made of clean characters and whitespace are clean. */
  lemma {:induction false} WordsClean(s: string)
    requires CleanOrSpace(s)
    ensures forall k :: 0 <= k < |Words(s)| ==> AllClean(Words(s)[k])
    decreases |s|
  {
    var t := TrimStart(s);
    TrimStartSpace(s);
    CleanOrSpaceSlice(s, |s| - |t|, |s|);
    assert s[|s| - |t|..|s|] == t;
    if t != [] {
      var w := FirstWord(t);
      var rest := t[|w|..];
      CleanOrSpaceSlice(t, 0, |w|);
      assert t[0..|w|] == w;
      CleanWord(w);
      CleanOrSpaceSlice(t, |w|, |t|);
      assert t[|w|..|t|] == rest;
      WordsClean(rest);
      var ws := Words(s);
      assert ws == [w] + Words(rest);
      forall k | 0 <= k < |ws| ensures AllClean(ws[k]) {
        if k > 0 {
          assert ws[k] == Words(rest)[k - 1];
        }
      }
    }
  }

  /** Lowercasing a kept character gives a clean character or whitespace. */
  lemma LowerKeptChar(c: char)
    requires Kept(c)
    ensures CleanChar(LowerChar(c)) || IsSpace(LowerChar(c))
  {
    if IsSpace(c) {
      assert !('A' <= c <= 'Z');
    }
  }

  /** A clean character is kept, and lowercasing leaves it as it is. */
  lemma CleanCharFixed(c: char)
    requires CleanChar(c)
    ensures Kept(c) && LowerChar(c) == c
  {
  }

  /** Stripping keeps only characters that were there. */
  lemma StripKept(s: string)
    requires AllKept(s)
    ensures AllKept(Strip(s))
  {
    var t := Strip(s);
    var off := |s| - |TrimStart(s)|;
    StripSlice(s);
    forall i | 0 <= i < |t| ensures Kept(t[i]) {
      assert t[i] == s[off + i];
    }
  }

  /** Lowercasing kept characters gives clean characters or whitespace. */
  lemma LowerKept(t: string)
    requires AllKept(t)
    ensures CleanOrSpace(Lower(t))
  {
    var l := Lower(t);
    forall i | 0 <= i < |l| ensures CleanChar(l[i]) || IsSpace(l[i]) {
      LowerKeptChar(t[i]);
    }
  }

  /** Stripping, then lowercasing the kept characters, leaves only clean characters or other whitespace. */
  lemma LoweredKeptChars(s: string)
    requires AllKept(s)
    ensures CleanOrSpace(Lower(Strip(s)))
  {
    StripKept(s);
    LowerKept(Strip(s));
  }

  /** What a cleaned keyword looks like, as a fact about its words. */
  predicate CleanWords(ws: seq<string>) {
    1 <= |ws| <= 2 &&
    forall k :: 0 <= k < |ws| ==> IsWord(ws[k]) && AllClean(ws[k])
  }

  lemma CleanKeywordWords(kw: string)
    ensures CleanKeyword(kw).Some? ==>
      var ws := FirstTwo(Words(Lower(Strip(RemovePunctuation(kw)))));
      CleanWords(ws) && CleanKeyword(kw).value == Join(ws, " ")
  {
    var l := Lower(Strip(RemovePunctuation(kw)));
    LoweredKeptChars(RemovePunctuation(kw));
    WordsClean(l);
    var ws := Words(l);
    var two := FirstTwo(ws);
    forall k | 0 <= k < |two| ensures AllClean(two[k]) {
      assert two[k] == ws[k];
    }
  }

  /** Text made only of clean characters passes punctuation removal and lowercasing unchanged. */
  lemma CleanTextIsFixed(s: string)
    requires AllClean(s)
    requires IsStripped(s)
    ensures Lower(Strip(RemovePunctuation(s))) == s
  {
    assert AllKept(s) by {
      forall i | 0 <= i < |s| ensures Kept(s[i]) {
        CleanCharFixed(s[i]);
      }
    }
    assert RemovePunctuation(s) == s;
    StrippedIsFixed(s);
    forall k | 0 <= k < |s| ensures Lower(s)[k] == s[k] {
      CleanCharFixed(s[k]);
    }
    assert Lower(s) == s;
  }

  lemma StrippedIsFixed(s: string)
    requires IsStripped(s)
    ensures Strip(s) == s
  {
    assert TrimStart(s) == s;
    assert TrimEnd(s) == s;
  }

  /** Joining clean words gives stripped text of clean characters. */
  lemma JoinedCleanWords(ws: seq<string>)
    requires CleanWords(ws)
    ensures AllClean(Join(ws, " "))
    ensures IsStripped(Join(ws, " "))
  {
    var j := Join(ws, " ");
    var last := ws[|ws| - 1];
    assert IsWord(ws[0]) && IsWord(last);
    assert !IsSpace(ws[0][0]) && !IsSpace(last[|last| - 1]);
    if |ws| == 2 {
      assert ws[1..] == [ws[1]];
      assert j == ws[0] + " " + ws[1];
      var n := |ws[0]|;
      forall i | 0 <= i < |j| ensures CleanChar(j[i]) {
        if i < n {
          assert j[i] == ws[0][i];
        } else if i > n {
          assert j[i] == ws[1][i - n - 1];
        }
      }
    }
  }

  /** A cleaned keyword cleans to itself. */
  lemma CleanKeywordIdempotent(kw: string)
    requires CleanKeyword(kw).Some?
    ensures CleanKeyword(CleanKeyword(kw).value) == CleanKeyword(kw)
  {
    CleanKeywordWords(kw);
    var ws := FirstTwo(Words(Lower(Strip(RemovePunctuation(kw)))));
    var k := Join(ws, " ");
    JoinedCleanWords(ws);
    CleanTextIsFixed(k);
    WordsOfJoin(ws);
  }

  /**
   * `_clean_keywords` keeps at most two keywords, each non-empty,
   * lowercase, free of punctuation and of one or two words.
   */
  lemma CleanedKeywordsShape(raw: seq<string>)
    ensures var r := CleanedKeywords(raw);
      forall k :: 0 <= k < |r| ==>
        r[k] != [] && 1 <= |Words(r[k])| <= 2 && AllClean(r[k]) &&
        CleanKeyword(r[k]) == Some(r[k])
  {
    forall k | 0 <= k < |CleanedKeywords(raw)| {
      CleanedKeywordAt(raw, k);
    }
  }

  /** Each kept keyword is the clean-up of one of the first two raw ones. */
  lemma CleanedKeywordAt(raw: seq<string>, k: nat)
    requires k < |CleanedKeywords(raw)|
    ensures exists j :: 0 <= j < |FirstTwo(raw)| && CleanKeyword(FirstTwo(raw)[j]) == Some(CleanedKeywords(raw)[k])
    ensures var v := CleanedKeywords(raw)[k];
      v != [] && 1 <= |Words(v)| <= 2 && AllClean(v) && CleanKeyword(v) == Some(v)
  {
    var first := FirstTwo(raw);
    var all := Cleanings(first);
    var v := Somes(all)[k];
    SomesKeeps(all);
    assert Some(v) in all;
    var j :| 0 <= j < |all| && all[j] == Some(v);
    assert CleanKeyword(first[j]) == Some(v);
    KeywordShape(first[j], v);
  }

  lemma KeywordShape(kw: string, k: string)
    requires CleanKeyword(kw) == Some(k)
    ensures k != [] && 1 <= |Words(k)| <= 2 && AllClean(k) && CleanKeyword(k) == Some(k)
  {
    CleanKeywordWords(kw);
    var ws := FirstTwo(Words(Lower(Strip(RemovePunctuation(kw)))));
    JoinedCleanWords(ws);
    WordsOfJoin(ws);
    CleanKeywordIdempotent(kw);
  }

  /** Running `_clean_keywords` again on its own output changes nothing. */
  lemma CleanedKeywordsIdempotent(raw: seq<string>)
    ensures CleanedKeywords(CleanedKeywords(raw)) == CleanedKeywords(raw)
  {
    var r := CleanedKeywords(raw);
    CleanedKeywordsShape(raw);
    var all := Cleanings(r);
    assert FirstTwo(r) == r;
    assert forall j :: 0 <= j < |all| ==> all[j] == Some(r[j]);
    SomesKeeps(all);
  }
}
