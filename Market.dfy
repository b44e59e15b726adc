/**
 * The market indicators endpoint: the currency-rate payload of the rate
 * provider is reduced to at most one quote per target currency, in the
 * target list's order, with USD always present; the last good result and
 * the one before it are kept in two cache slots, and a failed fetch falls
 * back to the last good result.  A rate is kept as the real number that
 * `float(rate)` stands for, and its truthiness is recorded beside it.
 */
module Market {
  import opened Wrappers
  import opened Text
  import opened Query
  import ApiErrors

  const TARGET_CURRENCIES: seq<string> := ["USD", "EUR", "GBP", "JPY", "CNY"]
  const MARKET_CACHE_TIMEOUT: nat := 420

  /** A rate field's value: whether Python finds it truthy, and what `float()` makes of it (`None` when it raises). */
  datatype RateValue = RateValue(truthy: bool, asFloat: Option<real>)

  /** One element of `result.data`: something that is not a dict, or a dict with the fields the parser reads. */
  datatype Entry =
    | NotADict
    | Fields(code: Option<string>, currency: Option<string>, name: Option<string>,
             rate: Option<RateValue>, value: Option<RateValue>, buying: Option<RateValue>)

  /** `result.data`: a list, or some other value (read as the empty list). */
  datatype Data = DataList(entries: seq<Entry>) | NotAList

  /** The provider's payload: `result` with its `base` and `data`, each possibly absent. */
  datatype Payload = Payload(result: Option<ResultPart>)
  datatype ResultPart = ResultPart(base: Option<string>, data: Option<Data>)

  datatype Quote = Quote(value: real, caption: string)
  datatype MarketItem = MarketItem(symbol: string, caption: string, value: real)
  datatype Indicators = Indicators(base: string, updatedAt: string, items: seq<MarketItem>)

  predicate Truthy(s: Option<string>) { s.Some? && s.value != [] }

  /** `item.get("code") or item.get("currency") or item.get("name", "").upper()`. */
  function RawCode(e: Entry): string
    requires e.Fields?
  {
    if Truthy(e.code) then e.code.value
    else if Truthy(e.currency) then e.currency.value
    else Upper(e.name.GetOr(""))
  }

  /** `item.get("rate") or item.get("value") or item.get("buying")`. */
  function RawRate(e: Entry): (r: Option<RateValue>)
    requires e.Fields?
    ensures r.Some? && !r.value.truthy ==> r == e.buying
    ensures r.None? ==> e.buying.None?
  {
    if e.rate.Some? && e.rate.value.truthy then e.rate
    else if e.value.Some? && e.value.value.truthy then e.value
    else e.buying
  }

  /**
   * The quote one entry contributes, with its code: none for a non-dict,
   * for an empty code, for a missing rate, for a code outside the targets
   * and for a rate `float()` rejects.  The caption is the name, or the code.
   */
  function QuoteOf(e: Entry): (r: Option<(string, Quote)>)
    ensures r.Some? ==>
      e.Fields? && RawCode(e) != [] && RawRate(e).Some? && RawRate(e).value.asFloat.Some? &&
      r.value.0 == Upper(RawCode(e)) && r.value.0 in TARGET_CURRENCIES &&
      r.value.1.value == RawRate(e).value.asFloat.value
    ensures r.Some? ==> r.value.1.caption == if Truthy(e.name) then e.name.value else r.value.0
    ensures (e.Fields? && RawCode(e) != [] && RawRate(e).Some? && RawRate(e).value.asFloat.Some? &&
             Upper(RawCode(e)) in TARGET_CURRENCIES) ==> r.Some?
  {
    if e.NotADict? then None
    else
      var raw := RawCode(e);
      var rate := RawRate(e);
      if raw == [] || rate.None? then None
      else
        var code := Upper(raw);
        if code !in TARGET_CURRENCIES || rate.value.asFloat.None? then None
        else Some((code, Quote(rate.value.asFloat.value, if Truthy(e.name) then e.name.value else code)))
  }

  /** The entry is accepted with code `c`. */
  predicate Yields(e: Entry, c: string) {
    QuoteOf(e).Some? && QuoteOf(e).value.0 == c
  }

  /** `currency_map` after the loop over the entries: each accepted entry overwrites its code's quote. */
  function QuoteMap(entries: seq<Entry>): map<string, Quote> {
    if entries == [] then map[]
    else
      var m := QuoteMap(entries[..|entries| - 1]);
      match QuoteOf(entries[|entries| - 1])
      case None => m
      case Some(cq) => m[cq.0 := cq.1]
  }

  /** A code is in the map exactly when some entry is accepted with it. */
  lemma {:induction false} QuoteMapKeys(entries: seq<Entry>, c: string)
    ensures c in QuoteMap(entries) <==> exists k :: 0 <= k < |entries| && Yields(entries[k], c)
  {
    if entries != [] {
      var init := entries[..|entries| - 1];
      QuoteMapKeys(init, c);
      var q := QuoteOf(entries[|entries| - 1]);
      if q.Some? {
        assert QuoteMap(entries) == QuoteMap(init)[q.value.0 := q.value.1];
      } else {
        assert QuoteMap(entries) == QuoteMap(init);
      }
      if exists k :: 0 <= k < |init| && Yields(init[k], c) {
        var k :| 0 <= k < |init| && Yields(init[k], c);
        assert entries[k] == init[k];
      }
      if exists k :: 0 <= k < |entries| && Yields(entries[k], c) {
        var k :| 0 <= k < |entries| && Yields(entries[k], c);
        if k < |init| { assert init[k] == entries[k]; }
      }
    }
  }

  /** Entry `k` is the last one accepted with code `c`. */
  predicate LastYield(entries: seq<Entry>, k: int, c: string) {
    0 <= k < |entries| && Yields(entries[k], c) &&
    forall j :: k < j < |entries| ==> !Yields(entries[j], c)
  }

  /** A later entry with the same code overwrites an earlier one: the map holds the last accepted entry's quote. */
  lemma {:induction false} QuoteMapLastWins(entries: seq<Entry>, k: int, c: string)
    requires LastYield(entries, k, c)
    ensures c in QuoteMap(entries) && QuoteMap(entries)[c] == QuoteOf(entries[k]).value.1
  {
    var init := entries[..|entries| - 1];
    if k < |init| {
      assert !Yields(entries[|entries| - 1], c);
      assert init[k] == entries[k];
      forall j | k < j < |init| ensures !Yields(init[j], c) {
        assert init[j] == entries[j];
      }
      QuoteMapLastWins(init, k, c);
    }
  }

  /** `if "USD" not in currency_map`: the base currency at 1.0. */
  function WithUsd(m: map<string, Quote>): (r: map<string, Quote>)
    ensures "USD" in r
    ensures "USD" in m ==> r == m
    ensures "USD" !in m ==> r["USD"] == Quote(1.0, "USD") && forall c :: c in m ==> c in r && r[c] == m[c]
  {
    if "USD" in m then m else m["USD" := Quote(1.0, "USD")]
  }

  /** The items for the given symbols, in their order, for those the map has. */
  function ItemsFor(symbols: seq<string>, m: map<string, Quote>): (r: seq<MarketItem>)
    ensures forall it :: it in r ==> it.symbol in m && it.symbol in symbols && it == MarketItem(it.symbol, m[it.symbol].caption, m[it.symbol].value)
  {
    if symbols == [] then []
    else
      var rest := ItemsFor(symbols[..|symbols| - 1], m);
      var s := symbols[|symbols| - 1];
      if s in m then rest + [MarketItem(s, m[s].caption, m[s].value)] else rest
  }

  function Symbols(items: seq<MarketItem>): (r: seq<string>)
    ensures |r| == |items|
  {
    seq(|items|, k requires 0 <= k < |items| => items[k].symbol)
  }

  /** The items' symbols are exactly the listed symbols the map has, in the list's order. */
  lemma {:induction false} ItemsForSymbols(symbols: seq<string>, m: map<string, Quote>)
    ensures Symbols(ItemsFor(symbols, m)) == Filter(symbols, (s: string) => s in m)
  {
    if symbols != [] {
      var init := symbols[..|symbols| - 1];
      var s := symbols[|symbols| - 1];
      ItemsForSymbols(init, m);
      FilterSnoc(init, s, (x: string) => x in m);
      assert symbols == init + [s];
    }
  }

  lemma {:induction false} FilterSnoc<T(!new)>(s: seq<T>, x: T, keep: T -> bool)
    ensures Filter(s + [x], keep) == Filter(s, keep) + (if keep(x) then [x] else [])
  {
    if s != [] {
      assert (s + [x])[1..] == s[1..] + [x];
      FilterSnoc(s[1..], x, keep);
    } else {
      assert [x][1..] == [];
    }
  }

  function Entries(p: Payload): seq<Entry> {
    if p.result.Some? && p.result.value.data.Some? && p.result.value.data.value.DataList?
    then p.result.value.data.value.entries else []
  }

  function Base(p: Payload): string {
    if p.result.Some? then p.result.value.base.GetOr("USD") else "USD"
  }

  /** `_parse_collectapi_response`, with the timestamp text given. */
  function Parse(p: Payload, updatedAt: string): Indicators {
    Indicators(Base(p), updatedAt, ItemsFor(TARGET_CURRENCIES, WithUsd(QuoteMap(Entries(p)))))
  }

  lemma TargetsDistinct()
    ensures Distinct(TARGET_CURRENCIES)
  {
  }

  /**
   * The parsed items: only target currencies, each at most once, in the
   * target order, and USD always among them.
   */
  lemma ParsedSymbols(p: Payload, updatedAt: string)
    ensures var m := WithUsd(QuoteMap(Entries(p)));
      Symbols(Parse(p, updatedAt).items) == Filter(TARGET_CURRENCIES, (s: string) => s in m)
    ensures Distinct(Symbols(Parse(p, updatedAt).items))
    ensures "USD" in Symbols(Parse(p, updatedAt).items)
  {
    var m := WithUsd(QuoteMap(Entries(p)));
    ItemsForSymbols(TARGET_CURRENCIES, m);
    TargetsDistinct();
    FilterDistinct(TARGET_CURRENCIES, (s: string) => s in m);
    assert "USD" in TARGET_CURRENCIES;
  }

  /** With no accepted USD entry, USD is listed at 1.0 under its own code. */
  lemma UsdDefault(p: Payload, updatedAt: string)
    requires forall k :: 0 <= k < |Entries(p)| ==> !Yields(Entries(p)[k], "USD")
    ensures MarketItem("USD", "USD", 1.0) in Parse(p, updatedAt).items
  {
    var items := Parse(p, updatedAt).items;
    ParsedSymbols(p, updatedAt);
    QuoteMapKeys(Entries(p), "USD");
    var k :| 0 <= k < |items| && Symbols(items)[k] == "USD";
    assert items[k] in items;
  }

  /** A USD entry that is accepted and not overwritten gives USD's listed quote. */
  lemma UsdFromEntry(p: Payload, updatedAt: string, k: int)
    requires LastYield(Entries(p), k, "USD")
    ensures var q := QuoteOf(Entries(p)[k]).value.1;
      MarketItem("USD", q.caption, q.value) in Parse(p, updatedAt).items
  {
    var items := Parse(p, updatedAt).items;
    ParsedSymbols(p, updatedAt);
    QuoteMapLastWins(Entries(p), k, "USD");
    var i :| 0 <= i < |items| && Symbols(items)[i] == "USD";
    assert items[i] in items;
  }

  /** One pass of the entry loop: the quote the entry contributes, by the same tests in the same order. */
  method EntryQuote(e: Entry) returns (q: Option<(string, Quote)>)
    ensures q == QuoteOf(e)
  {
    if e.NotADict? {
      return None;
    }
    var raw := RawCode(e);
    var rate := RawRate(e);
    if raw == [] || rate.None? {
      return None;
    }
    var code := Upper(raw);
    if code in TARGET_CURRENCIES {
      if rate.value.asFloat.None? {
        return None;
      }
      var caption := if Truthy(e.name) then e.name.value else code;
      return Some((code, Quote(rate.value.asFloat.value, caption)));
    }
    q := None;
  }

  /** `_parse_collectapi_response`: the loop filling `currency_map`, then the loop building `items`. */
  method ParseResponse(p: Payload, updatedAt: string) returns (r: Indicators)
    ensures r == Parse(p, updatedAt)
  {
    var currencyMap := FillCurrencyMap(Entries(p));
    if "USD" !in currencyMap {
      currencyMap := currencyMap["USD" := Quote(1.0, "USD")];
    }
    var items := BuildItems(currencyMap);
    r := Indicators(Base(p), updatedAt, items);
  }

  /** The first loop: each usable entry sets its currency's quote, a later one overwriting an earlier one. */
  method FillCurrencyMap(entries: seq<Entry>) returns (currencyMap: map<string, Quote>)
    ensures currencyMap == QuoteMap(entries)
  {
    currencyMap := map[];
    var i := 0;
    while i < |entries|
      invariant 0 <= i <= |entries|
      invariant currencyMap == QuoteMap(entries[..i])
    {
      assert entries[..i + 1][..i] == entries[..i];
      var q := EntryQuote(entries[i]);
      if q.Some? {
        currencyMap := currencyMap[q.value.0 := q.value.1];
      }
      i := i + 1;
    }
    assert entries[..i] == entries;
  }

  /** The second loop: the target currencies found in the map, in the targets' order. */
  method BuildItems(currencyMap: map<string, Quote>) returns (items: seq<MarketItem>)
    ensures items == ItemsFor(TARGET_CURRENCIES, currencyMap)
  {
    items := [];
    var k := 0;
    while k < |TARGET_CURRENCIES|
      invariant 0 <= k <= |TARGET_CURRENCIES|
      invariant items == ItemsFor(TARGET_CURRENCIES[..k], currencyMap)
    {
      assert TARGET_CURRENCIES[..k + 1][..k] == TARGET_CURRENCIES[..k];
      var symbol := TARGET_CURRENCIES[k];
      if symbol in currencyMap {
        items := items + [MarketItem(symbol, currencyMap[symbol].caption, currencyMap[symbol].value)];
      }
      k := k + 1;
    }
    assert TARGET_CURRENCIES[..k] == TARGET_CURRENCIES;
  }

  // ---------------------------------------------------------------------
  // the two cache slots
  // ---------------------------------------------------------------------

  datatype Slot = Slot(data: Indicators, expiresAt: int)

  /** `cache.get`: a slot's value while the clock is before its expiry time. */
  function Live(s: Option<Slot>, now: int): (r: Option<Indicators>)
    ensures r.Some? <==> s.Some? && now < s.value.expiresAt
    ensures r.Some? ==> r.value == s.value.data
  {
    if s.Some? && now < s.value.expiresAt then Some(s.value.data) else None
  }

  /** The two slots after a request, and its answer. */
  datatype Outcome = Outcome(answer: Result<Indicators, ApiErrors.HttpError>, latest: Option<Slot>, previous: Option<Slot>)

  /**
   * `get_market_indicators`, given the fetch's result.  A good fetch is
   * answered and stored as the latest value, the live latest value moving
   * to the previous slot; a failed fetch is answered from the live latest
   * value, or with the fetch's error when there is none.
   */
  function IndicatorsOutcome(latest: Option<Slot>, previous: Option<Slot>,
                             fetched: Result<Payload, ApiErrors.HttpError>, updatedAt: string, now: int): (o: Outcome)
    ensures fetched.Ok? ==>
      o.answer == Ok(Parse(fetched.value, updatedAt)) &&
      o.latest == Some(Slot(Parse(fetched.value, updatedAt), now + MARKET_CACHE_TIMEOUT)) &&
      o.previous == (if Live(latest, now).Some? then Some(Slot(latest.value.data, now + 2 * MARKET_CACHE_TIMEOUT)) else previous)
    ensures fetched.Err? ==> o.latest == latest && o.previous == previous
    ensures fetched.Err? && Live(latest, now).Some? ==> o.answer == Ok(latest.value.data)
    ensures fetched.Err? && Live(latest, now).None? ==> o.answer == Err(fetched.error)
  {
    var cached := Live(latest, now);
    match fetched
    case Ok(payload) =>
      var parsed := Parse(payload, updatedAt);
      var prev := if cached.Some? then Some(Slot(cached.value, now + 2 * MARKET_CACHE_TIMEOUT)) else previous;
      Outcome(Ok(parsed), Some(Slot(parsed, now + MARKET_CACHE_TIMEOUT)), prev)
    case Err(e) =>
      if cached.Some? then Outcome(Ok(cached.value), latest, previous) else Outcome(Err(e), latest, previous)
  }

  /**
   * Two good fetches within the cache timeout leave the first result in the
   * previous slot and the second in the latest; a failure soon after is then
   * answered with the second.
   */
  lemma RotationKeepsLastTwo(latest: Option<Slot>, previous: Option<Slot>, p1: Payload, p2: Payload,
                             u1: string, u2: string, t1: int, t2: int, t3: int, e: ApiErrors.HttpError)
    requires t1 <= t2 < t1 + MARKET_CACHE_TIMEOUT && t2 <= t3 < t2 + MARKET_CACHE_TIMEOUT
    ensures var o1 := IndicatorsOutcome(latest, previous, Ok(p1), u1, t1);
      var o2 := IndicatorsOutcome(o1.latest, o1.previous, Ok(p2), u2, t2);
      var o3 := IndicatorsOutcome(o2.latest, o2.previous, Err(e), u2, t3);
      Live(o2.previous, t2) == Some(Parse(p1, u1)) && Live(o2.latest, t2) == Some(Parse(p2, u2)) &&
      o3.answer == Ok(Parse(p2, u2))
  {
  }

  /** With nothing cached, a failed fetch is answered with its error (a 503 from the fetcher). */
  lemma NoCacheFailureFails(previous: Option<Slot>, e: ApiErrors.HttpError, u: string, now: int)
    ensures IndicatorsOutcome(None, previous, Err(e), u, now).answer == Err(e)
  {
  }

  class MarketCache {
    var latest: Option<Slot>
    var previous: Option<Slot>

    constructor ()
      ensures latest.None? && previous.None?
    {
      latest, previous := None, None;
    }

    /** `get_market_indicators`: the fetch result and the timestamp text are given. */
    method GetIndicators(fetched: Result<Payload, ApiErrors.HttpError>, updatedAt: string, now: int)
      returns (answer: Result<Indicators, ApiErrors.HttpError>)
      modifies this
      ensures var o := IndicatorsOutcome(old(latest), old(previous), fetched, updatedAt, now);
        answer == o.answer && latest == o.latest && previous == o.previous
    {
      var cached := Live(latest, now);
      if fetched.Ok? {
        var parsed := ParseResponse(fetched.value, updatedAt);
        if cached.Some? {
          previous := Some(Slot(cached.value, now + 2 * MARKET_CACHE_TIMEOUT));
        }
        latest := Some(Slot(parsed, now + MARKET_CACHE_TIMEOUT));
        return Ok(parsed);
      }
      if cached.Some? {
        return Ok(cached.value);
      }
      answer := Err(fetched.error);
    }
  }
}
