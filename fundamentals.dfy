/**
 * `get_fundamental_data` and its per-symbol snapshot cache `indicatorDataSet`.
 *
 * The cache maps a symbol to the last company-overview document fetched for
 * it. An entry is reused when its "LatestTradingDate" field equals the
 * reference trading date; otherwise the overview is fetched again and stored
 * over the whole entry. After a successful indicator lookup the entry's
 * "LatestTradingDate" field is set from the provider's latest-quote lookup.
 *
 * The two HTTP requests are inputs: `overview` and `quote` are what the
 * provider would answer, and `requests` records which of them were issued.
 */
module Fundamentals {
  import opened Json
  import opened Results
  import opened IndicatorCatalog
  import opened TradingCalendar

  /** A company-overview document, possibly tagged with "LatestTradingDate". */
  type Snapshot = Document

  /** `indicatorDataSet`: symbol (case-sensitive, as given) to snapshot. */
  type Cache = map<string, Snapshot>

  const TradingDayTag := "LatestTradingDate"
  const QuoteField := "Global Quote"
  const QuoteDayField := "07. latest trading day"

  /** The two provider endpoints a fundamental lookup may call. */
  datatype Endpoint = Overview | GlobalQuote

  /** `snapshot.get(key)`: the field's value, or `None` when absent. */
  function Get(s: Snapshot, key: string): Json {
    if key in s then s[key] else Null
  }

  /**
   * The cache test of lines 152-155 and 178-181: the symbol is cached and its
   * tag is the text `today`. A missing tag reads as `None`, which no date equals.
   */
  predicate IsFresh(cache: Cache, symbol: string, today: string) {
    symbol in cache && Get(cache[symbol], TradingDayTag) == Str(today)
  }

  /**
   * `get_latest_trading_day`: `data["Global Quote"]["07. latest trading day"]`,
   * or `None` when the request or either subscript raises.
   */
  function LatestTradingDay(quote: Response): (day: Json)
    ensures day != Null ==>
      && quote.Body? && QuoteField in quote.document
      && quote.document[QuoteField].Obj?
      && QuoteDayField in quote.document[QuoteField].fields
      && quote.document[QuoteField].fields[QuoteDayField] == day
    ensures (&& quote.Body? && QuoteField in quote.document && quote.document[QuoteField].Obj?
             && QuoteDayField in quote.document[QuoteField].fields)
            ==> day == quote.document[QuoteField].fields[QuoteDayField]
  {
    match quote
    case TransportFailure(_) => Null
    case Body(data) =>
      if QuoteField !in data then Null
      else
        match Subscript(data[QuoteField], Str(QuoteDayField))
        case Found(v) => v
        case _ => Null
  }

  /** A latest-quote answer reporting `day` as the latest trading day. */
  function QuoteDocument(day: string): Document {
    map[QuoteField := Obj(map[QuoteDayField := Str(day)])]
  }

  /** The quote lookup reads back the day a quote answer reports. */
  lemma LatestTradingDayOfQuote(day: string)
    ensures LatestTradingDay(Body(QuoteDocument(day))) == Str(day)
  {
  }

  /** The result of one call, the cache after it, and the requests it issued, in order. */
  datatype FetchOutcome = FetchOutcome(result: StockFundamentals, cache: Cache, requests: seq<Endpoint>)

  /**
   * Lines 165-192, once `cache[symbol]` holds the snapshot to read: the provider
   * markers, then the indicator, then the trading day, reused from the tag when
   * fresh and otherwise asked of the quote endpoint and written into the entry.
   */
  function ReadSnapshot(cache: Cache, symbol: string, indicatorType: string, today: string,
                        quote: Response, requests: seq<Endpoint>): (o: FetchOutcome)
    requires symbol in cache
    ensures var data := cache[symbol];
      && (ErrorMarker in data ==> o == FetchOutcome(FundamentalsFailure(SymbolNotFound(symbol)), cache, requests))
      && (ErrorMarker !in data && RateLimitMarker in data ==>
            o == FetchOutcome(FundamentalsFailure(RateLimited), cache, requests))
      && (ErrorMarker !in data && RateLimitMarker !in data && indicatorType !in data ==>
            o == FetchOutcome(FundamentalsFailure(UnexpectedStructure), cache, requests))
      && (o.result.Fundamentals? <==>
            ErrorMarker !in data && RateLimitMarker !in data && indicatorType in data)
    ensures o.result.Fundamentals? ==>
      var data := cache[symbol];
      && o.result == Fundamentals(symbol, indicatorType, data[indicatorType], o.result.latestTradingDay)
      && o.cache == cache[symbol := data[TradingDayTag := o.result.latestTradingDay]]
      && (if IsFresh(cache, symbol, today)
          then o.result.latestTradingDay == Str(today) && o.requests == requests
          else o.result.latestTradingDay == LatestTradingDay(quote) && o.requests == requests + [GlobalQuote])
    // At most the quote is requested, and only the symbol's own entry can change.
    ensures o.requests == requests || o.requests == requests + [GlobalQuote]
    ensures o.requests == requests ==> o.cache == cache
    ensures o.requests == requests + [GlobalQuote] ==>
      o.cache == cache[symbol := cache[symbol][TradingDayTag := LatestTradingDay(quote)]]
    // A success leaves its value and its trading day in the entry (the tag itself is no indicator).
    ensures o.result.Fundamentals? && indicatorType != TradingDayTag ==>
      && symbol in o.cache && indicatorType in o.cache[symbol]
      && o.result.value == o.cache[symbol][indicatorType]
      && Get(o.cache[symbol], TradingDayTag) == o.result.latestTradingDay
  {
    var data := cache[symbol];
    if ErrorMarker in data then
      FetchOutcome(FundamentalsFailure(SymbolNotFound(symbol)), cache, requests)
    else if RateLimitMarker in data then
      FetchOutcome(FundamentalsFailure(RateLimited), cache, requests)
    else if indicatorType !in data then
      FetchOutcome(FundamentalsFailure(UnexpectedStructure), cache, requests)
    else if IsFresh(cache, symbol, today) then
      assert data[TradingDayTag := data[TradingDayTag]] == data;
      FetchOutcome(Fundamentals(symbol, indicatorType, data[indicatorType], data[TradingDayTag]), cache, requests)
    else
      var day := LatestTradingDay(quote);
      FetchOutcome(Fundamentals(symbol, indicatorType, data[indicatorType], day),
                   cache[symbol := data[TradingDayTag := day]], requests + [GlobalQuote])
  }

  /**
   * Lines 150-201, for a name that passed the catalog test (so it is not the
   * cache's own tag): the cache test, the overview request on a miss, and the
   * snapshot read.
   */
  function FetchRecognized(cache: Cache, symbol: string, indicatorType: string, today: string,
                           overview: Response, quote: Response): (o: FetchOutcome)
    requires indicatorType != TradingDayTag
    ensures o.requests == [] || o.requests == [Overview] || o.requests == [Overview, GlobalQuote]
    ensures Overview in o.requests <==> !IsFresh(cache, symbol, today)
    ensures o.cache - {symbol} == cache - {symbol}
    ensures cache.Keys <= o.cache.Keys <= cache.Keys + {symbol}
    ensures IsFresh(cache, symbol, today) ==>
      && o.cache == cache
      && (o.result.Fundamentals? ==>
            && indicatorType in cache[symbol]
            && o.result.value == cache[symbol][indicatorType]
            && o.result.latestTradingDay == Str(today))
    ensures !IsFresh(cache, symbol, today) && overview.TransportFailure? ==>
      o == FetchOutcome(FundamentalsFailure(NetworkError(overview.diagnostic)), cache, [Overview])
    ensures !IsFresh(cache, symbol, today) && overview.Body? ==>
      && symbol in o.cache
      && (GlobalQuote in o.requests ==>
            o.cache[symbol] == overview.document[TradingDayTag := LatestTradingDay(quote)])
      && (GlobalQuote !in o.requests ==> o.cache[symbol] == overview.document)
    ensures o.result.Fundamentals? ==>
      && o.result.symbol == symbol && o.result.indicatorType == indicatorType
      && symbol in o.cache && indicatorType in o.cache[symbol]
      && o.result.value == o.cache[symbol][indicatorType]
      && Get(o.cache[symbol], TradingDayTag) == o.result.latestTradingDay
  {
    if IsFresh(cache, symbol, today) then
      ReadSnapshot(cache, symbol, indicatorType, today, quote, [])
    else
      match overview
      case TransportFailure(diagnostic) =>
        FetchOutcome(FundamentalsFailure(NetworkError(diagnostic)), cache, [Overview])
      case Body(data) =>
        ReadSnapshot(cache[symbol := data], symbol, indicatorType, today, quote, [Overview])
  }

  /**
   * `get_fundamental_data(symbol, indicatorType)` against the cache `cache`,
   * with `today` the reference trading date.
   */
  function FundamentalData(cache: Cache, symbol: string, indicatorType: string, today: string,
                           overview: Response, quote: Response): (o: FetchOutcome)
    // An unknown indicator is refused before any request, and the cache is untouched.
    ensures !IsRecognized(indicatorType) ==>
      o == FetchOutcome(FundamentalsFailure(UnknownIndicator(indicatorType)), cache, [])
    // Which requests are issued: the overview exactly on a miss, the quote only after it.
    ensures o.requests == [] || o.requests == [Overview] || o.requests == [Overview, GlobalQuote]
    ensures Overview in o.requests <==> IsRecognized(indicatorType) && !IsFresh(cache, symbol, today)
    // Entries of other symbols never change, and no entry is ever removed.
    ensures o.cache - {symbol} == cache - {symbol}
    ensures cache.Keys <= o.cache.Keys <= cache.Keys + {symbol}
    // A hit reads the cached snapshot, changes nothing and reports the reference date.
    ensures IsRecognized(indicatorType) && IsFresh(cache, symbol, today) ==>
      && o.cache == cache
      && (o.result.Fundamentals? ==>
            && indicatorType in cache[symbol]
            && o.result.value == cache[symbol][indicatorType]
            && o.result.latestTradingDay == Str(today))
    // A failed overview request reports the transport's text and leaves the cache as it was.
    ensures IsRecognized(indicatorType) && !IsFresh(cache, symbol, today) && overview.TransportFailure? ==>
      o == FetchOutcome(FundamentalsFailure(NetworkError(overview.diagnostic)), cache, [Overview])
    // A decoded overview replaces the symbol's whole entry.
    ensures IsRecognized(indicatorType) && !IsFresh(cache, symbol, today) && overview.Body? ==>
      && symbol in o.cache
      && (GlobalQuote in o.requests ==>
            o.cache[symbol] == overview.document[TradingDayTag := LatestTradingDay(quote)])
      && (GlobalQuote !in o.requests ==> o.cache[symbol] == overview.document)
    // Success echoes the inputs, and the stored tag is the trading day returned.
    ensures o.result.Fundamentals? ==>
      && o.result.symbol == symbol && o.result.indicatorType == indicatorType
      && symbol in o.cache && indicatorType in o.cache[symbol]
      && o.result.value == o.cache[symbol][indicatorType]
      && Get(o.cache[symbol], TradingDayTag) == o.result.latestTradingDay
  {
    if !IsRecognized(indicatorType) then
      FetchOutcome(FundamentalsFailure(UnknownIndicator(indicatorType)), cache, [])
    else
      TradingDayTagNotRecognized();
      FetchRecognized(cache, symbol, indicatorType, today, overview, quote)
  }

  /** `indicatorDataSet` together with `get_fundamental_data`, which updates it in place. */
  class SnapshotCache {
    var entries: Cache

    /** The cache starts empty when the process starts. */
    constructor ()
      ensures entries == map[]
    {
      entries := map[];
    }

    /**
     * `get_fundamental_data(symbol, indicatorType)` called at the Eastern local
     * instant `now`, the provider answering `overview` and `quote`.
     */
    method GetFundamentalData(symbol: string, indicatorType: string, now: LocalInstant,
                              overview: Response, quote: Response)
      returns (result: StockFundamentals, requests: seq<Endpoint>)
      requires Computable(now)
      modifies this
      ensures FetchOutcome(result, entries, requests)
              == FundamentalData(old(entries), symbol, indicatorType, ReferenceDate(now), overview, quote)
    {
      requests := [];
      if indicatorType !in IndicatorTypes {
        result := FundamentalsFailure(UnknownIndicator(indicatorType));
        return;
      }
      var today := ReferenceDate(now);
      TradingDayTagNotRecognized();
      result, requests := ServeRecognized(symbol, indicatorType, today, overview, quote);
    }

    /**
     * Lines 150-201 once the name has passed the catalog test, with `today`
     * the reference date read at line 153.
     */
    method ServeRecognized(symbol: string, indicatorType: string, today: string,
                           overview: Response, quote: Response)
      returns (result: StockFundamentals, requests: seq<Endpoint>)
      requires indicatorType != TradingDayTag
      modifies this
      ensures FetchOutcome(result, entries, requests)
              == FetchRecognized(old(entries), symbol, indicatorType, today, overview, quote)
    {
      requests := [];
      var data: Snapshot;
      if symbol in entries && Get(entries[symbol], TradingDayTag) == Str(today) {
        data := entries[symbol];
      } else {
        requests := requests + [Overview];
        match overview
        case TransportFailure(diagnostic) =>
          result := FundamentalsFailure(NetworkError(diagnostic));
          return;
        case Body(document) =>
          data := document;
          entries := entries[symbol := data];
      }
      if ErrorMarker in data {
        result := FundamentalsFailure(SymbolNotFound(symbol));
        return;
      }
      if RateLimitMarker in data {
        result := FundamentalsFailure(RateLimited);
        return;
      }
      if indicatorType !in data {
        result := FundamentalsFailure(UnexpectedStructure);
        return;
      }
      var value := data[indicatorType];
      var latestTradingDay: Json;
      if symbol in entries && Get(entries[symbol], TradingDayTag) == Str(today) {
        latestTradingDay := entries[symbol][TradingDayTag];
      } else {
        requests := requests + [GlobalQuote];
        latestTradingDay := LatestTradingDay(quote);
        entries := entries[symbol := entries[symbol][TradingDayTag := latestTradingDay]];
      }
      result := Fundamentals(symbol, indicatorType, value, latestTradingDay);
    }
  }

  // ---------------------------------------------------------------------
  // Properties across calls.

  /**
   * Once a call has succeeded with the reference date as its trading day,
   * a second call on the same reference date for any indicator issues no
   * request at all and reads the stored snapshot.
   */
  lemma {:induction false} SecondCallServedFromCache(
    cache: Cache, symbol: string, first: string, second: string, today: string,
    overview1: Response, quote1: Response, overview2: Response, quote2: Response)
    requires var o1 := FundamentalData(cache, symbol, first, today, overview1, quote1);
      o1.result.Fundamentals? && o1.result.latestTradingDay == Str(today)
    requires IsRecognized(second)
    ensures var o1 := FundamentalData(cache, symbol, first, today, overview1, quote1);
      var o2 := FundamentalData(o1.cache, symbol, second, today, overview2, quote2);
      && o2.requests == []
      && o2.cache == o1.cache
      && (second in o1.cache[symbol] ==>
            o2.result == Fundamentals(symbol, second, o1.cache[symbol][second], Str(today)))
  {
    var o1 := FundamentalData(cache, symbol, first, today, overview1, quote1);
    assert IsFresh(o1.cache, symbol, today);
  }

  /** A snapshot tagged for one date is bypassed once the reference date has moved on. */
  lemma StaleEntryIsRefetched(cache: Cache, symbol: string, indicatorType: string,
                              tagged: string, today: string, overview: Response, quote: Response)
    requires symbol in cache && Get(cache[symbol], TradingDayTag) == Str(tagged)
    requires tagged != today && IsRecognized(indicatorType)
    ensures FundamentalData(cache, symbol, indicatorType, today, overview, quote).requests[0] == Overview
  {
  }

  /**
   * The tag written is the provider's latest trading day, not the reference
   * date. When the two differ (a market holiday, or a call during the trading
   * session) the entry never becomes fresh, and the next call on the same
   * reference date fetches the overview again.
   */
  lemma {:induction false} QuoteDayOtherThanReferenceDateDefeatsCache(
    cache: Cache, symbol: string, first: string, second: string, today: string,
    overview1: Response, quote1: Response, overview2: Response, quote2: Response)
    requires var o1 := FundamentalData(cache, symbol, first, today, overview1, quote1);
      o1.result.Fundamentals? && GlobalQuote in o1.requests
    requires LatestTradingDay(quote1) != Str(today)
    requires IsRecognized(second)
    ensures var o1 := FundamentalData(cache, symbol, first, today, overview1, quote1);
      o1.requests == [Overview, GlobalQuote]
      && FundamentalData(o1.cache, symbol, second, today, overview2, quote2).requests[0] == Overview
  {
    var o1 := FundamentalData(cache, symbol, first, today, overview1, quote1);
    assert !IsFresh(o1.cache, symbol, today);
  }

  /**
   * An overview answer carrying a provider marker is stored as it is, untagged,
   * so unless the answer itself holds the tag the next call fetches again.
   */
  lemma {:induction false} MarkedAnswerIsStoredButNotReused(
    cache: Cache, symbol: string, indicatorType: string, today: string,
    document: Document, quote: Response, overview2: Response, quote2: Response)
    requires IsRecognized(indicatorType) && !IsFresh(cache, symbol, today)
    requires ErrorMarker in document || RateLimitMarker in document
    requires Get(document, TradingDayTag) != Str(today)
    ensures var o1 := FundamentalData(cache, symbol, indicatorType, today, Body(document), quote);
      && o1.result.FundamentalsFailure?
      && o1.requests == [Overview]
      && o1.cache == cache[symbol := document]
      && FundamentalData(o1.cache, symbol, indicatorType, today, overview2, quote2).requests[0] == Overview
  {
    var o1 := FundamentalData(cache, symbol, indicatorType, today, Body(document), quote);
    assert o1.cache[symbol] == document;
    assert !IsFresh(o1.cache, symbol, today);
  }

  /**
   * A failed quote lookup does not fail the call: the indicator is returned as
   * a success with `None` for its trading day, and `None` is stored as the tag.
   */
  lemma FailedQuoteStillSucceeds(cache: Cache, symbol: string, indicatorType: string, today: string,
                                 overview: Response, diagnostic: string)
    requires var o := FundamentalData(cache, symbol, indicatorType, today, overview, TransportFailure(diagnostic));
      o.result.Fundamentals? && GlobalQuote in o.requests
    ensures var o := FundamentalData(cache, symbol, indicatorType, today, overview, TransportFailure(diagnostic));
      && o.result.IsSuccess()
      && o.result.latestTradingDay == Null
      && o.cache[symbol][TradingDayTag] == Null
  {
  }

  /**
   * The worked example: an empty cache, an overview giving "PERatio" as "30.0"
   * and a quote giving "2024-01-01" yield that value and day, after one request
   * to each endpoint.
   */
  lemma PERatioScenario(today: string)
    ensures var o := FundamentalData(map[], "AAPL", "PERatio", today,
                                     Body(map["Symbol" := Str("AAPL"), "PERatio" := Str("30.0")]),
                                     Body(QuoteDocument("2024-01-01")));
      && o.result == Fundamentals("AAPL", "PERatio", Str("30.0"), Str("2024-01-01"))
      && o.requests == [Overview, GlobalQuote]
      && (IsFresh(o.cache, "AAPL", today) <==> today == "2024-01-01")
  {
    assert "PERatio" in FinancialFields;
    TradingDayTagNotRecognized();
    LatestTradingDayOfQuote("2024-01-01");
  }

  /** A name outside the catalog is refused with no request. */
  lemma UnknownIndicatorScenario(cache: Cache, today: string, overview: Response, quote: Response)
    ensures var o := FundamentalData(cache, "AAPL", "NotARealIndicator", today, overview, quote);
      && o.result == FundamentalsFailure(UnknownIndicator("NotARealIndicator"))
      && o.result.ErrorMessage().Some?
      && o.requests == [] && o.cache == cache
  {
    CatalogExamples();
  }
}
