/**
 * `get_stock_price`: classification of one intraday (1-minute) answer into a
 * price result. The answer is always fetched afresh; nothing is cached. The
 * price is kept as the raw `"4. close"` value, before `float(...)`.
 */
module Price {
  import opened Json
  import opened Results

  const MetaDataField := "Meta Data"
  const LastRefreshedField := "3. Last Refreshed"
  const SeriesField := "Time Series (1min)"
  const CloseField := "4. close"

  predicate HasMarker(data: Document) {
    ErrorMarker in data || RateLimitMarker in data
  }

  /**
   * `data["Meta Data"]["3. Last Refreshed"]` is `lastRefreshed`, and
   * `data["Time Series (1min)"][lastRefreshed]["4. close"]` is `close`.
   */
  predicate LatestBarClose(data: Document, lastRefreshed: Json, close: Json) {
    && MetaDataField in data
    && Subscript(data[MetaDataField], Str(LastRefreshedField)) == Found(lastRefreshed)
    && SeriesField in data
    && Subscript(data[SeriesField], lastRefreshed).Found?
    && Subscript(Subscript(data[SeriesField], lastRefreshed).value, Str(CloseField)) == Found(close)
  }

  /**
   * `get_stock_price(symbol)` when the provider answers `response`;
   * `parsesAsFloat` says which strings Python's `float` accepts.
   */
  function GetStockPrice(symbol: string, response: Response, parsesAsFloat: string -> bool): (r: StockPriceResult)
    // A failed request reports the transport's text.
    ensures response.TransportFailure? ==> r == PriceFailure(NetworkError(response.diagnostic))
    // "Error Message" wins over "Note", and both are checked before any field is read.
    ensures response.Body? && ErrorMarker in response.document ==> r == PriceFailure(SymbolNotFound(symbol))
    ensures response.Body? && ErrorMarker !in response.document && RateLimitMarker in response.document ==>
      r == PriceFailure(RateLimited)
    // A success is exactly a marker-free answer whose latest bar has a convertible close.
    ensures r.StockPrice? ==>
      && response.Body? && !HasMarker(response.document)
      && LatestBarClose(response.document, r.lastRefreshedEst, r.close)
      && FloatConvertible(r.close, parsesAsFloat)
    ensures response.Body? && !HasMarker(response.document) ==>
      forall lastRefreshed, close ::
        (LatestBarClose(response.document, lastRefreshed, close) && FloatConvertible(close, parsesAsFloat))
        ==> r == StockPrice(close, lastRefreshed)
    // A marker-free answer ends in one of three ways; any exception other than a KeyError is "Unexpected Error".
    ensures response.Body? && !HasMarker(response.document) ==>
      r.StockPrice? || r == PriceFailure(UnexpectedStructure) || r == PriceFailure(UnexpectedError)
    // A marker-free answer is an unexpected-structure failure exactly when a key on the path is missing.
    ensures response.Body? && !HasMarker(response.document) ==>
      (r == PriceFailure(UnexpectedStructure) <==> MissingOnPath(response.document))
  {
    match response
    case TransportFailure(diagnostic) => PriceFailure(NetworkError(diagnostic))
    case Body(data) =>
      if ErrorMarker in data then PriceFailure(SymbolNotFound(symbol))
      else if RateLimitMarker in data then PriceFailure(RateLimited)
      else if MetaDataField !in data then PriceFailure(UnexpectedStructure)
      else
        match Subscript(data[MetaDataField], Str(LastRefreshedField))
        case KeyMissing => PriceFailure(UnexpectedStructure)
        case Fault => PriceFailure(UnexpectedError)
        case Found(lastRefreshed) =>
          if SeriesField !in data then PriceFailure(UnexpectedStructure)
          else
            match Subscript(data[SeriesField], lastRefreshed)
            case KeyMissing => PriceFailure(UnexpectedStructure)
            case Fault => PriceFailure(UnexpectedError)
            case Found(bar) =>
              match Subscript(bar, Str(CloseField))
              case KeyMissing => PriceFailure(UnexpectedStructure)
              case Fault => PriceFailure(UnexpectedError)
              case Found(close) =>
                if FloatConvertible(close, parsesAsFloat) then StockPrice(close, lastRefreshed)
                else PriceFailure(UnexpectedError)
  }

  /**
   * Some key on the path to the latest close is absent from the object that
   * should hold it: "Meta Data" or "Time Series (1min)" at the top,
   * "3. Last Refreshed" in the metadata, the timestamp in the series, or
   * "4. close" in the bar.
   */
  predicate MissingOnPath(data: Document) {
    || MetaDataField !in data
    || Subscript(data[MetaDataField], Str(LastRefreshedField)).KeyMissing?
    || (var lr := Subscript(data[MetaDataField], Str(LastRefreshedField));
        && lr.Found?
        && (|| SeriesField !in data
            || Subscript(data[SeriesField], lr.value).KeyMissing?
            || (Subscript(data[SeriesField], lr.value).Found?
                && Subscript(Subscript(data[SeriesField], lr.value).value, Str(CloseField)).KeyMissing?)))
  }

  /** An intraday answer whose metadata names `timestamp` and whose bar there closes at `close`. */
  function IntradayDocument(timestamp: string, close: string): Document {
    map[MetaDataField := Obj(map[LastRefreshedField := Str(timestamp)]),
        SeriesField := Obj(map[timestamp := Obj(map[CloseField := Str(close)])])]
  }

  /** Reading an intraday answer gives back the close and timestamp it was built from. */
  lemma {:induction false} PriceOfIntradayDocument(symbol: string, timestamp: string, close: string,
                                                   parsesAsFloat: string -> bool)
    requires parsesAsFloat(close)
    ensures GetStockPrice(symbol, Body(IntradayDocument(timestamp, close)), parsesAsFloat)
            == StockPrice(Str(close), Str(timestamp))
  {
    var data := IntradayDocument(timestamp, close);
    assert !HasMarker(data);
    assert LatestBarClose(data, Str(timestamp), Str(close));
  }

  /** An empty series has no bar for any timestamp: an unexpected-structure failure, not a silent null. */
  lemma EmptySeriesIsStructureError(symbol: string, timestamp: string, parsesAsFloat: string -> bool)
    ensures GetStockPrice(symbol,
                          Body(map[MetaDataField := Obj(map[LastRefreshedField := Str(timestamp)]),
                                   SeriesField := Obj(map[])]),
                          parsesAsFloat)
            == PriceFailure(UnexpectedStructure)
  {
  }
}
