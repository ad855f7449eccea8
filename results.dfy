/**
 * The result records `StockFundamentals` and `StockPriceResult`, as a tagged
 * union over a closed set of failures. Each failure carries exactly the text
 * the source puts in `error_message`, and `is_success` is "no error message".
 */
module Results {
  import opened Wrappers
  import opened Json

  /** The fields by which the provider reports, inside an answer, that a request failed. */
  const ErrorMarker := "Error Message"
  const RateLimitMarker := "Note"

  datatype FetchError =
    | UnknownIndicator(indicatorType: string)  // the name is not in the catalog
    | SymbolNotFound(symbol: string)           // the provider's "Error Message" marker
    | RateLimited                              // the provider's "Note" marker
    | UnexpectedStructure                      // a KeyError while reading the response
    | NetworkError(diagnostic: string)         // a RequestException, with its text
    | UnexpectedError                          // any other exception

  datatype ErrorKind =
    UnknownIndicatorKind | SymbolNotFoundKind | RateLimitedKind | UnexpectedStructureKind | NetworkErrorKind | UnexpectedErrorKind

  function Kind(e: FetchError): ErrorKind {
    match e
    case UnknownIndicator(_) => UnknownIndicatorKind
    case SymbolNotFound(_) => SymbolNotFoundKind
    case RateLimited => RateLimitedKind
    case UnexpectedStructure => UnexpectedStructureKind
    case NetworkError(_) => NetworkErrorKind
    case UnexpectedError => UnexpectedErrorKind
  }

  const RateLimitText := "API call frequency exceeded." + " Please wait and try again later."
  const StructureText := "Internal Error:" + " Unexpected response structure."
  const NetworkPrefix := "Network Error: "
  const UnexpectedPrefix := "Unexpected Error: "
  const SymbolPrefix := "Error: The symbol '"
  const IndicatorPrefix := "Input indicator type '"

  /** The `error_message` text of a failure. */
  function Message(e: FetchError): string {
    match e
    case UnknownIndicator(name) => IndicatorPrefix + name + "' does not exist"
    case SymbolNotFound(symbol) => SymbolPrefix + symbol + "' cannot be found."
    case RateLimited => RateLimitText
    case UnexpectedStructure => StructureText
    case NetworkError(d) => NetworkPrefix + d
    case UnexpectedError => UnexpectedPrefix
  }

  /** Reads the kind of failure back from an `error_message` text. */
  function MessageKind(msg: string): ErrorKind {
    if NetworkPrefix <= msg then NetworkErrorKind
    else if UnexpectedPrefix <= msg then UnexpectedErrorKind
    else if SymbolPrefix <= msg then SymbolNotFoundKind
    else if IndicatorPrefix <= msg then UnknownIndicatorKind
    else if msg == RateLimitText then RateLimitedKind
    else UnexpectedStructureKind
  }

  lemma PrefixOfConcat(a: string, b: string)
    ensures a <= a + b
  {
    assert (a + b)[..|a|] == a;
  }

  /** A text whose `i`-th character differs from the prefix's does not start with it. */
  lemma DiffersAt(p: string, m: string, i: nat)
    requires i < |p| && i < |m| && p[i] != m[i]
    ensures !(p <= m)
  {
  }

  /** The message text alone tells which kind of failure occurred. */
  lemma {:induction false} MessageDeterminesKind(e: FetchError)
    ensures MessageKind(Message(e)) == Kind(e)
  {
    match e
    case UnknownIndicator(name) => UnknownIndicatorMessage(name);
    case SymbolNotFound(symbol) => SymbolNotFoundMessage(symbol);
    case RateLimited => RateLimitedMessage();
    case UnexpectedStructure => StructureMessage();
    case NetworkError(d) => PrefixOfConcat(NetworkPrefix, d);
    case UnexpectedError => UnexpectedMessage();
  }

  lemma UnknownIndicatorMessage(name: string)
    ensures MessageKind(Message(UnknownIndicator(name))) == UnknownIndicatorKind
  {
    var m := Message(UnknownIndicator(name));
    assert m == IndicatorPrefix + (name + "' does not exist");
    PrefixOfConcat(IndicatorPrefix, name + "' does not exist");
    DiffersAt(NetworkPrefix, m, 0);
    DiffersAt(UnexpectedPrefix, m, 0);
    DiffersAt(SymbolPrefix, m, 0);
  }

  lemma SymbolNotFoundMessage(symbol: string)
    ensures MessageKind(Message(SymbolNotFound(symbol))) == SymbolNotFoundKind
  {
    var m := Message(SymbolNotFound(symbol));
    assert m == SymbolPrefix + (symbol + "' cannot be found.");
    PrefixOfConcat(SymbolPrefix, symbol + "' cannot be found.");
    DiffersAt(NetworkPrefix, m, 0);
    DiffersAt(UnexpectedPrefix, m, 0);
  }

  lemma RateLimitedMessage()
    ensures MessageKind(Message(RateLimited)) == RateLimitedKind
  {
    var m := Message(RateLimited);
    assert m == RateLimitText && m[0] == 'A';
    DiffersAt(NetworkPrefix, m, 0);
    DiffersAt(UnexpectedPrefix, m, 0);
    DiffersAt(SymbolPrefix, m, 0);
    DiffersAt(IndicatorPrefix, m, 0);
  }

  lemma StructureMessage()
    ensures MessageKind(Message(UnexpectedStructure)) == UnexpectedStructureKind
  {
    var m := Message(UnexpectedStructure);
    assert m == StructureText && m[0] == 'I' && m[2] == 't';
    DiffersAt(NetworkPrefix, m, 0);
    DiffersAt(UnexpectedPrefix, m, 0);
    DiffersAt(SymbolPrefix, m, 0);
    DiffersAt(IndicatorPrefix, m, 2);
    assert m != RateLimitText by { assert m[0] != RateLimitText[0]; }
  }

  lemma UnexpectedMessage()
    ensures MessageKind(Message(UnexpectedError)) == UnexpectedErrorKind
  {
    var m := Message(UnexpectedError);
    assert m == UnexpectedPrefix && m[0] == 'U';
    DiffersAt(NetworkPrefix, m, 0);
    assert UnexpectedPrefix <= m;
  }

  /** `StockFundamentals`: either the fetched indicator or a failure. */
  datatype StockFundamentals =
    | Fundamentals(symbol: string, indicatorType: string, value: Json, latestTradingDay: Json)
    | FundamentalsFailure(error: FetchError)
  {
    /** `error_message`: absent exactly on success, and its text names the failure's kind. */
    function ErrorMessage(): (m: Option<string>)
      ensures m.None? <==> Fundamentals?
      ensures m.Some? ==> MessageKind(m.value) == Kind(error)
    {
      if FundamentalsFailure? then
        MessageDeterminesKind(error);
        Some(Message(error))
      else None
    }

    /** `is_success`: `error_message is None`. */
    predicate IsSuccess() {
      ErrorMessage().None?
    }
  }

  /** `StockPriceResult`: the raw `"4. close"` value and its timestamp, or a failure. */
  datatype StockPriceResult =
    | StockPrice(close: Json, lastRefreshedEst: Json)
    | PriceFailure(error: FetchError)
  {
    /** `error_message`: absent exactly on success, and its text names the failure's kind. */
    function ErrorMessage(): (m: Option<string>)
      ensures m.None? <==> StockPrice?
      ensures m.Some? ==> MessageKind(m.value) == Kind(error)
    {
      if PriceFailure? then
        MessageDeterminesKind(error);
        Some(Message(error))
      else None
    }

    /** `is_success`: `error_message is None`. */
    predicate IsSuccess() {
      ErrorMessage().None?
    }
  }
}
