# Fetch-and-cache core of AmateurStockMonitor, in Dafny

AmateurStockMonitor reads company fundamentals ("indicators" such as
`PERatio`) and intraday prices from the Alpha Vantage market-data API and
stores them per stock. Its one piece of non-trivial logic is
`stock_utils/dataFetcher.py`. This project models that file and proves
properties of the model:

- **Reference trading date** (`get_market_reference_date`). At or before 16:00
  Eastern time it is yesterday; after 16:00 it is today. A Saturday or Sunday
  moves back to the Friday before. The result is written `YYYY-MM-DD`. The
  model works on an already-localised civil instant. Its calendar is Python's
  own: proleptic Gregorian, with `toordinal`, `weekday`, and
  `date - timedelta(days=1)`.
- **Indicator catalog** (`indicatorTypeSet`). This is the fixed set of 49
  accepted indicator names. A fundamental request first checks its name
  against this set.
- **Snapshot cache and fetch decision** (`indicatorDataSet`,
  `get_fundamental_data`). The cache maps each symbol to its last
  company-overview document. An entry is reused when its `"LatestTradingDate"`
  field equals the reference date. Otherwise the overview is fetched again and
  stored over the whole entry. After a successful indicator lookup, the
  provider's latest-quote trading day is written into the entry. The class
  `Fundamentals.SnapshotCache` keeps the map as a field. Its method
  `GetFundamentalData` follows the source's steps in order. It is proved equal
  to the pure function `Fundamentals.FundamentalData`, and the lemmas are about
  that function.
- **Response classification** (`get_stock_price`, `get_latest_trading_day`,
  and the error branches of `get_fundamental_data`). A failed request (a
  transport error, an HTTP error status or undecodable JSON) is reported as
  `Network Error: …` before anything in the answer is read. A decoded answer
  is then checked for the `"Error Message"` marker, then for the `"Note"`
  marker, and only then are its fields read. A missing key (`KeyError`) gives
  the unexpected-structure error, and any other exception gives
  `Unexpected Error: …`. `get_latest_trading_day` checks no markers: any failure
  there gives `None`.
- **Result records** (`StockFundamentals`, `StockPriceResult`). Each record is
  either a success or one failure from a closed set. Every failure carries
  the exact `error_message` text, and `is_success` means no error message.

The network is an input. Each request's answer is a `Json.Response`: either a
transport failure with its text, or a decoded JSON object. Python's `None` and
JSON `null` are the same value, `Json.Null`. `GetFundamentalData` also returns
the list of endpoints it called, so "no request was made" can be stated.

The code's comments say the cache exists to stay within the provider's limit
of 5 calls per minute (`stock_utils/dataFetcher.py:137-138`), and that the
reference date tells whether a cached snapshot is up to date (lines 97-98).
The model follows what the code does, which differs from that intent at
these points:

- A failed latest-quote lookup does not make `get_fundamental_data` fail. The
  call succeeds with `None` as its trading day, and `None` is stored as the
  entry's tag (`FailedQuoteStillSucceeds`).
- A success may carry a `None` value when the provider's field is JSON `null`.
- The cache tag is the provider's latest trading day, not the reference date.
  So the goal of one overview request per symbol per trading day holds only
  when the two dates agree (`SecondCallServedFromCache`). Otherwise every call
  fetches again (`QuoteDayOtherThanReferenceDateDefeatsCache`). This happens on
  a market holiday, and during the trading session, when the quote already
  reports the current day.

## Model

| member | source | states |
|---|---|---|
| `Calendar.PrevDay` | stock_utils/dataFetcher.py:108 | the day before a valid date (not 0001-01-01) is a valid date whose day number is one less, across month and year ends and leap years |
| `Calendar.DaysBeforeYearStep` | stock_utils/dataFetcher.py:108 | the Gregorian day count before a year grows by exactly the length (365 or 366) of the year before |
| `Calendar.PrevDayWeekday` | stock_utils/dataFetcher.py:113-116 | stepping back one day moves `weekday()` back by one, modulo 7 |
| `Calendar.FormatDate` | stock_utils/dataFetcher.py:118 | `%Y-%m-%d` text is ten characters: four, two and two digits separated by dashes |
| `Calendar.ParseFormatDate` | stock_utils/dataFetcher.py:118 | reading the formatted text back yields the same date |
| `Calendar.FormatDateInjective` | stock_utils/dataFetcher.py:118 | two dates have equal text exactly when they are equal, so the cache's string comparison compares dates |
| `TradingCalendar.SessionDay` | stock_utils/dataFetcher.py:105-110 | the day the computation starts from is a valid date: one day before the instant's date at or before 16:00, the date itself after |
| `TradingCalendar.WeekendBackstep` | stock_utils/dataFetcher.py:113-116 | the weekend adjustment steps back one day from a Saturday and two from a Sunday, in each case to the Friday, and leaves every other weekday unchanged |
| `TradingCalendar.DaysBack` | stock_utils/dataFetcher.py:114-116 | subtracting `timedelta(days=k)` gives a valid date whose day number is exactly `k` less |
| `TradingCalendar.ReferenceDay` | stock_utils/dataFetcher.py:96-118 | the result is never a Saturday or Sunday; it is the last weekday on or before the session day (yesterday at or before 16:00, today after), at most two days earlier, with only weekend days in between |
| `TradingCalendar.ReferenceDate` | stock_utils/dataFetcher.py:118 | the returned text is ten characters long and parses back to the reference day |
| `TradingCalendar.WeekdayEveningIsToday` | stock_utils/dataFetcher.py:107-110 | after 16:00 on a weekday the reference day is the same calendar day |
| `TradingCalendar.MorningIsYesterday` | stock_utils/dataFetcher.py:105-108 | at or before 16:00, when yesterday was a weekday, the reference day is yesterday |
| `TradingCalendar.CloseInstantCountsAsBefore` | stock_utils/dataFetcher.py:105-107 | exactly 16:00:00.000000 still counts as at or before the close |
| `TradingCalendar.MondayMorningIsFriday` | stock_utils/dataFetcher.py:107-116 | at or before 16:00 on a Monday the reference day is the Friday three days earlier |
| `TradingCalendar.WeekendIsFriday` | stock_utils/dataFetcher.py:112-116 | after 16:00 on a Saturday or Sunday the reference day is the preceding Friday (one or two days back) |
| `IndicatorCatalog.TradingDayTagNotRecognized` | stock_utils/dataFetcher.py:30-80 | `"LatestTradingDate"` is not an indicator name, so a lookup never returns the cache's own tag as a value |
| `IndicatorCatalog.MarkersNotRecognized` | stock_utils/dataFetcher.py:30-80 | the provider markers `"Error Message"` and `"Note"` are not indicator names |
| `IndicatorCatalog.CatalogExamples` | stock_utils/dataFetcher.py:143 | membership is exact and case-sensitive: `PERatio` is accepted, `peratio` and `NotARealIndicator` are not |
| `Json.Subscript` | stock_utils/dataFetcher.py:240-242 | a KeyError comes only from a JSON object; a string key finds exactly the object's field; subscripting a scalar or `None` raises a different exception |
| `Json.SequenceIndex` | stock_utils/dataFetcher.py:242 | Python's list and string index rule: `-len <= i < len` is accepted and counts from the end when negative |
| `Results.MessageDeterminesKind` | stock_utils/dataFetcher.py:144-201 | the `error_message` text alone identifies which of the six failure kinds occurred |
| `Results.StockFundamentals.ErrorMessage` | stock_utils/dataFetcher.py:83-93 | the error message is absent exactly on success (`is_success`), and when present names the failure's kind |
| `Results.StockPriceResult.ErrorMessage` | stock_utils/dataFetcher.py:204-212 | the same for price results |
| `Fundamentals.LatestTradingDay` | stock_utils/dataFetcher.py:121-135 | the result is the quote's `"Global Quote"` / `"07. latest trading day"` field exactly when that field is present in a decoded answer; any failure yields `None` |
| `Fundamentals.LatestTradingDayOfQuote` | stock_utils/dataFetcher.py:131 | a quote answer reporting a day reads back as that day |
| `Fundamentals.ReadSnapshot` | stock_utils/dataFetcher.py:165-196 | `"Error Message"` gives symbol-not-found before `"Note"` gives rate-limited, both before the indicator is read; a missing indicator gives the unexpected-structure error with no quote request; success returns the snapshot's value, and the entry afterwards is the snapshot with its tag set to the returned day, from the tag when fresh, otherwise from one quote request |
| `Fundamentals.FetchRecognized` | stock_utils/dataFetcher.py:150-201 | for a name already accepted by the catalog: the overview is requested exactly on a miss and the quote only after it; a hit leaves the cache as it was; a failed overview request gives `Network Error: …`; a decoded overview replaces the entry; a success's value and trading day are those stored in the entry |
| `Fundamentals.FundamentalData` | stock_utils/dataFetcher.py:142-201 | an unknown indicator is refused with no request and no cache change; the overview is requested exactly on a miss, and the quote only after it; other symbols' entries never change; a hit changes nothing and reports the reference date; a failed overview request gives `Network Error: …` and leaves the cache untouched; a decoded overview replaces the whole entry; a success echoes symbol and indicator, and its value and trading day are those stored |
| `Fundamentals.SnapshotCache.constructor` | stock_utils/dataFetcher.py:139 | the process starts with an empty cache |
| `Fundamentals.SnapshotCache.GetFundamentalData` | stock_utils/dataFetcher.py:142-201 | the in-place update of the cache, the result and the requests issued are exactly those of `FundamentalData` at the instant's reference date |
| `Fundamentals.SnapshotCache.ServeRecognized` | stock_utils/dataFetcher.py:150-201 | the in-place steps after the catalog test (cache test, overview request and entry replacement, marker checks, indicator read, quote request and tag write) give exactly the result, requests and cache of `FetchRecognized` |
| `Fundamentals.SecondCallServedFromCache` | stock_utils/dataFetcher.py:152-156 | after a success whose trading day is the reference date, a second call on that date, for any indicator, issues no request and reads the stored snapshot |
| `Fundamentals.StaleEntryIsRefetched` | stock_utils/dataFetcher.py:152-163 | an entry tagged with an earlier date is bypassed: the first request is the overview |
| `Fundamentals.QuoteDayOtherThanReferenceDateDefeatsCache` | stock_utils/dataFetcher.py:178-186 | when the quote's day differs from the reference date, the stored tag never matches, and the next call on the same date fetches the overview again |
| `Fundamentals.MarkedAnswerIsStoredButNotReused` | stock_utils/dataFetcher.py:158-172 | an overview answer with a provider marker is stored as it is, untagged, and the next call fetches again |
| `Fundamentals.FailedQuoteStillSucceeds` | stock_utils/dataFetcher.py:184-192 | when the quote lookup fails, the call still succeeds, with `None` as trading day, and `None` becomes the stored tag |
| `Fundamentals.PERatioScenario` | stock_utils/dataFetcher.py:142-192 | empty cache, overview `PERatio = "30.0"`, quote day `2024-01-01` yield value `"30.0"` and day `2024-01-01` after one overview and one quote request |
| `Fundamentals.UnknownIndicatorScenario` | stock_utils/dataFetcher.py:143-146 | `NotARealIndicator` is refused with its error message, no request and an unchanged cache |
| `Price.GetStockPrice` | stock_utils/dataFetcher.py:215-255 | transport failure gives `Network Error: …`; `"Error Message"` gives symbol-not-found before `"Note"` gives rate-limited; a marker-free answer gives a price, the unexpected-structure error or `Unexpected Error`, and nothing else; a success happens exactly when the answer has no marker and its path `"Meta Data"` / `"3. Last Refreshed"` / `"Time Series (1min)"` / timestamp / `"4. close"` leads to a float-convertible value, which it returns together with the Meta Data timestamp; an unexpected-structure failure happens exactly when a key on that path is missing |
| `Price.PriceOfIntradayDocument` | stock_utils/dataFetcher.py:239-246 | an intraday answer built from a timestamp and a close reads back as that close and timestamp |
| `Price.EmptySeriesIsStructureError` | stock_utils/dataFetcher.py:240-250 | an empty `"Time Series (1min)"` gives the unexpected-structure error, not a null price |

## Left out

- HTTP transport: `requests.get`, `raise_for_status` and `response.json()`. The answer of each request is an input instead. A transport error, an HTTP error status and a JSON decoding error all become one `TransportFailure`.
- Top-level JSON that is not an object, such as a list or a number, is not modelled. The provider always answers with an object.
- Loading `.env` and the API-key check raise at import time. They are environment I/O.
- `datetime.now()` and the pytz `US/Eastern` conversion, including daylight-saving time, are left out. The caller supplies the Eastern wall-clock instant.
- `TradingCalendar.ReferenceDay`: requires the instant not to be a morning of 0001-01-01. Python raises OverflowError there.
- `Calendar.FormatDate`: always pads the year to four digits. `strftime("%Y")` for years below 1000 depends on the platform.
- `Fundamentals.SnapshotCache.GetFundamentalData`: reads the reference date once. The source calls `get_market_reference_date()` at lines 153 and 179, and a call that spans a change of date could see two values.
- `Price.GetStockPrice`: returns the raw `"4. close"` value instead of a float. Rounding is also left out, because this model has no floating point. The `parsesAsFloat` parameter decides which strings `float()` accepts. `float()` of a huge integer, which raises OverflowError, is taken to succeed.
- The exception text inside `"Unexpected Error: …"` (from `str(e)`) is not modelled. That message is the prefix alone. Transport failures do carry their text.
- `print` logging is left out.
- The cache is a plain value map, so the model does not capture aliasing between the cached dict and the local `data`. After line 163 this aliasing is never observable.
- Concurrent callers sharing `indicatorDataSet` are left out. The model is sequential.
- `stock_utils/priceFetcher.py` is not part of this model. It is a thin `yfinance` wrapper with float rounding.
- `routes.py`, `app.py`, `config.py`, `models.py` and `test.py` are not part of this model. They hold Flask routes, database storage, the schema and route tests.
