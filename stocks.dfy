/**
  GET /api/stocks: one row per listed symbol built from a batch quote
  request, with per-symbol fallback to zeros, and a 30-second cache under
  the key "all-stocks". Unlike the portfolio route, a failed request is an
  error response and is not cached.
 */
module Stocks {
  import opened Js
  import opened Http
  import opened TtlCache
  import opened Quotes

  /** One element of the response array. */
  datatype StockRow = StockRow(
    symbol: string,
    name: string,
    price: real,
    change: real,
    changePercent: real,
    volume: int,
    marketCap: real,
    sector: string)

  const STOCK_SYMBOLS: seq<string> := ["AAPL", "MSFT", "GOOGL", "AMZN", "TSLA", "META", "NVDA", "JPM"]

  const CACHE_KEY: string := "all-stocks"

  /** The text before the status code in the message of a non-ok response. */
  const STATUS_ERROR_PREFIX: string := "TwelveData API error: "

  /** `metadata?.sector || 'Unknown'`. */
  function SectorOf(symbol: string): (r: string)
    ensures MetaSector(symbol) != "" ==> r == MetaSector(symbol)
    ensures MetaSector(symbol) == "" ==> r == "Unknown"
  {
    StringOr(MetaSector(symbol), "Unknown")
  }

  /** The row of a symbol without a usable quote. */
  function FallbackRow(symbol: string): (r: StockRow)
    ensures r.symbol == symbol && r.sector == SectorOf(symbol)
    ensures r.name == StringOr(MetaName(symbol), symbol)
    ensures r.price == 0.0 && r.change == 0.0 && r.changePercent == 0.0 && r.volume == 0 && r.marketCap == 0.0
  {
    StockRow(symbol, StringOr(MetaName(symbol), symbol), 0.0, 0.0, 0.0, 0, 0.0, SectorOf(symbol))
  }

  /** `parseFloat(quote.previous_close || price.toString())`: the quoted previous
      close, or the price itself (NaN included) when there is none. */
  function PreviousClose(q: Quote): (r: Option<real>)
    ensures Truthy(q.previousClose) ==> r == q.previousClose.value.parsedFloat
    ensures !Truthy(q.previousClose) ==> r == LastPrice(q)
  {
    if Truthy(q.previousClose) then q.previousClose.value.parsedFloat else LastPrice(q)
  }

  /** `price - previousClose`; NaN when either is. */
  function Change(q: Quote): (change: Option<real>)
    ensures change.Some? <==> LastPrice(q).Some? && PreviousClose(q).Some?
    ensures change.Some? ==> PreviousClose(q).value + change.value == LastPrice(q).value
  {
    if LastPrice(q).Some? && PreviousClose(q).Some? then Some(LastPrice(q).value - PreviousClose(q).value) else None
  }

  /** `previousClose !== 0 ? (change / previousClose) * 100 : 0`. */
  function ChangePercent(q: Quote): (percent: Option<real>)
    ensures PreviousClose(q) == Some(0.0) ==> percent == Some(0.0)
    ensures percent.Some? && PreviousClose(q).Some? && PreviousClose(q).value != 0.0 ==>
      Change(q).Some? && percent.value * PreviousClose(q).value == Change(q).value * 100.0
    ensures percent.None? <==> PreviousClose(q).None? || (PreviousClose(q).value != 0.0 && Change(q).None?)
  {
    match PreviousClose(q)
    case Some(pc) =>
      if pc == 0.0 then Some(0.0)
      else if Change(q).Some? then Some(Change(q).value / pc * 100.0)
      else None
    case None => None
  }

  /** The row of a symbol priced from its quote, every number passed through `|| 0`. */
  function QuotedRow(symbol: string, q: Quote): (r: StockRow)
    ensures r.symbol == symbol && r.sector == SectorOf(symbol)
    ensures r.name == DisplayName(symbol, q.name)
    ensures r.price == OrZero(LastPrice(q))
    ensures r.change == OrZero(Change(q)) && r.changePercent == OrZero(ChangePercent(q))
    ensures r.volume == IntOrZero(ParseIntOr(q.volume, 0))
    ensures r.marketCap == OrZero(ParseFloatOr(q.marketCap, 0.0))
  {
    StockRow(symbol, DisplayName(symbol, q.name),
             OrZero(LastPrice(q)), OrZero(Change(q)), OrZero(ChangePercent(q)),
             IntOrZero(ParseIntOr(q.volume, 0)), OrZero(ParseFloatOr(q.marketCap, 0.0)),
             SectorOf(symbol))
  }

  /** The callback of `STOCK_SYMBOLS.map`. */
  function RowFor(symbol: string, quotes: map<string, Quote>): (r: StockRow)
    ensures r.symbol == symbol
    ensures Unusable(quotes, symbol) ==> r == FallbackRow(symbol)
    ensures !Unusable(quotes, symbol) ==> r == QuotedRow(symbol, quotes[symbol])
  {
    if Unusable(quotes, symbol) then FallbackRow(symbol) else QuotedRow(symbol, quotes[symbol])
  }

  /** `symbols.map(...)`: one row per symbol, in order. */
  function Rows(symbols: seq<string>, quotes: map<string, Quote>): (rows: seq<StockRow>)
    ensures |rows| == |symbols|
    ensures forall i :: 0 <= i < |symbols| ==> rows[i] == RowFor(symbols[i], quotes)
  {
    if symbols == [] then [] else [RowFor(symbols[0], quotes)] + Rows(symbols[1..], quotes)
  }

  /** The message of the error the try block throws, reported as `details`. */
  function FailureDetails(upstream: Upstream): (details: string)
    ensures upstream.Threw? ==> details == upstream.message
    ensures upstream.NotOk? ==>
      && |details| > |STATUS_ERROR_PREFIX|
      && details[..|STATUS_ERROR_PREFIX|] == STATUS_ERROR_PREFIX
      && NumeralValue(details[|STATUS_ERROR_PREFIX|..]) == upstream.httpStatus
      && details == STATUS_ERROR_PREFIX + Decimal(upstream.httpStatus)
    ensures upstream.Delivered? ==> details != "" && (upstream.data.message != "" ==> details == upstream.data.message)
    ensures upstream.Delivered? && upstream.data.message == "" ==> details == "API error"
  {
    match upstream
    case Threw(message) => message
    case NotOk(status) =>
      DecimalDenotes(status);
      assert (STATUS_ERROR_PREFIX + Decimal(status))[|STATUS_ERROR_PREFIX|..] == Decimal(status);
      STATUS_ERROR_PREFIX + Decimal(status)
    case Delivered(data) => StringOr(data.message, "API error")
  }

  /** Whether the try block reaches the row building without throwing. */
  predicate Succeeds(upstream: Upstream)
  {
    upstream.Delivered? && !IsErrorPayload(upstream.data)
  }

  /** The body a request that misses the cache answers with, or its error. */
  function StocksFor(upstream: Upstream): (r: Response<seq<StockRow>>)
    ensures Succeeds(upstream) <==> r.Json?
    ensures r.Json? ==> r.body == Rows(STOCK_SYMBOLS, Normalize(upstream.data))
    ensures r.ErrorJson? ==> r == ErrorJson(INTERNAL_SERVER_ERROR, "Failed to fetch stock data", Some(FailureDetails(upstream)))
  {
    if Succeeds(upstream) then Json(Rows(STOCK_SYMBOLS, Normalize(upstream.data)))
    else ErrorJson(INTERNAL_SERVER_ERROR, "Failed to fetch stock data", Some(FailureDetails(upstream)))
  }

  /** The change is the price minus the previous close; with no previous close
      it is 0, and so is the percentage. */
  lemma ChangeAgainstPreviousClose(q: Quote, price: real)
    requires LastPrice(q) == Some(price)
    ensures !Truthy(q.previousClose) ==> Change(q) == Some(0.0) && ChangePercent(q) == Some(0.0)
    ensures Truthy(q.previousClose) && q.previousClose.value.parsedFloat.Some? ==>
      Change(q) == Some(price - q.previousClose.value.parsedFloat.value)
  {
  }

  /** A zero previous close never divides: the row's percentage is 0. */
  lemma ZeroPreviousCloseGivesZeroPercent(symbol: string, q: Quote)
    requires PreviousClose(q) == Some(0.0)
    ensures QuotedRow(symbol, q).changePercent == 0.0
  {
  }

  /** A usable quote's row carries `price - previousClose` and the guarded percentage. */
  lemma QuotedRowFigures(symbol: string, q: Quote, price: real, previousClose: real)
    requires LastPrice(q) == Some(price) && PreviousClose(q) == Some(previousClose)
    ensures QuotedRow(symbol, q).price == price
    ensures QuotedRow(symbol, q).change == price - previousClose
    ensures QuotedRow(symbol, q).changePercent ==
      (if previousClose == 0.0 then 0.0 else (price - previousClose) / previousClose * 100.0)
  {
  }

  /** Name and sector precedence: a symbol with metadata shows its metadata name and
      sector; any other symbol shows the quote's name, else the symbol, and "Unknown". */
  lemma NamePrecedence(symbol: string, q: Quote)
    ensures symbol in STOCK_METADATA ==>
      && QuotedRow(symbol, q).name == STOCK_METADATA[symbol].name
      && FallbackRow(symbol).name == STOCK_METADATA[symbol].name
      && QuotedRow(symbol, q).sector == STOCK_METADATA[symbol].sector
    ensures symbol !in STOCK_METADATA && q.name != "" ==> QuotedRow(symbol, q).name == q.name
    ensures symbol !in STOCK_METADATA && q.name == "" ==> QuotedRow(symbol, q).name == symbol
    ensures symbol !in STOCK_METADATA ==> FallbackRow(symbol).name == symbol
    ensures symbol !in STOCK_METADATA ==> QuotedRow(symbol, q).sector == "Unknown" && FallbackRow(symbol).sector == "Unknown"
  {
    MetadataFilledIn(symbol);
  }

  /** Every listed symbol gets exactly one row, in list order. */
  lemma OneRowPerListedSymbol(upstream: Upstream)
    requires Succeeds(upstream)
    ensures |StocksFor(upstream).body| == 8
    ensures forall i :: 0 <= i < 8 ==> StocksFor(upstream).body[i].symbol == STOCK_SYMBOLS[i]
  {
  }

  /** GET: the key check, the cache check, the fetch and the store. */
  method GetStocks(cache: Cache<seq<StockRow>>, apiKey: string, lookupTime: int, upstream: Upstream, storeTime: int)
    returns (resp: Response<seq<StockRow>>, calledUpstream: bool)
    modifies cache
    ensures apiKey == "" ==>
      && resp == ErrorJson(INTERNAL_SERVER_ERROR, "API key not configured", None)
      && !calledUpstream && cache.entries == old(cache.entries)
    ensures apiKey != "" && Lookup(old(cache.entries), CACHE_KEY, lookupTime).Some? ==>
      && resp == Json(Lookup(old(cache.entries), CACHE_KEY, lookupTime).value)
      && !calledUpstream && cache.entries == old(cache.entries)
    ensures apiKey != "" && Lookup(old(cache.entries), CACHE_KEY, lookupTime).None? ==>
      && calledUpstream
      && resp == StocksFor(upstream)
      && cache.entries == (if resp.Json? then old(cache.entries)[CACHE_KEY := Entry(resp.body, storeTime)]
                           else old(cache.entries))
  {
    if apiKey == "" {
      return ErrorJson(INTERNAL_SERVER_ERROR, "API key not configured", None), false;
    }
    var cached := cache.Get(CACHE_KEY, lookupTime);
    if cached.Some? {
      return Json(cached.value), false;
    }
    calledUpstream := true;
    match upstream {
      case Threw(message) =>
        resp := ErrorJson(INTERNAL_SERVER_ERROR, "Failed to fetch stock data", Some(message));
      case NotOk(status) =>
        resp := ErrorJson(INTERNAL_SERVER_ERROR, "Failed to fetch stock data",
                          Some(STATUS_ERROR_PREFIX + Decimal(status)));
      case Delivered(data) =>
        if IsErrorPayload(data) {
          resp := ErrorJson(INTERNAL_SERVER_ERROR, "Failed to fetch stock data",
                            Some(StringOr(data.message, "API error")));
        } else {
          var stocks := Rows(STOCK_SYMBOLS, Normalize(data));
          cache.Put(CACHE_KEY, stocks, storeTime);
          resp := Json(stocks);
        }
    }
  }
}
