# Quantum Trade Nexus — verified model of the quote proxy, order summary, chart data and user endpoint

This project models, in Dafny, the parts of the trading dashboard that hold
logic rather than markup:

- **GET /api/portfolio** (`portfolio.dfy`): the configured positions valued
  at the latest quotes from one batch request to the market-data provider,
  with per-position fallback to the average cost, portfolio totals guarded
  against a zero cost, and a 30-second in-memory cache that also stores the
  fallback-only answer.
- **GET /api/stocks** (`stocks.dfy`): one row per listed symbol, falling back
  to zeros per symbol; a failed request is a 500 that is not cached.
- **The quote cache** (`ttl_cache.dfy`): a class over a `map` of entries
  stamped with their store time; a lookup hits only for an entry younger than
  30000 ms; nothing is evicted.
- **Provider payloads** (`quotes.dfy`): the outcome of the outbound request
  (thrown, non-ok status, or a decoded body), the error-payload test, the
  normalisation of a single-quote or batch body into a symbol-to-quote map,
  and the static name/sector metadata.
- **The buy/sell order summary** (`order_summary.dfy`): quantity, market or
  limit unit price, order value, 0.1 % fee and total cost.
- **The price chart's data** (`stock_chart.dfy`): line, candlestick and
  volume series and the chart-type selector labels.
- **GET/PUT /api/user** (`user_route.dfy`): header check, bearer-token
  extraction (section 2.1 of RFC 6750), the 401/500 decision chain
  (sections 15.5.2 and 15.6.1 of RFC 9110), and the starter profile created
  on first access.
- `js.dfy` holds the JavaScript value conventions the handlers rely on
  (`||` on strings and numbers, `parseFloat`/`parseInt` results with NaN as
  `None`, `String(n)`), and `http.dfy` the JSON response shape.

Modelling choices:

- Prices and amounts are `real`: exact arithmetic stands for IEEE doubles.
- A JSON string field of a quote is `Field(raw, parsedFloat, parsedInt)`: its
  text (for truthiness) and what `parseFloat`/`parseInt` yield for it.
- The outbound request, `Date.now()`, `new Date().toISOString()`,
  `toLocaleDateString` and every database call are parameters. The clock is
  read twice by the quote routes (the cache check and the store), so the
  handlers take `lookupTime` and `storeTime`.
- The configured API key is a parameter `apiKey`, empty when neither
  environment variable is set.
- The quote handlers return `calledUpstream`, which is false exactly when the
  answer was produced without the outbound request.
- The cache is a class whose `entries` map is updated in place by `Put`; the
  handlers that use it are methods with `modifies cache`. Everything that the
  source writes as `.map`, `.reduce` or an early-return chain is a function.
- A quote with price 0 is priced at 0, not replaced by the average cost:
  only an absent quote or one with status "error" falls back
  (app/api/portfolio/route.ts:86, 104).
- A failed request on GET /api/stocks is a 500 "Failed to fetch stock data"
  carrying the error's message, and nothing is cached for it
  (app/api/stocks/route.ts:111-120).

## Model

| member | source | states |
|---|---|---|
| TtlCache.Lookup | app/api/portfolio/route.ts:46-50 | a lookup hits iff the key is stored and now − timestamp < 30000, and then yields the stored data |
| TtlCache.StoredEntryServedWithinWindow | app/api/portfolio/route.ts:7 | an entry stored at t is served strictly before t + 30000 and missed from t + 30000 on (30000 ms old is a miss) |
| TtlCache.StoreIsolatesKeys | app/api/stocks/route.ts:112 | storing under one key changes no other key's lookup |
| TtlCache.Cache.constructor | app/api/portfolio/route.ts:6 | a new cache holds no entries |
| TtlCache.Cache.Get | app/api/stocks/route.ts:36-40 | hit iff the entry exists and is younger than 30000 ms; a hit returns the stored data unchanged |
| TtlCache.Cache.Put | app/api/portfolio/route.ts:158 | the entry for the key becomes {data, now}; every other entry stays, nothing is evicted |
| Quotes.IsErrorPayload | app/api/portfolio/route.ts:68 | a payload is an error exactly when its own status is "error" or it carries a code |
| Quotes.Unusable | app/api/stocks/route.ts:76 | a symbol is unusable exactly when it has no quote or its quote's status is "error" |
| Quotes.MetadataFilledIn | app/api/stocks/route.ts:13-24 | every metadata entry has a non-empty name and sector, so `||` never skips past a listed symbol's metadata |
| Quotes.Normalize | app/api/portfolio/route.ts:73-81 | a payload with a top-level symbol becomes the one-entry map symbol → payload; any other payload is its own symbol → quote map |
| Quotes.SinglePayloadServesOneSymbol | app/api/stocks/route.ts:65-71 | after normalising a single-quote payload, every other symbol has no quote |
| Quotes.LastPrice | app/api/portfolio/route.ts:104 | the price is parsed from close, else from price, else is 0 |
| Quotes.DisplayName | app/api/portfolio/route.ts:112 | name precedence: metadata name, then the quote's name, then the symbol |
| Js.Decimal | app/api/stocks/route.ts:50 | the status in the error message is a non-empty decimal numeral without a leading zero |
| Js.DecimalDenotes | app/api/stocks/route.ts:50 | read back as a decimal numeral, the written status is the status itself |
| Portfolio.FallbackHolding | app/api/portfolio/route.ts:86-101 | a position without a usable quote is named by its metadata name, else its symbol, and has currentPrice = avgPrice, currentValue = totalCost = shares × avgPrice, gain 0, gainPercent 0, and consistent figures |
| Portfolio.QuotedHolding | app/api/portfolio/route.ts:103-120 | the name follows metadata, quote name, symbol; with a parsed price: value = shares × price, gain = value − cost, gainPercent = gain / cost × 100 or 0 for zero cost; with a NaN price: price, value, gain and percentage are 0 |
| Portfolio.HoldingFor | app/api/portfolio/route.ts:84-86 | symbol, shares, avgPrice copied; an absent or "error" quote falls back, any other is priced |
| Portfolio.Holdings | app/api/portfolio/route.ts:83-121 | one row per position, in order, each the row for that position's own quote |
| Portfolio.FallbackHoldings | app/api/portfolio/route.ts:125-139 | one fallback row per position, in order |
| Portfolio.PositionsFor | app/api/portfolio/route.ts:56-140 | one row per position, in order, with symbol/shares/avgPrice copied; a thrown fetch, non-ok status or error payload makes every position fall back; a delivered non-error payload gives each position the row for its own normalised quote |
| Portfolio.FetchPositions | app/api/portfolio/route.ts:56-140 | the rows left in `positions` by the try/catch are those of PositionsFor |
| Portfolio.Assemble | app/api/portfolio/route.ts:143-155 | totalValue and totalCost are the sums over the rows, totalGain their difference, totalGainPercent guarded by totalCost = 0; rows and watchlist kept |
| Portfolio.SumsAccumulateLeftToRight | app/api/portfolio/route.ts:143-144 | totalValue and totalCost equal the left-to-right accumulation that `reduce` performs: the sum of all rows but the last, plus the last |
| Portfolio.ValueAtCostSums | app/api/portfolio/route.ts:143-144 | rows valued at their cost sum to equal totals |
| Portfolio.AllFallbackShowsNoGain | app/api/portfolio/route.ts:122-146 | when everything falls back, totalValue = totalCost and totalGain = totalGainPercent = 0 |
| Portfolio.GainsAddUp | app/api/portfolio/route.ts:104-108 | when every row is consistent, the rows' gains add up to totalGain |
| Portfolio.UnparseablePriceCountsAsLoss | app/api/portfolio/route.ts:115-120 | a NaN price shows gain 0 on its row while the total gain of that row alone is exactly minus its cost, so the two disagree |
| Portfolio.NoCrossSymbolLeakage | app/api/portfolio/route.ts:83-84 | a position's row depends only on the quote stored under its own symbol |
| Portfolio.AaplExample | app/api/portfolio/route.ts:104-112 | 50 shares at 170 quoted at 200 give value 10000, cost 8500, gain 1500, gainPercent 300/17 |
| Portfolio.GetPortfolio | app/api/portfolio/route.ts:36-160 | no key: 500 "API key not configured", cache untouched, no fetch; fresh entry: returned unchanged, no fetch; otherwise the assembled portfolio (fallbacks included) is returned and stored under "portfolio" at the store time |
| Portfolio.RepeatRequest | app/api/portfolio/route.ts:46-50 | after a request that fetched and stored, a request within 30000 ms of the store gets the same answer without a fetch |
| Stocks.SectorOf | app/api/stocks/route.ts:87 | sector is the metadata sector, else "Unknown" |
| Stocks.FallbackRow | app/api/stocks/route.ts:76-89 | missing or "error" quote: price, change, changePercent, volume, marketCap all 0; name metadata or symbol; sector metadata or "Unknown" |
| Stocks.PreviousClose | app/api/stocks/route.ts:93 | the quoted previous close, or the price itself when there is none |
| Stocks.Change | app/api/stocks/route.ts:94 | the change is defined exactly when price and previous close both parse, and previous close + change = price |
| Stocks.ChangePercent | app/api/stocks/route.ts:95 | a zero previous close gives 0 without dividing; otherwise percent × previousClose = change × 100, and NaN only when an operand is NaN |
| Stocks.FailureDetails | app/api/stocks/route.ts:50-57 | a thrown error passes its message on; a non-ok status gives "TwelveData API error: " followed by the numeral of that status; an error payload gives its message, else "API error" |
| Stocks.QuotedRow | app/api/stocks/route.ts:91-108 | symbol, sector and name precedence; price, change, changePercent, volume and marketCap each the computed figure with NaN turned into 0 (`|| 0`), absent fields parsed as 0 |
| Stocks.RowFor | app/api/stocks/route.ts:74-76 | an absent or "error" quote gives the fallback row, any other the quoted row |
| Stocks.Rows | app/api/stocks/route.ts:73-109 | one row per symbol, in order, each built from that symbol's quote |
| Stocks.StocksFor | app/api/stocks/route.ts:47-120 | rows iff the body was delivered and is no error payload; otherwise 500 "Failed to fetch stock data" with the thrown message as details |
| Stocks.ChangeAgainstPreviousClose | app/api/stocks/route.ts:92-95 | change = price − previousClose; with no previous close change and changePercent are 0 |
| Stocks.ZeroPreviousCloseGivesZeroPercent | app/api/stocks/route.ts:95 | a zero previous close gives changePercent 0 |
| Stocks.QuotedRowFigures | app/api/stocks/route.ts:92-104 | with parsed price and previous close the row carries price, price − previousClose and the guarded percentage |
| Stocks.NamePrecedence | app/api/stocks/route.ts:78-107 | for every symbol: one with metadata shows its metadata name (quoted or fallback) and sector; any other shows the quote's name, else the symbol, and sector "Unknown" |
| Stocks.OneRowPerListedSymbol | app/api/stocks/route.ts:6-73 | a successful answer has exactly 8 rows, the i-th for the i-th listed symbol |
| Stocks.GetStocks | app/api/stocks/route.ts:26-122 | no key: 500 "API key not configured" before the cache, no fetch; fresh entry: returned unchanged; otherwise StocksFor, stored only on success |
| OrderSummary.Quantity | components/BuySellModal.tsx:28 | qty is the parsed quantity, or 0 when it is NaN or 0 |
| OrderSummary.UnitPrice | components/BuySellModal.tsx:29 | market uses stock.price; limit uses the parsed limit, or stock.price when it is NaN or 0 |
| OrderSummary.Figures | components/BuySellModal.tsx:30-33 | total = estimatedCost = qty × price; the fee is a thousandth of the total; totalCost = cost + fee, never below the cost for a non-negative order |
| OrderSummary.Compute | components/BuySellModal.tsx:26-33 | nothing iff there is no stock; otherwise the summary of the parsed quantity and chosen price |
| OrderSummary.CostBreakdown | components/BuySellModal.tsx:30-33 | estimatedCost = total = qty × price, fee = total / 1000, totalCost = 1.001 × qty × price ≥ estimatedCost for non-negative qty and price |
| OrderSummary.ZeroQuantityCostsNothing | components/BuySellModal.tsx:28-33 | an empty, unparsable or zero quantity makes total, fee and totalCost 0 |
| OrderSummary.LimitFallsBackToMarket | components/BuySellModal.tsx:29 | a market order ignores the limit field; an unusable limit prices like a market order |
| OrderSummary.TenAtOneFifty | components/BuySellModal.tsx:28-33 | 10 at 150: total 1500, fee 1.5, totalCost 1501.5 |
| StockChart.Candle | components/StockChart.tsx:36-49 | open/high/low/close copied; isUp iff close ≥ open; bodyBottom ≤ bodyTop, bodyHeight = bodyTop − bodyBottom ≥ 0; {bodyTop, bodyBottom} = {open, close} |
| StockChart.LineData | components/StockChart.tsx:31-34 | same length and order as the line series, each price copied, each date formatted |
| StockChart.CandleData | components/StockChart.tsx:36-49 | same length and order as the candle series, each element the candle of its bar |
| StockChart.VolumeData | components/StockChart.tsx:51-54 | same length as the candle series; volume × 1000000 is the bar's volume |
| StockChart.VolumeAlignsWithCandles | components/StockChart.tsx:36-54 | volume and candle series have equal length and the same date at every index |
| StockChart.CandleDataSplits | components/StockChart.tsx:36 | the candle mapping distributes over concatenation, so it keeps order |
| StockChart.UpperChar | components/StockChart.tsx:86 | lower-case ASCII letters map to their upper-case letter, every other character to itself |
| StockChart.Capitalize | components/StockChart.tsx:86 | same length; first character upper-cased, the rest unchanged |
| StockChart.Labels | components/StockChart.tsx:76-86 | one label per chart type, in order, each the capitalised type |
| StockChart.SelectorLabels | components/StockChart.tsx:76-86 | the labels are "Line", "Candlestick", "Volume" |
| UserRoute.IndexOfFrom | app/api/user/route.ts:14 | the first occurrence at or after the start, or none at all |
| UserRoute.IndexOf | app/api/user/route.ts:14 | the first occurrence anywhere in the string, or none at all |
| UserRoute.Token | app/api/user/route.ts:14 | without "Bearer " the header passes through unchanged; with it, the first occurrence is cut out and the text on either side kept |
| UserRoute.BearerTokenRoundTrip | app/api/user/route.ts:75 | the token of "Bearer " + t is t (only the first occurrence is removed) |
| UserRoute.PrefixNeedNotLead | app/api/user/route.ts:14 | the first occurrence is removed even when it is not at the start |
| UserRoute.BeforeAt | app/api/user/route.ts:37 | the text before the first '@': a prefix with no '@', followed by '@' when shorter than the address |
| UserRoute.DefaultName | app/api/user/route.ts:37 | metadata name if non-empty, else the e-mail's local part if non-empty, else "User"; never empty |
| UserRoute.NameFromEmail | app/api/user/route.ts:37 | "alice@example.com" gives "alice"; "@example.com" and no e-mail give "User" |
| UserRoute.NewProfile | app/api/user/route.ts:32-42 | the inserted profile has the auth user's id and e-mail, the default name, balance 100000, invested 0, level "Beginner", member since now |
| UserRoute.HasHeader | app/api/user/route.ts:10 | an absent and an empty header both fail the header check; any non-empty one passes |
| UserRoute.Authenticate | app/api/user/route.ts:9-19 | no header iff the header is absent or empty; with one, the auth call for the extracted token throwing iff AuthThrew, an error or no user iff Rejected, a user and no error iff signed in as that user |
| UserRoute.GetUser | app/api/user/route.ts:4-64 | errors are 401 or 500; 401 "Unauthorized" iff the header is missing or auth rejects; no client or a throwing auth call is 500 "Internal server error"; for a signed-in user a found row is returned, a throwing select is 500, and a failed select inserts the starter profile, answering with the new row, 500 "Failed to create user profile" with the insert's message, or 500 when the insert throws |
| UserRoute.PutUser | app/api/user/route.ts:66-101 | errors are 401 or 500; 401 "Unauthorized" iff the header is missing or auth rejects; a record is returned only as the row the update wrote for the signed-in user's id; for a signed-in user a written row is returned, a failed update is 500 "Failed to update user", and a throwing body or update is 500 "Internal server error" |
| UserRoute.NoHeaderIsUnauthorized | app/api/user/route.ts:9-11 | once the client is created, without a header both handlers answer 401 whatever auth, select, insert and update return |
| UserRoute.MissingProfileIsCreated | app/api/user/route.ts:28-56 | a failed lookup inserts the starter profile; a failed insert is 500 "Failed to create user profile" with its message, whatever the message, and a successful one returns the new row |
| UserRoute.ThrowsAreInternalErrors | app/api/user/route.ts:60-63 | a throwing auth call is 500 "Internal server error" in both handlers |

## Left out

- Outbound HTTP to the market-data provider (URL and key construction, app/api/portfolio/route.ts:53-59, app/api/stocks/route.ts:44-47): network I/O; its outcome is the `Upstream` parameter.
- Resolution of the API key from two environment variables (line 3 of both quote routes): configuration; the handlers take the resolved key.
- The outer catch of GET /api/portfolio (lines 161-167): no modelled statement outside the inner try can throw, so that path does not arise in the model.
- Lexical details of `parseFloat`/`parseInt`: each field carries its parse result; `price.toString()` followed by `parseFloat` is taken to return the price.
- IEEE floating point: NaN is `None`, but rounding, overflow to Infinity and -0 are not modelled (prices are exact reals).
- Non-object members of a batch payload and a `null` body: a body whose property access throws is the `Threw` outcome.
- The hosted database client (lib/supabase.ts, `auth.getUser`, `select`, `insert`, `update`) and the effect of an update on stored rows: foreign calls, passed in as functions; `createServerClient` throwing is the `clientCreated` flag.
- `user_metadata.name` values that are not strings: treated as strings.
- StockChart.UpperChar: upper-cases ASCII letters only, not the full Unicode case mapping of `toUpperCase`, which is all the chart-type names need.
- Date formatting (`toLocaleDateString`, `toISOString`) and `Date.now()`: time and locale sources, passed in.
- `toFixed`/`formatCurrency` display rounding, the JSX, animations and the submit handler of the buy/sell dialog (which only shows an alert).
- The React `useState` hooks (chart type, form fields): UI state; their current values are parameters.
- Concurrent requests sharing a cache: requests are handled one at a time.
- Logging (`console.error`, `console.log`).
