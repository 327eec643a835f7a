/**
  What the batch quote endpoint of the market-data provider (TwelveData)
  sends back, and how both quote routes read it: the outcome of the one
  outbound request, the test for an error payload, the normalisation of a
  single-quote or a batch payload into a symbol-to-quote map, and the
  static name/sector metadata.
 */
module Quotes {
  import opened Js

  /** One quote object. String members that are absent are `""` (both are falsy). */
  datatype Quote = Quote(
    symbol: string,
    name: string,
    status: string,
    close: Option<Field>,
    price: Option<Field>,
    previousClose: Option<Field>,
    volume: Option<Field>,
    marketCap: Option<Field>)

  /** A decoded response body: its own top-level members read as one quote
      (a single-symbol answer is exactly that), whether it carries a truthy
      `code`, its `message`, and its object-valued members keyed by name
      (a batch answer is those). */
  datatype Payload = Payload(top: Quote, hasCode: bool, message: string, members: map<string, Quote>)

  /** The outbound `fetch` of the quote URL. `Threw` covers a rejected fetch,
      a body that is not JSON, and a `null` body. A JSON string, number or
      array body reads as a payload whose members are all absent. */
  datatype Upstream =
    | Threw(message: string)
    | NotOk(httpStatus: nat)
    | Delivered(data: Payload)

  /** `data.status === 'error' || data.code`. */
  function IsErrorPayload(data: Payload): (isError: bool)
    ensures data.top.status == "error" ==> isError
    ensures data.hasCode ==> isError
    ensures isError ==> data.top.status == "error" || data.hasCode
  {
    data.top.status == "error" || data.hasCode
  }

  /** Both quote routes read the answer alike: a payload
      with a truthy top-level `symbol` becomes a one-entry map keyed by it,
      any other payload is read as the symbol-to-quote map. */
  function Normalize(data: Payload): (quotes: map<string, Quote>)
    ensures data.top.symbol != "" ==> quotes.Keys == {data.top.symbol} && quotes[data.top.symbol] == data.top
    ensures data.top.symbol == "" ==> quotes == data.members
  {
    if data.top.symbol != "" then map[data.top.symbol := data.top] else data.members
  }

  /** `!quote || quote.status === 'error'`: the symbol has no quote the route can use. */
  function Unusable(quotes: map<string, Quote>, symbol: string): (unusable: bool)
    ensures symbol !in quotes ==> unusable
    ensures !unusable ==> symbol in quotes && quotes[symbol].status != "error"
    ensures symbol in quotes && quotes[symbol].status == "error" ==> unusable
    ensures symbol in quotes && quotes[symbol].status != "error" ==> !unusable
  {
    symbol !in quotes || quotes[symbol].status == "error"
  }

  /** `parseFloat(quote.close || quote.price || '0')`; `None` is NaN. */
  function LastPrice(q: Quote): (r: Option<real>)
    ensures Truthy(q.close) ==> r == q.close.value.parsedFloat
    ensures !Truthy(q.close) && Truthy(q.price) ==> r == q.price.value.parsedFloat
    ensures !Truthy(q.close) && !Truthy(q.price) ==> r == Some(0.0)
  {
    ParseFloatOr(Or(q.close, q.price), 0.0)
  }

  datatype Metadata = Metadata(name: string, sector: string)

  /** `STOCK_METADATA`, identical in both routes. */
  const STOCK_METADATA: map<string, Metadata> := map[
    "AAPL" := Metadata("Apple Inc.", "Technology"),
    "MSFT" := Metadata("Microsoft Corporation", "Technology"),
    "GOOGL" := Metadata("Alphabet Inc.", "Technology"),
    "AMZN" := Metadata("Amazon.com Inc.", "Consumer Cyclical"),
    "TSLA" := Metadata("Tesla, Inc.", "Consumer Cyclical"),
    "META" := Metadata("Meta Platforms Inc.", "Technology"),
    "NVDA" := Metadata("NVIDIA Corporation", "Technology"),
    "JPM" := Metadata("JPMorgan Chase & Co.", "Financial Services"),
    "V" := Metadata("Visa Inc.", "Financial Services"),
    "JNJ" := Metadata("Johnson & Johnson", "Healthcare")
  ]

  /** Every metadata entry has a non-empty name and sector. */
  lemma MetadataFilledIn(symbol: string)
    ensures symbol in STOCK_METADATA ==> STOCK_METADATA[symbol].name != "" && STOCK_METADATA[symbol].sector != ""
  {
  }

  /** `metadata?.name`, `""` when the symbol has no metadata. */
  function MetaName(symbol: string): (name: string)
  {
    if symbol in STOCK_METADATA then STOCK_METADATA[symbol].name else ""
  }

  /** `metadata?.sector`, `""` when the symbol has no metadata. */
  function MetaSector(symbol: string): (sector: string)
  {
    if symbol in STOCK_METADATA then STOCK_METADATA[symbol].sector else ""
  }

  /** The displayed name: metadata name, then the quote's own name, then the symbol. */
  function DisplayName(symbol: string, quoteName: string): (r: string)
    ensures MetaName(symbol) != "" ==> r == MetaName(symbol)
    ensures MetaName(symbol) == "" && quoteName != "" ==> r == quoteName
    ensures MetaName(symbol) == "" && quoteName == "" ==> r == symbol
  {
    StringOr(StringOr(MetaName(symbol), quoteName), symbol)
  }

  /** A single-symbol payload can only serve its own symbol: every other symbol is unusable. */
  lemma SinglePayloadServesOneSymbol(data: Payload, symbol: string)
    requires data.top.symbol != "" && symbol != data.top.symbol
    ensures Unusable(Normalize(data), symbol)
  {
  }
}
