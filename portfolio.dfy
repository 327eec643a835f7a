/**
  GET /api/portfolio: the configured positions valued at the latest quotes,
  with per-position fallback to the average cost, portfolio totals, and a
  30-second cache under the key "portfolio".
 */
module Portfolio {
  import opened Js
  import opened Http
  import opened TtlCache
  import opened Quotes

  /** A held lot: `{symbol, shares, avgPrice}`. */
  datatype Position = Position(symbol: string, shares: int, avgPrice: real)

  /** One element of the response's `positions`. */
  datatype Holding = Holding(
    symbol: string,
    name: string,
    shares: int,
    avgPrice: real,
    currentPrice: real,
    totalCost: real,
    currentValue: real,
    gain: real,
    gainPercent: real)

  /** The response body. */
  datatype Summary = Summary(
    totalValue: real,
    totalCost: real,
    totalGain: real,
    totalGainPercent: real,
    positions: seq<Holding>,
    watchlist: seq<string>)

  const PORTFOLIO_POSITIONS: seq<Position> := [
    Position("AAPL", 50, 170.00),
    Position("MSFT", 30, 375.00),
    Position("GOOGL", 40, 140.00),
    Position("TSLA", 25, 250.00),
    Position("NVDA", 15, 850.00),
    Position("META", 20, 480.00)
  ]

  const WATCHLIST: seq<string> := ["AMZN", "JPM", "V", "JNJ"]

  const CACHE_KEY: string := "portfolio"

  /** `x / y * 100`, or 0 when `y` is 0. */
  function Percent(x: real, y: real): (r: real)
  {
    if y != 0.0 then x / y * 100.0 else 0.0
  }

  /** What it costs to have bought the lot: `shares * avgPrice`. */
  function CostOf(p: Position): (cost: real)
  {
    p.shares as real * p.avgPrice
  }

  /** The figures of a row agree with each other: value is shares times price,
      gain is value minus cost, and the percentage is guarded against a zero cost. */
  ghost predicate Consistent(h: Holding)
  {
    && h.totalCost == h.shares as real * h.avgPrice
    && h.currentValue == h.shares as real * h.currentPrice
    && h.gain == h.currentValue - h.totalCost
    && h.gainPercent == Percent(h.gain, h.totalCost)
  }

  /** The row of a position without a usable quote: valued at its own average cost. */
  function FallbackHolding(p: Position): (h: Holding)
    ensures h.symbol == p.symbol && h.shares == p.shares && h.avgPrice == p.avgPrice
    ensures Consistent(h)
    ensures h.currentPrice == p.avgPrice && h.currentValue == h.totalCost
    ensures h.gain == 0.0 && h.gainPercent == 0.0
    ensures h.name == StringOr(MetaName(p.symbol), p.symbol)
  {
    var cost := CostOf(p);
    Holding(p.symbol, StringOr(MetaName(p.symbol), p.symbol), p.shares, p.avgPrice,
            p.avgPrice, cost, cost, 0.0, 0.0)
  }

  /** The row of a position priced from its quote. A price that parses to NaN
      turns price, value, gain and percentage into 0 through `|| 0`. */
  function QuotedHolding(p: Position, q: Quote): (h: Holding)
    ensures h.symbol == p.symbol && h.shares == p.shares && h.avgPrice == p.avgPrice
    ensures h.totalCost == CostOf(p)
    ensures h.name == DisplayName(p.symbol, q.name)
    ensures LastPrice(q).Some? ==> Consistent(h) && h.currentPrice == LastPrice(q).value
    ensures LastPrice(q).None? ==> h.currentPrice == 0.0 && h.currentValue == 0.0 && h.gain == 0.0 && h.gainPercent == 0.0
  {
    var cost := CostOf(p);
    var name := DisplayName(p.symbol, q.name);
    match LastPrice(q)
    case Some(price) =>
      var value := p.shares as real * price;
      var gain := value - cost;
      Holding(p.symbol, name, p.shares, p.avgPrice, price, cost, value, gain, Percent(gain, cost))
    case None =>
      Holding(p.symbol, name, p.shares, p.avgPrice, 0.0, cost, 0.0, 0.0, 0.0)
  }

  /** The callback of `PORTFOLIO_POSITIONS.map` on the success path. */
  function HoldingFor(p: Position, quotes: map<string, Quote>): (h: Holding)
    ensures h.symbol == p.symbol && h.shares == p.shares && h.avgPrice == p.avgPrice
    ensures Unusable(quotes, p.symbol) ==> h == FallbackHolding(p)
    ensures !Unusable(quotes, p.symbol) ==> h == QuotedHolding(p, quotes[p.symbol])
  {
    if Unusable(quotes, p.symbol) then FallbackHolding(p) else QuotedHolding(p, quotes[p.symbol])
  }

  /** `positions.map(...)` on the success path: one row per position, in order. */
  function Holdings(ps: seq<Position>, quotes: map<string, Quote>): (rows: seq<Holding>)
    ensures |rows| == |ps|
    ensures forall i :: 0 <= i < |ps| ==> rows[i] == HoldingFor(ps[i], quotes)
  {
    if ps == [] then [] else [HoldingFor(ps[0], quotes)] + Holdings(ps[1..], quotes)
  }

  /** `positions.map(...)` in the catch block: every position falls back. */
  function FallbackHoldings(ps: seq<Position>): (rows: seq<Holding>)
    ensures |rows| == |ps|
    ensures forall i :: 0 <= i < |ps| ==> rows[i] == FallbackHolding(ps[i])
  {
    if ps == [] then [] else [FallbackHolding(ps[0])] + FallbackHoldings(ps[1..])
  }

  /** The rows the inner try/catch leaves in `positions`, given what the fetch produced. */
  function PositionsFor(ps: seq<Position>, upstream: Upstream): (rows: seq<Holding>)
    ensures |rows| == |ps|
    ensures forall i :: 0 <= i < |ps| ==>
      rows[i].symbol == ps[i].symbol && rows[i].shares == ps[i].shares && rows[i].avgPrice == ps[i].avgPrice
    ensures !upstream.Delivered? || IsErrorPayload(upstream.data) ==> rows == FallbackHoldings(ps)
    ensures upstream.Delivered? && !IsErrorPayload(upstream.data) ==> rows == Holdings(ps, Normalize(upstream.data))
  {
    match upstream
    case Delivered(data) =>
      if IsErrorPayload(data) then FallbackHoldings(ps) else Holdings(ps, Normalize(data))
    case _ => FallbackHoldings(ps)
  }

  /** `positions.reduce((sum, pos) => sum + pos.currentValue, 0)`, written from the front. */
  function SumValue(rows: seq<Holding>): (total: real)
  {
    if rows == [] then 0.0 else rows[0].currentValue + SumValue(rows[1..])
  }

  /** `positions.reduce((sum, pos) => sum + pos.totalCost, 0)`, written from the front. */
  function SumCost(rows: seq<Holding>): (total: real)
  {
    if rows == [] then 0.0 else rows[0].totalCost + SumCost(rows[1..])
  }

  /** The sum of the rows' own gains, which the route does not compute. */
  function SumGain(rows: seq<Holding>): (total: real)
  {
    if rows == [] then 0.0 else rows[0].gain + SumGain(rows[1..])
  }

  /** The totals over the rows and the response body. */
  function Assemble(rows: seq<Holding>): (s: Summary)
    ensures s.positions == rows && s.watchlist == WATCHLIST
    ensures s.totalValue == SumValue(rows) && s.totalCost == SumCost(rows)
    ensures s.totalGain == s.totalValue - s.totalCost
    ensures s.totalCost == 0.0 ==> s.totalGainPercent == 0.0
    ensures s.totalCost != 0.0 ==> s.totalGainPercent == s.totalGain / s.totalCost * 100.0
  {
    var totalValue := SumValue(rows);
    var totalCost := SumCost(rows);
    var totalGain := totalValue - totalCost;
    Summary(totalValue, totalCost, totalGain, Percent(totalGain, totalCost), rows, WATCHLIST)
  }

  /** The body a request that misses the cache answers with. */
  function PortfolioFor(upstream: Upstream): (s: Summary)
  {
    Assemble(PositionsFor(PORTFOLIO_POSITIONS, upstream))
  }

  /** The sums written from the front equal the accumulations `reduce` performs
      from the left: the sum of all rows but the last, plus the last. */
  lemma {:induction false} SumsAccumulateLeftToRight(rows: seq<Holding>)
    requires rows != []
    ensures SumValue(rows) == SumValue(rows[..|rows| - 1]) + rows[|rows| - 1].currentValue
    ensures SumCost(rows) == SumCost(rows[..|rows| - 1]) + rows[|rows| - 1].totalCost
  {
    if |rows| > 1 {
      SumsAccumulateLeftToRight(rows[1..]);
      assert rows[..|rows| - 1][1..] == rows[1..][..|rows[1..]| - 1];
    }
  }

  /** Rows valued at their cost add up to a portfolio valued at its cost. */
  lemma {:induction false} ValueAtCostSums(rows: seq<Holding>)
    requires forall i :: 0 <= i < |rows| ==> rows[i].currentValue == rows[i].totalCost
    ensures SumValue(rows) == SumCost(rows)
  {
    if rows != [] {
      ValueAtCostSums(rows[1..]);
    }
  }

  /** When every position falls back, the totals show no gain at all. */
  lemma AllFallbackShowsNoGain(ps: seq<Position>)
    ensures Assemble(FallbackHoldings(ps)).totalValue == Assemble(FallbackHoldings(ps)).totalCost
    ensures Assemble(FallbackHoldings(ps)).totalGain == 0.0
    ensures Assemble(FallbackHoldings(ps)).totalGainPercent == 0.0
  {
    ValueAtCostSums(FallbackHoldings(ps));
  }

  /** When every row is consistent, the rows' gains add up to the total gain. */
  lemma {:induction false} GainsAddUp(rows: seq<Holding>)
    requires forall i :: 0 <= i < |rows| ==> Consistent(rows[i])
    ensures SumGain(rows) == Assemble(rows).totalGain
  {
    if rows != [] {
      GainsAddUp(rows[1..]);
    }
  }

  /** A quote whose price is NaN leaves a row claiming no gain while its cost
      still counts in the totals, so the total gain drops by that cost. */
  lemma UnparseablePriceCountsAsLoss(p: Position, q: Quote)
    requires LastPrice(q).None? && CostOf(p) != 0.0
    ensures QuotedHolding(p, q).gain == 0.0
    ensures SumGain([QuotedHolding(p, q)]) != Assemble([QuotedHolding(p, q)]).totalGain
    ensures Assemble([QuotedHolding(p, q)]).totalGain == -CostOf(p)
  {
    var h := QuotedHolding(p, q);
    assert [h][1..] == [];
    assert SumValue([h]) == 0.0 && SumCost([h]) == CostOf(p);
  }

  /** The row of a symbol depends on that symbol's quote alone. */
  lemma NoCrossSymbolLeakage(ps: seq<Position>, q1: map<string, Quote>, q2: map<string, Quote>, i: nat)
    requires i < |ps|
    requires ps[i].symbol in q1 <==> ps[i].symbol in q2
    requires ps[i].symbol in q1 ==> q1[ps[i].symbol] == q2[ps[i].symbol]
    ensures Holdings(ps, q1)[i] == Holdings(ps, q2)[i]
  {
  }

  /** 50 AAPL shares bought at 170 and quoted at 200. */
  lemma AaplExample(q: Quote)
    requires q.close == Some(Field("200", Some(200.0), Some(200)))
    ensures var h := QuotedHolding(Position("AAPL", 50, 170.0), q);
      && h.name == "Apple Inc."
      && h.currentValue == 10000.0 && h.totalCost == 8500.0 && h.gain == 1500.0
      && h.gainPercent == 300.0 / 17.0
  {
  }

  /** `positions` as the inner try/catch leaves it. A non-ok status
      or an error payload throws inside the try, and the catch falls back. */
  method FetchPositions(upstream: Upstream) returns (positions: seq<Holding>)
    ensures positions == PositionsFor(PORTFOLIO_POSITIONS, upstream)
  {
    positions := [];
    match upstream {
      case Delivered(data) =>
        if IsErrorPayload(data) {
          positions := FallbackHoldings(PORTFOLIO_POSITIONS);
        } else {
          positions := Holdings(PORTFOLIO_POSITIONS, Normalize(data));
        }
      case _ =>
        positions := FallbackHoldings(PORTFOLIO_POSITIONS);
    }
  }

  /** GET: the key check, the cache check, the fetch with its fallback, the totals and the store. */
  method GetPortfolio(cache: Cache<Summary>, apiKey: string, lookupTime: int, upstream: Upstream, storeTime: int)
    returns (resp: Response<Summary>, calledUpstream: bool)
    modifies cache
    ensures apiKey == "" ==>
      && resp == ErrorJson(INTERNAL_SERVER_ERROR, "API key not configured", None)
      && !calledUpstream && cache.entries == old(cache.entries)
    ensures apiKey != "" && Lookup(old(cache.entries), CACHE_KEY, lookupTime).Some? ==>
      && resp == Json(Lookup(old(cache.entries), CACHE_KEY, lookupTime).value)
      && !calledUpstream && cache.entries == old(cache.entries)
    ensures apiKey != "" && Lookup(old(cache.entries), CACHE_KEY, lookupTime).None? ==>
      && calledUpstream
      && resp == Json(PortfolioFor(upstream))
      && cache.entries == old(cache.entries)[CACHE_KEY := Entry(PortfolioFor(upstream), storeTime)]
  {
    if apiKey == "" {
      return ErrorJson(INTERNAL_SERVER_ERROR, "API key not configured", None), false;
    }
    var cached := cache.Get(CACHE_KEY, lookupTime);
    if cached.Some? {
      return Json(cached.value), false;
    }
    calledUpstream := true;
    var positions := FetchPositions(upstream);
    var portfolio := Assemble(positions);
    cache.Put(CACHE_KEY, portfolio, storeTime);
    resp := Json(portfolio);
  }

  /** Two requests: once the first has fetched and stored, a second one that
      looks up within the window is answered from the cache, without a fetch. */
  method RepeatRequest(cache: Cache<Summary>, apiKey: string,
                       t1: int, upstream1: Upstream, s1: int,
                       t2: int, upstream2: Upstream, s2: int)
    returns (first: Response<Summary>, second: Response<Summary>, calledAgain: bool)
    requires apiKey != ""
    requires Lookup(cache.entries, CACHE_KEY, t1).None? && t2 - s1 < CACHE_DURATION
    modifies cache
    ensures first == Json(PortfolioFor(upstream1))
    ensures second == first && !calledAgain
  {
    var called1;
    first, called1 := GetPortfolio(cache, apiKey, t1, upstream1, s1);
    second, calledAgain := GetPortfolio(cache, apiKey, t2, upstream2, s2);
  }
}
