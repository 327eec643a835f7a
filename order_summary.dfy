/**
  The order summary of the buy/sell dialog: the quantity and unit price read
  from the form, the order value, the 0.1 % fee and the total cost.
  Form inputs are strings; each is represented by what `parseFloat` makes
  of it (`None` for NaN).
 */
module OrderSummary {
  import opened Js

  /** The fields of the selected stock that the summary reads. */
  datatype Stock = Stock(symbol: string, price: real)

  datatype OrderType = Market | Limit

  datatype Summary = Summary(
    qty: real,
    price: real,
    total: real,
    estimatedCost: real,
    estimatedFee: real,
    totalCost: real)

  /** The fee rate, 0.1 %. */
  const FEE_RATE: real := 0.001

  /** `parseFloat(quantity) || 0`. */
  function Quantity(quantity: Option<real>): (r: real)
    ensures NumberTruthy(quantity) ==> r == quantity.value
    ensures !NumberTruthy(quantity) ==> r == 0.0
  {
    NumberOr(quantity, 0.0)
  }

  /** `orderType === "market" ? stock.price : parseFloat(limitPrice) || stock.price`. */
  function UnitPrice(stock: Stock, orderType: OrderType, limitPrice: Option<real>): (r: real)
    ensures orderType == Market ==> r == stock.price
    ensures orderType == Limit && NumberTruthy(limitPrice) ==> r == limitPrice.value
    ensures orderType == Limit && !NumberTruthy(limitPrice) ==> r == stock.price
  {
    if orderType == Market then stock.price else NumberOr(limitPrice, stock.price)
  }

  /** The figures for a quantity and a unit price. The order value
      is what the cost estimate shows, the fee is a thousandth of it, and the
      total cost is the two together, never below the order value when neither
      the quantity nor the price is negative. */
  function Figures(qty: real, price: real): (s: Summary)
    ensures s.qty == qty && s.price == price
    ensures s.estimatedCost == s.total == qty * price
    ensures s.estimatedFee * 1000.0 == s.total
    ensures s.totalCost == s.estimatedCost + s.estimatedFee
    ensures qty >= 0.0 && price >= 0.0 ==> s.estimatedFee >= 0.0 && s.totalCost >= s.estimatedCost
  {
    var total := qty * price;
    var estimatedCost := total;
    var estimatedFee := total * FEE_RATE;
    Summary(qty, price, total, estimatedCost, estimatedFee, estimatedCost + estimatedFee)
  }

  /** Nothing without a stock, otherwise the figures of the summary. */
  function Compute(stock: Option<Stock>, quantity: Option<real>, orderType: OrderType, limitPrice: Option<real>)
    : (r: Option<Summary>)
    ensures r.None? <==> stock.None?
    ensures r.Some? ==> r.value.qty == Quantity(quantity) && r.value.price == UnitPrice(stock.value, orderType, limitPrice)
  {
    match stock
    case None => None
    case Some(s) => Some(Figures(Quantity(quantity), UnitPrice(s, orderType, limitPrice)))
  }

  /** The order value is quantity times price; the fee is 0.1 % of it; the total
      cost is 1.001 times it, never below it for a non-negative order. */
  lemma CostBreakdown(stock: Stock, quantity: Option<real>, orderType: OrderType, limitPrice: Option<real>)
    ensures var s := Compute(Some(stock), quantity, orderType, limitPrice).value;
      && s.estimatedCost == s.total == s.qty * s.price
      && s.estimatedFee == s.total / 1000.0
      && s.totalCost == 1.001 * s.qty * s.price
      && (s.qty >= 0.0 && s.price >= 0.0 ==> s.totalCost >= s.estimatedCost && s.estimatedFee >= 0.0)
  {
    var s := Compute(Some(stock), quantity, orderType, limitPrice).value;
    assert s.totalCost == s.total + s.total * FEE_RATE;
    if s.qty >= 0.0 && s.price >= 0.0 {
      assert s.total >= 0.0;
    }
  }

  /** An empty, unparsable or zero quantity makes every figure 0. */
  lemma ZeroQuantityCostsNothing(stock: Stock, quantity: Option<real>, orderType: OrderType, limitPrice: Option<real>)
    requires !NumberTruthy(quantity)
    ensures var s := Compute(Some(stock), quantity, orderType, limitPrice).value;
      s.qty == 0.0 && s.total == 0.0 && s.estimatedFee == 0.0 && s.totalCost == 0.0
  {
  }

  /** A market order ignores the limit field, and a limit order whose limit is
      empty, unparsable or zero is priced like a market order. */
  lemma LimitFallsBackToMarket(stock: Stock, quantity: Option<real>, l1: Option<real>, l2: Option<real>)
    ensures Compute(Some(stock), quantity, Market, l1) == Compute(Some(stock), quantity, Market, l2)
    ensures !NumberTruthy(l1) ==> Compute(Some(stock), quantity, Limit, l1) == Compute(Some(stock), quantity, Market, l2)
  {
  }

  /** Ten shares at 150 cost 1500 plus a fee of 1.5. */
  lemma TenAtOneFifty()
    ensures Compute(Some(Stock("AAPL", 150.0)), Some(10.0), Market, None)
      == Some(Summary(10.0, 150.0, 1500.0, 1500.0, 1.5, 1501.5))
  {
  }
}
