/**
  The data the price chart draws: the line series, the candlestick series
  with its body geometry, the volume series in millions, and the labels of
  the chart-type selector. Date labels come from the host's locale
  formatting, passed in as `formatDate`.
 */
module StockChart {

  /** An element of `history.lineData`. */
  datatype PricePoint = PricePoint(date: string, price: real)

  /** An element of `history.candleData`. */
  datatype Bar = Bar(date: string, open: real, high: real, low: real, close: real, volume: real)

  datatype LineRow = LineRow(date: string, price: real)

  datatype CandleRow = CandleRow(
    date: string,
    open: real,
    high: real,
    low: real,
    close: real,
    bodyTop: real,
    bodyBottom: real,
    bodyHeight: real,
    isUp: bool)

  datatype VolumeRow = VolumeRow(date: string, volume: real)

  function Max(a: real, b: real): (m: real) { if a >= b then a else b }

  function Min(a: real, b: real): (m: real) { if a <= b then a else b }

  function Abs(a: real): (m: real) { if a >= 0.0 then a else -a }

  /** The candle drawn for one bar. */
  function Candle(b: Bar, formatDate: string -> string): (c: CandleRow)
    ensures c.date == formatDate(b.date)
    ensures c.open == b.open && c.high == b.high && c.low == b.low && c.close == b.close
    ensures c.isUp <==> b.close >= b.open
    ensures c.bodyBottom <= c.bodyTop && c.bodyHeight == c.bodyTop - c.bodyBottom && c.bodyHeight >= 0.0
    ensures {c.bodyTop, c.bodyBottom} == {b.open, b.close}
  {
    CandleRow(formatDate(b.date), b.open, b.high, b.low, b.close,
              Max(b.open, b.close), Min(b.open, b.close), Abs(b.close - b.open),
              b.close >= b.open)
  }

  /** `history.lineData.map(...)`. */
  function LineData(points: seq<PricePoint>, formatDate: string -> string): (rows: seq<LineRow>)
    ensures |rows| == |points|
    ensures forall i :: 0 <= i < |points| ==>
      rows[i].price == points[i].price && rows[i].date == formatDate(points[i].date)
  {
    if points == [] then []
    else [LineRow(formatDate(points[0].date), points[0].price)] + LineData(points[1..], formatDate)
  }

  /** `history.candleData.map(...)` for the candlestick series. */
  function CandleData(bars: seq<Bar>, formatDate: string -> string): (rows: seq<CandleRow>)
    ensures |rows| == |bars|
    ensures forall i :: 0 <= i < |bars| ==> rows[i] == Candle(bars[i], formatDate)
  {
    if bars == [] then [] else [Candle(bars[0], formatDate)] + CandleData(bars[1..], formatDate)
  }

  /** `history.candleData.map(...)` for the volume series, in millions. */
  function VolumeData(bars: seq<Bar>, formatDate: string -> string): (rows: seq<VolumeRow>)
    ensures |rows| == |bars|
    ensures forall i :: 0 <= i < |bars| ==>
      rows[i].volume * 1000000.0 == bars[i].volume && rows[i].date == formatDate(bars[i].date)
  {
    if bars == [] then []
    else [VolumeRow(formatDate(bars[0].date), bars[0].volume / 1000000.0)] + VolumeData(bars[1..], formatDate)
  }

  /** The volume bars stand under the candles: same count, same date at every index. */
  lemma VolumeAlignsWithCandles(bars: seq<Bar>, formatDate: string -> string, i: nat)
    requires i < |bars|
    ensures |VolumeData(bars, formatDate)| == |CandleData(bars, formatDate)|
    ensures VolumeData(bars, formatDate)[i].date == CandleData(bars, formatDate)[i].date
  {
  }

  /** The candles of two runs of bars, one after the other, are the candles of
      the first run followed by those of the second: the mapping keeps order. */
  lemma CandleDataSplits(a: seq<Bar>, b: seq<Bar>, formatDate: string -> string)
    ensures CandleData(a + b, formatDate) == CandleData(a, formatDate) + CandleData(b, formatDate)
  {
  }

  type ChartType = s: string | s in {"line", "candlestick", "volume"} witness "line"

  const CHART_TYPES: seq<ChartType> := ["line", "candlestick", "volume"]

  /** `toUpperCase` on one character, for the ASCII letters that chart-type names use. */
  function UpperChar(c: char): (u: char)
    ensures 'a' <= c <= 'z' ==> 'A' <= u <= 'Z' && u as int == c as int - 32
    ensures !('a' <= c <= 'z') ==> u == c
  {
    if 'a' <= c <= 'z' then (c as int - 32) as char else c
  }

  /** `type.charAt(0).toUpperCase() + type.slice(1)`. */
  function Capitalize(s: string): (r: string)
    ensures |r| == |s|
    ensures s != [] ==> r[0] == UpperChar(s[0]) && r[1..] == s[1..]
  {
    if s == [] then [] else [UpperChar(s[0])] + s[1..]
  }

  /** The selector's button labels, one per chart type, in order. */
  function Labels(types: seq<string>): (r: seq<string>)
    ensures |r| == |types|
    ensures forall i :: 0 <= i < |types| ==> r[i] == Capitalize(types[i])
  {
    if types == [] then [] else [Capitalize(types[0])] + Labels(types[1..])
  }

  lemma SelectorLabels()
    ensures Labels(CHART_TYPES) == ["Line", "Candlestick", "Volume"]
  {
    assert Capitalize("line") == "Line";
    assert Capitalize("candlestick") == "Candlestick";
    assert Capitalize("volume") == "Volume";
  }
}
