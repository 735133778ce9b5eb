/** The chart section: the projection of candles onto the price and
    open-interest series handed to the financial-chart renderer, and the two
    option records whose data it replaces. */
module Charts {
  import opened ScenarioModel
  import Scenarios

  /** One point of the price chart. The date is the candle's epoch-millisecond
      timestamp (the renderer's Date object carries exactly that number). */
  datatype PricePoint = PricePoint(date: int, open: real, high: real, low: real, close: real, volume: real)

  /** One point of the open-interest chart; it carries no volume. */
  datatype OiPoint = OiPoint(date: int, open: real, high: real, low: real, close: real)

  /** The chart theme: base theme, up/down palette and background fill. */
  datatype Theme = Theme(baseTheme: string, upFill: string, upStroke: string,
                         downFill: string, downStroke: string, background: string)

  /** A financial-chart options record with data points of type P. */
  datatype ChartOptions<P> = ChartOptions(
    data: seq<P>,
    chartType: string,
    toolbar: bool,
    zoom: bool,
    volume: bool,
    navigator: bool,
    rangeButtons: bool,
    statusBar: bool,
    dateKey: string,
    openKey: string,
    highKey: string,
    lowKey: string,
    closeKey: string,
    theme: Theme)

  const InitialPriceOptions: ChartOptions<PricePoint> := ChartOptions(
    [], "candlestick", true, true, false, false, true, true,
    "date", "open", "high", "low", "close",
    Theme("ag-default-dark", "#00ff88", "#00ff88", "#ff4444", "#ff4444", "rgba(30, 30, 46, 0.8)"))

  const InitialOiOptions: ChartOptions<OiPoint> := ChartOptions(
    [], "candlestick", true, true, false, false, true, true,
    "date", "open", "high", "low", "close",
    Theme("ag-default-dark", "#ffa500", "#ffa500", "#ff4444", "#ff4444", "rgba(30, 30, 46, 0.8)"))

  /** The price point of one candle. */
  function PricePointOf(c: Candle): PricePoint {
    PricePoint(c.timestamp, c.price.open, c.price.high, c.price.low, c.price.close, c.volume)
  }

  /** The open-interest point of one candle. */
  function OiPointOf(c: Candle): OiPoint {
    OiPoint(c.timestamp, c.openInterest.open, c.openInterest.high, c.openInterest.low, c.openInterest.close)
  }

  /** `candles.map(...)` for the price chart: one point per candle, in candle
      order, carrying the candle's timestamp, price quadruple and volume. */
  function PricePoints(candles: seq<Candle>): (points: seq<PricePoint>)
    ensures |points| == |candles|
    ensures forall i :: 0 <= i < |candles| ==>
              && points[i].date == candles[i].timestamp
              && points[i].open == candles[i].price.open && points[i].high == candles[i].price.high
              && points[i].low == candles[i].price.low && points[i].close == candles[i].price.close
              && points[i].volume == candles[i].volume
  {
    if candles == [] then [] else [PricePointOf(candles[0])] + PricePoints(candles[1..])
  }

  /** `candles.map(...)` for the open-interest chart: one point per candle, in
      candle order, carrying the candle's timestamp and open-interest
      quadruple. */
  function OiPoints(candles: seq<Candle>): (points: seq<OiPoint>)
    ensures |points| == |candles|
    ensures forall i :: 0 <= i < |candles| ==>
              && points[i].date == candles[i].timestamp
              && points[i].open == candles[i].openInterest.open && points[i].high == candles[i].openInterest.high
              && points[i].low == candles[i].openInterest.low && points[i].close == candles[i].openInterest.close
  {
    if candles == [] then [] else [OiPointOf(candles[0])] + OiPoints(candles[1..])
  }

  ghost predicate TimeOrdered(candles: seq<Candle>) {
    forall i, j :: 0 <= i < j < |candles| ==> candles[i].timestamp <= candles[j].timestamp
  }

  /** Both series list their dates in candle order, so candles ordered by
      timestamp give series ordered by date. */
  lemma SeriesKeepTimeOrder(candles: seq<Candle>)
    requires TimeOrdered(candles)
    ensures forall i, j :: 0 <= i < j < |candles| ==> PricePoints(candles)[i].date <= PricePoints(candles)[j].date
    ensures forall i, j :: 0 <= i < j < |candles| ==> OiPoints(candles)[i].date <= OiPoints(candles)[j].date
  {
  }

  /** Charting the downsampled candles gives the downsampled price series: the
      downsampling the parser applies and the projection commute. */
  lemma PriceSeriesCommutesWithDownsampling(candles: seq<Candle>)
    ensures PricePoints(Scenarios.Optimized(candles)) == Scenarios.Optimized(PricePoints(candles))
  {
    if |candles| > Scenarios.OptimizeThreshold {
      var sampled := Scenarios.EveryFifth(candles);
      forall k | 0 <= k < |sampled|
        ensures PricePoints(sampled)[k] == Scenarios.EveryFifth(PricePoints(candles))[k]
      {
        assert sampled[k] == candles[5 * k];
      }
    }
  }

  /** The same for the open-interest series. */
  lemma OiSeriesCommutesWithDownsampling(candles: seq<Candle>)
    ensures OiPoints(Scenarios.Optimized(candles)) == Scenarios.Optimized(OiPoints(candles))
  {
    if |candles| > Scenarios.OptimizeThreshold {
      var sampled := Scenarios.EveryFifth(candles);
      forall k | 0 <= k < |sampled|
        ensures OiPoints(sampled)[k] == Scenarios.EveryFifth(OiPoints(candles))[k]
      {
        assert sampled[k] == candles[5 * k];
      }
    }
  }

  class ChartSection {
    /** The required `candles` input. */
    var candles: seq<Candle>
    var priceChartOptions: ChartOptions<PricePoint>
    var oiChartOptions: ChartOptions<OiPoint>

    /** Before any update both charts are candlestick charts with zoom on,
        volume off and no data. */
    constructor (candles: seq<Candle>)
      ensures this.candles == candles
      ensures priceChartOptions == InitialPriceOptions && oiChartOptions == InitialOiOptions
      ensures priceChartOptions.data == [] && oiChartOptions.data == []
      ensures priceChartOptions.chartType == "candlestick" && oiChartOptions.chartType == "candlestick"
      ensures priceChartOptions.zoom && oiChartOptions.zoom
      ensures !priceChartOptions.volume && !oiChartOptions.volume
    {
      this.candles := candles;
      priceChartOptions := InitialPriceOptions;
      oiChartOptions := InitialOiOptions;
    }

    /** `updateCharts`: each options record gets the projection of the current
        candles as its data, whatever data it held before, and keeps every other
        field. */
    method UpdateCharts()
      modifies this`priceChartOptions, this`oiChartOptions
      ensures priceChartOptions == old(priceChartOptions).(data := PricePoints(candles))
      ensures oiChartOptions == old(oiChartOptions).(data := OiPoints(candles))
      ensures |priceChartOptions.data| == |candles| && |oiChartOptions.data| == |candles|
    {
      var priceData := PricePoints(candles);
      var oiData := OiPoints(candles);
      priceChartOptions := priceChartOptions.(data := priceData);
      oiChartOptions := oiChartOptions.(data := oiData);
    }
  }
}
