/** The records an uploaded scenario file is typed as: one candle per time
    bucket, the precomputed summary statistics, and the scenario around them.
    Prices, volumes and percentages are JavaScript numbers, modelled as reals;
    the timestamp is epoch milliseconds, modelled as an integer. */
module ScenarioModel {

  /** An open/high/low/close quadruple, used both for price and for open interest. */
  datatype Ohlc = Ohlc(open: real, high: real, low: real, close: real)

  datatype Candle = Candle(
    timestamp: int,
    timeFormatted: string,
    price: Ohlc,
    openInterest: Ohlc,
    volume: real,
    turnover: real)

  datatype Statistics = Statistics(
    totalCandles: real,
    priceStart: real,
    priceEnd: real,
    priceChangePercent: real,
    oiStart: real,
    oiEnd: real,
    oiChangePercent: real,
    avgVolume: real,
    maxVolume: real,
    minVolume: real,
    volatilityPercent: real)

  datatype ScenarioData = ScenarioData(
    scenario: string,
    description: string,
    symbol: string,
    candles: seq<Candle>,
    statistics: Statistics)
}
