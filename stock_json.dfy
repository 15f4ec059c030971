/** The JSON the query endpoint returns and the dashboard reads. */
module StockJson {

  /** One entry of the server's industry theme table. */
  datatype Theme = Theme(bgColor: string, accentColor: string, icon: string, chartColors: seq<string>, pattern: string)

  /** `data.stock_info`: the company panel's fields and the theme to paint. */
  datatype StockDetails = StockDetails(
    name: string, industry: string, market: string, listDate: string, fullname: string,
    chairman: string, introduction: string, mainBusiness: string, businessScope: string,
    theme: Theme)

  /** `data.price_data`: parallel columns, one entry per trading day. */
  datatype PriceData = PriceData(
    dates: seq<string>, open: seq<real>, high: seq<real>, low: seq<real>, close: seq<real>, vol: seq<real>)

  /** `data`: company details, the valuation metrics per day, and the daily prices. */
  datatype StockData = StockData(
    stockInfo: StockDetails,
    dates: seq<string>, pe: seq<real>, pb: seq<real>, dvRatio: seq<real>, totalMv: seq<real>,
    priceData: PriceData)

  /** `{success: true, data}` or `{success: false, error}`. */
  datatype Response = Success(data: StockData) | Failure(error: string)

  /** Every price column has one entry per price date. */
  predicate PriceAligned(p: PriceData)
  {
    |p.open| == |p.dates| && |p.high| == |p.dates| && |p.low| == |p.dates|
    && |p.close| == |p.dates| && |p.vol| == |p.dates|
  }

  /** Every metric column has one entry per metric date. */
  predicate MetricsAligned(d: StockData)
  {
    |d.pe| == |d.dates| && |d.pb| == |d.dates| && |d.dvRatio| == |d.dates| && |d.totalMv| == |d.dates|
  }
}
