/**
 * The dashboard and the query endpoint together: the code the page sends,
 * the handler's reply, and what the page makes of that reply.
 */
module Integration {
  import opened Common
  import opened DateOrder
  import opened StockJson
  import opened ChartOptions
  import S = Server
  import D = Dashboard

  /** `data` of a success reply as the page reads it: every section present. */
  function ToPayload(d: StockData): (p: D.Payload)
    ensures p.stockInfo == Some(d.stockInfo) && p.priceData == Some(d.priceData)
    ensures p.dates == d.dates && p.pe == d.pe && p.pb == d.pb && p.dvRatio == d.dvRatio && p.totalMv == d.totalMv
  {
    D.Payload(Some(d.stockInfo), d.dates, d.pe, d.pb, d.dvRatio, d.totalMv, Some(d.priceData))
  }

  /**
   * `response.json()` on the handler's reply. The page reads the body
   * whatever the status, so a 500 reply is shown through its `error` field
   * like any other failure.
   */
  function Transport(http: S.HttpReply): (reply: D.Reply)
    ensures reply.Received?
    ensures reply.result.Ok? <==> http.body.Success?
    ensures http.body.Success? ==> reply.result.data == ToPayload(http.body.data)
    ensures http.body.Failure? ==> reply.result.error == http.body.error
  {
    match http.body
    case Success(d) => D.Received(D.Ok(ToPayload(d)))
    case Failure(e) => D.Received(D.Failed(e))
  }

  /** The request `queryStock` sends for a validated code: a JSON object with `stock_code`. */
  function RequestFor(code: string): (body: S.RequestBody)
    ensures body.JsonObject? && body.stockCode == Some(code)
  {
    S.JsonObject(Some(code))
  }

  /**
   * A success reply renders in full: every section is present, so no
   * render-failure notice; five charts; the price chart's dates are in
   * order; every candle has all four prices; the palette has three colours.
   */
  lemma SuccessRendersInFull(code: Option<string>, api: S.Tushare)
    requires S.QueryStock(code, api).Success?
    ensures var p := ToPayload(S.QueryStock(code, api).data);
      var prices := p.priceData.value;
      var plan := D.RenderPlan(p);
      && !D.RenderFails(p)
      && |plan| == 5
      && plan[0].option.xAxis == Some(OneAxis(Axis("", prices.dates, Some(WhiteLabel))))
      && NonDecreasing(prices.dates)
      && |CandleRows(prices)| == |prices.dates|
      && (forall i :: 0 <= i < |prices.dates| ==>
            CandleRows(prices)[i] == Candle(Some(prices.open[i]), Some(prices.close[i]), Some(prices.low[i]), Some(prices.high[i])))
      && |p.stockInfo.value.theme.chartColors| == 3
  {
    var p := ToPayload(S.QueryStock(code, api).data);
    S.SuccessDataIsSortedAndAligned(code, api);
    S.ThemeOfReply(code, api);
    CandleRowsOfAlignedPrices(p.priceData.value);
    D.RenderPlanShape(p);
  }

  /**
   * A code that passed the dashboard's checks is never refused as empty by
   * the handler as written, which answers the dashboard's object body just
   * as the intended handler does. A success reply is rendered and shows only
   * the success notice; a failure reply shows the server's message verbatim
   * and renders nothing.
   */
  lemma QueryRoundTrip(raw: string, api: S.Tushare)
    requires D.SentCode(raw).Some?
    ensures var code := D.SentCode(raw).value;
      var http := S.HandleRequestAsWritten(RequestFor(code), api);
      var reply := Transport(http);
      && http == S.HandleRequest(RequestFor(code), api)
      && http.status == 200
      && http.body != Failure(S.EmptyCodeError)
      && (http.body.Success? ==>
            && D.Rendered(raw, reply) == Some(ToPayload(http.body.data))
            && D.QueryNotices(raw, reply) == [D.Notice(D.LoadedMessage, D.SuccessNotice)])
      && (http.body.Failure? ==>
            && D.Rendered(raw, reply).None?
            && D.QueryNotices(raw, reply) == [D.Notice(http.body.error, D.ErrorNotice)])
  {
    var code := D.SentCode(raw).value;
    var http := S.HandleRequestAsWritten(RequestFor(code), api);
    assert S.HasCode(Some(code));
    assert http.body == S.QueryStock(Some(code), api);
    assert D.Rendered(raw, Transport(http)) == D.Delivered(Transport(http));
  }

  /**
   * A request body the handler cannot read reaches the page as the caught
   * exception's message under the intended handler, but only as the generic
   * internal-error text under the handler as written.
   */
  lemma UnreadableBodyNotice(message: string, api: S.Tushare)
    ensures D.ReplyNotices(Transport(S.HandleRequest(S.Unreadable(message), api)))
      == [D.Notice(S.FailurePrefix + message, D.ErrorNotice)]
    ensures D.ReplyNotices(Transport(S.HandleRequestAsWritten(S.Unreadable(message), api)))
      == [D.Notice(S.InternalError, D.ErrorNotice)]
  {
  }
}
