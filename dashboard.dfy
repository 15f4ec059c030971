/**
 * The dashboard controller of static/js/main.js: the global `charts` list,
 * the query button, the notifications shown, and the page theme. The DOM
 * and ECharts are reduced to the state the controller reads and writes;
 * the server's reply to a request is an input of the query.
 */
module Dashboard {
  import opened Common
  import opened JsText
  import opened Ticker
  import opened StockJson
  import opened ChartOptions

  const EnterCodeMessage := "请输入股票代码"
  const FormatMessage := "请输入正确的股票代码格式，例如：000001.SZ 或 600000.SH"
  const LoadedMessage := "数据加载成功"
  const NetworkMessage := "网络错误，请稍后重试"
  const RenderFailedMessage := "图表更新失败，请刷新页面重试"
  /** The button's text while a request is outstanding (the spinner itself has no text). */
  const LoadingText := " 加载中..."

  datatype NoticeKind = ErrorNotice | SuccessNotice

  /** One `showNotification(message, type)` call. */
  datatype Notice = Notice(message: string, kind: NoticeKind)

  /** The five chart containers, in the order `initializeCharts` fills them. */
  datatype ChartKind = PriceChart | PeChart | PbChart | DvChart | MvChart

  /**
   * `result.data` as the dashboard reads it. A section the reply lacks makes
   * the first statement that dereferences it throw.
   */
  datatype Payload = Payload(
    stockInfo: Option<StockDetails>,
    dates: seq<string>, pe: seq<real>, pb: seq<real>, dvRatio: seq<real>, totalMv: seq<real>,
    priceData: Option<PriceData>)

  /** The parsed `result`: `success` true with `data`, or false with `error`. */
  datatype Result = Ok(data: Payload) | Failed(error: string)

  /** What `await fetch(...)` then `await response.json()` produce: a result, or a thrown error. */
  datatype Reply = Thrown | Received(result: Result)

  /** A request sent, with the button's state while it was outstanding. */
  datatype Request = Request(stockCode: string, buttonDisabled: bool, buttonText: string)

  /** A chart the dashboard holds: which container, and its option. */
  datatype Built = Built(kind: ChartKind, option: ChartOption)

  // ---- What a query and a render should do ---------------------------------

  /** The code sent to the server: the trimmed, upper-cased input, when it passes the validator. */
  function SentCode(raw: string): (code: Option<string>)
    ensures code.Some? <==> IsTicker(Normalize(raw))
    ensures code.Some? ==> code.value == Normalize(raw) && code.value != ""
  {
    var code := Normalize(raw);
    if code != "" && IsTicker(code) then Some(code) else None
  }

  /** `updateCharts` throws when a section it dereferences is missing. */
  predicate RenderFails(d: Payload)
  {
    d.stockInfo.None? || d.priceData.None?
  }

  /**
   * What `initializeCharts` pushes: the price chart, then (unless the price
   * section is missing, which throws right after the first push) the PE, PB,
   * dividend-yield and market-value line charts.
   */
  function ChartPlan(d: Payload): (plan: seq<Built>)
  {
    match d.priceData
    case None => [Built(PriceChart, Blank)]
    case Some(p) => [Built(PriceChart, PriceOption(p))] + LinePlan(d)
  }

  /** The PE, PB, dividend-yield and market-value charts, each over the metric dates. */
  function LinePlan(d: Payload): (plan: seq<Built>)
  {
    [Built(PeChart, LineOption(PeTitle, d.dates, d.pe)),
     Built(PbChart, LineOption(PbTitle, d.dates, d.pb)),
     Built(DvChart, LineOption(DvTitle, d.dates, d.dvRatio)),
     Built(MvChart, LineOption(MvTitle, d.dates, d.totalMv))]
  }

  /** The charts held after `updateCharts(d)`. */
  function RenderPlan(d: Payload): (plan: seq<Built>)
  {
    if d.stockInfo.None? then [] else ChartPlan(d)
  }

  /**
   * A complete payload leaves exactly five charts, in the order price, PE,
   * PB, dividend yield, market value, built from the payload's own series
   * and not recoloured; an incomplete one leaves none, or only a bare price
   * chart when just the price section is missing.
   */
  lemma RenderPlanShape(d: Payload)
    ensures !RenderFails(d) ==>
      var plan := RenderPlan(d);
      && |plan| == 5
      && plan[0].kind == PriceChart && plan[1].kind == PeChart && plan[2].kind == PbChart
      && plan[3].kind == DvChart && plan[4].kind == MvChart
      && (forall i :: 0 <= i < 5 ==> plan[i].option.color.None?)
      && plan[0].option.series[0].data == Candles(CandleRows(d.priceData.value))
      && plan[0].option.series[1].data == Values(VolumeBars(d.priceData.value.vol))
      && plan[1].option.series[0].data == Values(d.pe) && plan[2].option.series[0].data == Values(d.pb)
      && plan[3].option.series[0].data == Values(d.dvRatio) && plan[4].option.series[0].data == Values(d.totalMv)
    ensures d.stockInfo.None? ==> RenderPlan(d) == []
    ensures d.stockInfo.Some? && d.priceData.None? ==> RenderPlan(d) == [Built(PriceChart, Blank)]
  {
  }

  /** The notifications one query shows, in order. */
  function QueryNotices(raw: string, reply: Reply): seq<Notice>
  {
    if SentCode(raw).Some? then ReplyNotices(reply) else GuardNotices(raw)
  }

  /** The one error an input gets when no request is sent for it. */
  function GuardNotices(raw: string): seq<Notice>
  {
    if Normalize(raw) == "" then [Notice(EnterCodeMessage, ErrorNotice)] else [Notice(FormatMessage, ErrorNotice)]
  }

  /** The notifications shown once a request was sent and `reply` came back. */
  function ReplyNotices(reply: Reply): seq<Notice>
  {
    match reply
    case Thrown => [Notice(NetworkMessage, ErrorNotice)]
    case Received(Failed(e)) => [Notice(e, ErrorNotice)]
    case Received(Ok(d)) =>
      (if RenderFails(d) then [Notice(RenderFailedMessage, ErrorNotice)] else []) + [Notice(LoadedMessage, SuccessNotice)]
  }

  /** The payload a reply hands to `updateCharts`, if any. */
  function Delivered(reply: Reply): (d: Option<Payload>)
    ensures d.Some? ==> reply == Received(Ok(d.value))
    ensures reply.Received? && reply.result.Ok? ==> d == Some(reply.result.data)
  {
    if reply.Received? && reply.result.Ok? then Some(reply.result.data) else None
  }

  /** The payload a query renders, if any. */
  function Rendered(raw: string, reply: Reply): (d: Option<Payload>)
    ensures d.Some? ==> SentCode(raw).Some? && reply == Received(Ok(d.value))
  {
    if SentCode(raw).Some? then Delivered(reply) else None
  }

  /**
   * Each outcome's notifications: an input that is blank after trimming, or
   * malformed, gets one error and no request; a thrown request gets the
   * network message; a `success: false` reply shows its error verbatim; a
   * success shows the success notice, preceded by the render-failure notice
   * when the payload cannot be rendered.
   */
  lemma QueryNoticeOutcomes(raw: string, reply: Reply)
    ensures AllWhitespace(raw) ==> QueryNotices(raw, reply) == [Notice(EnterCodeMessage, ErrorNotice)] && SentCode(raw).None?
    ensures !AllWhitespace(raw) && SentCode(raw).None? ==> QueryNotices(raw, reply) == [Notice(FormatMessage, ErrorNotice)]
    ensures SentCode(raw).Some? && reply.Thrown? ==> QueryNotices(raw, reply) == [Notice(NetworkMessage, ErrorNotice)]
    ensures SentCode(raw).Some? && reply.Received? && reply.result.Failed? ==>
      QueryNotices(raw, reply) == [Notice(reply.result.error, ErrorNotice)]
    ensures SentCode(raw).Some? && reply.Received? && reply.result.Ok? ==>
      QueryNotices(raw, reply)[|QueryNotices(raw, reply)| - 1] == Notice(LoadedMessage, SuccessNotice)
      && (forall n :: n in QueryNotices(raw, reply) && n.kind == ErrorNotice ==> RenderFails(reply.result.data))
  {
  }

  // ---- The heap: charts and the dashboard ------------------------------------

  /** A snapshot of the rendered part of the page. */
  datatype PageState = PageState(
    charts: seq<Chart?>, theme: Option<Theme>, company: Option<StockDetails>, banner: string, resizeListeners: nat)

  /** A snapshot of the whole dashboard a query can change. */
  datatype Snapshot = Snapshot(
    requests: seq<Request>, buttonDisabled: bool, buttonText: string, notices: seq<Notice>,
    page: PageState, options: map<Chart, ChartOption>)

  /** An ECharts instance: its container, its current option, and how often it was disposed. */
  class Chart {
    const kind: ChartKind
    var option: ChartOption
    var disposals: nat

    /** `echarts.init(container)`. */
    constructor (kind: ChartKind)
      ensures this.kind == kind && option == Blank && disposals == 0
    {
      this.kind := kind;
      option := Blank;
      disposals := 0;
    }

    /** `chart.setOption(option)`, with the option given in full. */
    method SetOption(o: ChartOption)
      modifies this`option
      ensures option == o
    {
      option := o;
    }

    /** `chart.dispose()`. */
    method Dispose()
      modifies this`disposals
      ensures disposals == old(disposals) + 1
    {
      disposals := disposals + 1;
    }
  }

  class Dashboard {
    /** The text in the `stockCode` input field. */
    var inputValue: string
    /** The global `charts` list. */
    var charts: seq<Chart?>
    var buttonDisabled: bool
    var buttonText: string
    /** Requests sent to the query endpoint, oldest first. */
    var requests: seq<Request>
    /** Notifications shown, oldest first. */
    var notices: seq<Notice>
    /** The theme the background, overlay, cards, buttons and accent text were last given. */
    var pageTheme: Option<Theme>
    /** The `stockInfo` line: stock name and the code as typed. */
    var banner: string
    /** What the company panel shows. */
    var company: Option<StockDetails>
    /** Resize listeners registered on the window. */
    var resizeListeners: nat

    /** The charts the list holds. */
    ghost function Live(): set<Chart>
      reads this`charts
    {
      set c: Chart | c in charts
    }

    /** What a render replaces: the chart list, the theme, the info panels and the resize listeners. */
    ghost function Page(): PageState
      reads this`charts, this`pageTheme, this`company, this`banner, this`resizeListeners
    {
      PageState(charts, pageTheme, company, banner, resizeListeners)
    }

    /** The option of every chart the list holds. */
    ghost function Options(): map<Chart, ChartOption>
      reads this`charts, Live()`option
    {
      map c | c in Live() :: c.option
    }

    /**
     * What a reply did to the page, measured against the page `before` and
     * the options `held` of the charts held then: with no payload to
     * render, those charts are untouched and the page is as before; with a
     * payload, each of them was disposed once, the list holds the
     * payload's charts, and the theme, company panel and banner show the
     * payload's stock when it has one.
     */
    ghost predicate Replaced(before: PageState, held: map<Chart, ChartOption>, rendered: Option<Payload>)
      reads this`charts, this`pageTheme, this`company, this`banner, this`resizeListeners, this`inputValue
      reads held.Keys`option, held.Keys`disposals, Live()`option
    {
      && (forall c :: c in held ==> c.disposals == (if rendered.Some? then 1 else 0) && c.option == held[c])
      && (rendered.None? ==> Page() == before)
      && (rendered.Some? ==>
            var info := rendered.value.stockInfo;
            && Holds(0, RenderPlan(rendered.value))
            && pageTheme == (if info.Some? then Some(info.value.theme) else before.theme)
            && company == (if info.Some? then info else before.company)
            && banner == (if info.Some? then info.value.name + " (" + inputValue + ")" else before.banner)
            && resizeListeners == before.resizeListeners + (if RenderFails(rendered.value) then 0 else 1))
    }

    /** The dashboard as a value: the request log, the button, the notices, the page and the held charts' options. */
    ghost function Snap(): Snapshot
      reads this`requests, this`buttonDisabled, this`buttonText, this`notices
      reads this`charts, this`pageTheme, this`company, this`banner, this`resizeListeners, Live()`option
    {
      Snapshot(requests, buttonDisabled, buttonText, notices, Page(), Options())
    }

    /**
     * A query that was turned away before sending anything: the button and
     * the request log are as they were, `raw`'s one error notice was added,
     * and the page and its charts are untouched.
     */
    ghost predicate Refused(before: Snapshot, raw: string)
      reads this`requests, this`buttonDisabled, this`buttonText, this`notices
      reads this`charts, this`pageTheme, this`company, this`banner, this`resizeListeners, this`inputValue
      reads before.options.Keys`option, before.options.Keys`disposals, Live()`option
    {
      && requests == before.requests && buttonDisabled == before.buttonDisabled && buttonText == before.buttonText
      && notices == before.notices + GuardNotices(raw)
      && Replaced(before.page, before.options, None)
    }

    /**
     * A query that sent `code` and got `reply`: one request went out while
     * the button was disabled and read as loading, the button is enabled
     * again with its old text, the reply's notices were added, and the page
     * was re-rendered exactly when the reply carried a payload.
     */
    ghost predicate Submitted(before: Snapshot, code: string, reply: Reply)
      reads this`requests, this`buttonDisabled, this`buttonText, this`notices
      reads this`charts, this`pageTheme, this`company, this`banner, this`resizeListeners, this`inputValue
      reads before.options.Keys`option, before.options.Keys`disposals, Live()`option
    {
      && requests == before.requests + [Request(code, true, LoadingText)]
      && !buttonDisabled && buttonText == before.buttonText
      && notices == before.notices + ReplyNotices(reply)
      && Replaced(before.page, before.options, Delivered(reply))
    }

    /** The list holds each chart once, and never a chart that was disposed. */
    ghost predicate Valid()
      reads this`charts, Live()`disposals
    {
      && (forall i, j :: 0 <= i < j < |charts| && charts[i] != null ==> charts[i] != charts[j])
      && (forall i :: 0 <= i < |charts| && charts[i] != null ==> charts[i].disposals == 0)
    }

    /** From index `start` on, the list holds one chart per entry of `plan`, with its kind and option. */
    ghost predicate Holds(start: nat, plan: seq<Built>)
      reads this`charts, Live()`option
    {
      && |charts| == start + |plan|
      && forall i :: 0 <= i < |plan| ==>
           charts[start + i] != null && charts[start + i].kind == plan[i].kind && charts[start + i].option == plan[i].option
    }

    /** `charts.push(...cs)`, for distinct new charts the list does not hold yet. */
    method Push(cs: seq<Chart>)
      requires Valid()
      requires forall i :: 0 <= i < |cs| ==> cs[i] !in charts && cs[i].disposals == 0
      requires forall i, j :: 0 <= i < j < |cs| ==> cs[i] != cs[j]
      modifies this`charts
      ensures Valid() && charts == old(charts) + cs
    {
      charts := charts + cs;
    }

    /** The page as loaded: no charts, nothing shown yet. */
    constructor (buttonText: string)
      ensures Valid() && charts == [] && inputValue == "" && this.buttonText == buttonText && !buttonDisabled
      ensures requests == [] && notices == [] && pageTheme.None? && company.None? && resizeListeners == 0
    {
      inputValue := "";
      charts := [];
      buttonDisabled := false;
      this.buttonText := buttonText;
      requests := [];
      notices := [];
      pageTheme := None;
      banner := "";
      company := None;
      resizeListeners := 0;
    }

    /** `showNotification(message, type)`; its timers are not modelled. */
    method ShowNotification(message: string, kind: NoticeKind)
      modifies this`notices
      ensures notices == old(notices) + [Notice(message, kind)]
    {
      notices := notices + [Notice(message, kind)];
    }

    /** `validateStockCode(code)`: the verdict of the pattern, with one error notice on rejection. */
    method ValidateStockCode(code: string) returns (ok: bool)
      modifies this`notices
      ensures ok == IsTicker(code)
      ensures notices == old(notices) + (if ok then [] else [Notice(FormatMessage, ErrorNotice)])
    {
      ok := IsTicker(code);
      if !ok {
        ShowNotification(FormatMessage, ErrorNotice);
      }
    }

    /**
     * `updateTheme(theme)`: repaints the page and, when charts are held,
     * rewrites each held chart's option with the theme's palette.
     */
    method UpdateTheme(theme: Theme)
      requires Valid()
      modifies this`pageTheme, Live()
      ensures Valid() && pageTheme == Some(theme)
      ensures forall i :: 0 <= i < |charts| && charts[i] != null ==>
        charts[i].option == Recolor(old(charts[i].option), theme.chartColors) && charts[i].disposals == old(charts[i].disposals)
    {
      pageTheme := Some(theme);
      if |charts| > 0 {
        ghost var held := Live();
        var i := 0;
        while i < |charts|
          modifies held
          invariant 0 <= i <= |charts|
          invariant forall j :: 0 <= j < |charts| && charts[j] != null ==> charts[j].disposals == old(charts[j].disposals)
          invariant forall j :: 0 <= j < i && charts[j] != null ==> charts[j].option == Recolor(old(charts[j].option), theme.chartColors)
          invariant forall j :: i <= j < |charts| && charts[j] != null ==> charts[j].option == old(charts[j].option)
        {
          var c := charts[i];
          if c != null {
            c.SetOption(Recolor(c.option, theme.chartColors));
          }
          i := i + 1;
        }
      }
    }

    /** `initChart(container, title)`: a line chart with its title and no data yet. */
    static method InitChart(kind: ChartKind, title: string) returns (c: Chart)
      ensures fresh(c) && c.kind == kind && c.option == LineOption(title, [], []) && c.disposals == 0
    {
      c := new Chart(kind);
      c.SetOption(LineOption(title, [], []));
    }

    /**
     * `initializeCharts(data)`: pushes the five charts onto the list; throws
     * (reported as `threw`) right after pushing the price chart when the
     * price section is missing.
     */
    method InitializeCharts(d: Payload) returns (threw: bool)
      requires Valid()
      modifies this`charts
      ensures Valid()
      ensures threw == d.priceData.None?
      ensures Holds(|old(charts)|, ChartPlan(d)) && charts[..|old(charts)|] == old(charts)
      ensures forall i :: |old(charts)| <= i < |charts| ==> fresh(charts[i])
    {
      var price := new Chart(PriceChart);
      Push([price]);
      if d.priceData.None? {
        return true;
      }
      price.SetOption(PriceOption(d.priceData.value));
      ghost var start := |charts|;
      PushLineCharts(d);
      assert charts[start - 1] == price;
      assert charts[..|old(charts)|] == old(charts) by {
        assert charts[..start][..|old(charts)|] == charts[..|old(charts)|];
      }
      return false;
    }

    /** The four line charts: `initChart` for each, one `push` of all four, then each one's data. */
    method PushLineCharts(d: Payload)
      requires Valid()
      modifies this`charts
      ensures Valid()
      ensures Holds(|old(charts)|, LinePlan(d)) && charts[..|old(charts)|] == old(charts)
      ensures forall i :: |old(charts)| <= i < |charts| ==> fresh(charts[i])
    {
      var pe := InitChart(PeChart, PeTitle);
      var pb := InitChart(PbChart, PbTitle);
      var dv := InitChart(DvChart, DvTitle);
      var mv := InitChart(MvChart, MvTitle);
      Push([pe, pb, dv, mv]);
      pe.SetOption(LineOption(PeTitle, d.dates, d.pe));
      pb.SetOption(LineOption(PbTitle, d.dates, d.pb));
      dv.SetOption(LineOption(DvTitle, d.dates, d.dvRatio));
      mv.SetOption(LineOption(MvTitle, d.dates, d.totalMv));
      assert charts == old(charts) + [pe, pb, dv, mv];
    }

    /** `charts.forEach(chart => chart.dispose())` followed by `charts = []`. */
    method DisposeCharts()
      requires Valid()
      modifies this`charts, Live()
      ensures Valid() && charts == []
      ensures forall c :: c in old(Live()) ==> c.disposals == 1 && c.option == old(c.option)
    {
      ghost var held := Live();
      var i := 0;
      while i < |charts|
        modifies held
        invariant 0 <= i <= |charts|
        invariant forall j :: 0 <= j < |charts| && charts[j] != null ==> charts[j].option == old(charts[j].option)
        invariant forall j :: 0 <= j < i && charts[j] != null ==> charts[j].disposals == 1
        invariant forall j :: i <= j < |charts| && charts[j] != null ==> charts[j].disposals == 0
      {
        if charts[i] != null {
          charts[i].Dispose();
        }
        i := i + 1;
      }
      charts := [];
    }

    /**
     * `updateCharts(data)`: disposes every held chart, empties the list,
     * then renders the payload. An exception on the way is caught and
     * reported once.
     */
    method UpdateCharts(d: Payload)
      requires Valid()
      modifies this`charts, this`notices, this`pageTheme, this`banner, this`company, this`resizeListeners, Live()
      ensures Valid()
      ensures forall c :: c in old(Live()) ==> c.disposals == 1 && c.option == old(c.option)
      ensures Holds(0, RenderPlan(d)) && forall i :: 0 <= i < |charts| ==> fresh(charts[i])
      ensures notices == old(notices) + (if RenderFails(d) then [Notice(RenderFailedMessage, ErrorNotice)] else [])
      ensures pageTheme == (if d.stockInfo.Some? then Some(d.stockInfo.value.theme) else old(pageTheme))
      ensures company == (if d.stockInfo.Some? then d.stockInfo else old(company))
      ensures banner == (if d.stockInfo.Some? then d.stockInfo.value.name + " (" + inputValue + ")" else old(banner))
      ensures resizeListeners == old(resizeListeners) + (if RenderFails(d) then 0 else 1)
    {
      DisposeCharts();
      Render(d);
    }

    /**
     * The rest of the `try` block of `updateCharts`, on an empty list: the
     * theme (which, with no chart held, recolours nothing), the info panels,
     * the new charts and a resize listener; the `catch` reports a failure.
     */
    method Render(d: Payload)
      requires Valid() && charts == []
      modifies this`charts, this`notices, this`pageTheme, this`banner, this`company, this`resizeListeners
      ensures Valid()
      ensures Holds(0, RenderPlan(d)) && forall i :: 0 <= i < |charts| ==> fresh(charts[i])
      ensures notices == old(notices) + (if RenderFails(d) then [Notice(RenderFailedMessage, ErrorNotice)] else [])
      ensures pageTheme == (if d.stockInfo.Some? then Some(d.stockInfo.value.theme) else old(pageTheme))
      ensures company == (if d.stockInfo.Some? then d.stockInfo else old(company))
      ensures banner == (if d.stockInfo.Some? then d.stockInfo.value.name + " (" + inputValue + ")" else old(banner))
      ensures resizeListeners == old(resizeListeners) + (if RenderFails(d) then 0 else 1)
    {
      if d.stockInfo.None? {
        ShowNotification(RenderFailedMessage, ErrorNotice);
        return;
      }
      var info := d.stockInfo.value;
      UpdateTheme(info.theme);
      banner := info.name + " (" + inputValue + ")";
      company := Some(info);
      assert RenderPlan(d) == ChartPlan(d);
      var threw := InitializeCharts(d);
      if threw {
        ShowNotification(RenderFailedMessage, ErrorNotice);
        return;
      }
      resizeListeners := resizeListeners + 1;
    }

    /**
     * The start of `queryStock`: trims and upper-cases the input, and reports
     * a blank or malformed code; yields the code to send, if any.
     */
    method ReadCode() returns (sent: Option<string>)
      modifies this`notices
      ensures sent == SentCode(inputValue)
      ensures sent.None? ==> notices == old(notices) + GuardNotices(inputValue)
      ensures sent.Some? ==> notices == old(notices)
    {
      var code := ToUpperCase(Trim(inputValue));
      if code == "" {
        ShowNotification(EnterCodeMessage, ErrorNotice);
        return None;
      }
      var ok := ValidateStockCode(code);
      if !ok {
        return None;
      }
      sent := Some(code);
    }

    /**
     * The `try` body of `queryStock` after the request went out: a thrown
     * request reports the network error, `success: false` reports the
     * server's message, a success renders the payload and reports success.
     */
    method HandleReply(reply: Reply)
      requires Valid()
      modifies this`charts, this`notices, this`pageTheme, this`banner, this`company, this`resizeListeners, Live()
      ensures Valid()
      ensures notices == old(notices) + ReplyNotices(reply)
      ensures Replaced(old(Page()), old(Options()), Delivered(reply))
      ensures forall i :: 0 <= i < |charts| && charts[i] !in old(charts) ==> fresh(charts[i])
    {
      match reply {
        case Thrown =>
          ShowNotification(NetworkMessage, ErrorNotice);
        case Received(Failed(e)) =>
          ShowNotification(e, ErrorNotice);
        case Received(Ok(d)) =>
          UpdateCharts(d);
          ShowNotification(LoadedMessage, SuccessNotice);
      }
    }

    /**
     * The part of `queryStock` that runs for a well-formed code: the button
     * is disabled and relabelled while the request is out, the reply is
     * handled, and the `finally` block restores the button.
     */
    method Submit(code: string, reply: Reply)
      requires Valid()
      modifies this`charts, this`notices, this`pageTheme, this`banner, this`company, this`resizeListeners
      modifies this`buttonDisabled, this`buttonText, this`requests, Live()
      ensures Valid() && Submitted(old(Snap()), code, reply)
      ensures forall i :: 0 <= i < |charts| && charts[i] !in old(charts) ==> fresh(charts[i])
    {
      ghost var before := Snap();
      var originalText := buttonText;
      buttonDisabled := true;
      buttonText := LoadingText;
      requests := requests + [Request(code, buttonDisabled, buttonText)];
      HandleReply(reply);
      buttonDisabled := false;
      buttonText := originalText;
    }

    /**
     * `queryStock()`: normalises the typed code, rejects a blank or malformed
     * one without a request, otherwise disables the button, sends the
     * request, dispatches on the reply, and restores the button.
     */
    method QueryStock(reply: Reply)
      requires Valid()
      modifies this`charts, this`notices, this`pageTheme, this`banner, this`company, this`resizeListeners
      modifies this`buttonDisabled, this`buttonText, this`requests, Live()
      ensures Valid()
      ensures match SentCode(old(inputValue))
        case None => Refused(old(Snap()), old(inputValue))
        case Some(code) => Submitted(old(Snap()), code, reply)
      ensures forall i :: 0 <= i < |charts| && charts[i] !in old(charts) ==> fresh(charts[i])
    {
      ghost var before := Snap();
      var sent := ReadCode();
      if sent.None? {
        return;
      }
      assert Snap() == before;
      Submit(sent.value, reply);
    }
  }

  /**
   * A query for a well-formed code answered with a success paints the
   * stock's theme, shows its company panel and names it in the banner,
   * next to the code as typed.
   */
  method QueryShowsStock(dash: Dashboard, d: Payload)
    requires dash.Valid() && SentCode(dash.inputValue).Some? && d.stockInfo.Some?
    modifies dash`charts, dash`notices, dash`pageTheme, dash`banner, dash`company, dash`resizeListeners
    modifies dash`buttonDisabled, dash`buttonText, dash`requests, dash.Live()
    ensures dash.pageTheme == Some(d.stockInfo.value.theme) && dash.company == d.stockInfo
    ensures dash.banner == d.stockInfo.value.name + " (" + dash.inputValue + ")"
    ensures !dash.buttonDisabled && dash.notices != [] && dash.notices[|dash.notices| - 1] == Notice(LoadedMessage, SuccessNotice)
  {
    dash.QueryStock(Received(Ok(d)));
  }

  /**
   * Two successful renders in a row: every chart of the first is disposed
   * exactly once, and only the second render's five charts stay held.
   */
  method RenderTwice(dash: Dashboard, d1: Payload, d2: Payload) returns (first: seq<Chart?>)
    requires dash.Valid() && !RenderFails(d1) && !RenderFails(d2)
    modifies dash`charts, dash`notices, dash`pageTheme, dash`banner, dash`company, dash`resizeListeners, dash.Live()
    ensures dash.Valid()
    ensures |first| == 5 && |dash.charts| == 5
    ensures forall i :: 0 <= i < 5 ==> first[i] != null && first[i].disposals == 1 && first[i] !in dash.charts
    ensures forall c :: c in dash.Live() ==> c.disposals == 0
  {
    RenderPlanShape(d1);
    RenderPlanShape(d2);
    dash.UpdateCharts(d1);
    first := dash.charts;
    assert forall i :: 0 <= i < 5 ==> first[i] in dash.Live();
    dash.UpdateCharts(d2);
  }
}
