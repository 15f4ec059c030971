/**
 * The `/query_stock` handler of app.py: guard checks in a fixed order, the
 * industry theme lookup, default company texts, zero-filled metrics and
 * date-sorted columns. The Tushare calls are not made here: what each call
 * answers for the requested code (rows, or the exception it raises) is an
 * input, so the handler is a function from inputs to the JSON reply.
 */
module Server {
  import opened Common
  import opened DateOrder
  import opened StockJson

  const EmptyCodeError := "股票代码不能为空"
  const NoInfoError := "未找到该股票信息"
  const NoPriceError := "未找到股价数据"
  const FailurePrefix := "查询失败："
  const InternalError := "服务器内部错误，请稍后重试"
  const UnknownIndustry := "未知行业"
  const UnknownText := "未知"
  const NoIntroduction := "暂无简介"
  const NoInformation := "暂无信息"

  /** `INDUSTRY_THEMES`: nine industries and the `'default'` entry. */
  const Themes: map<string, Theme> := map[
    "银行" := Theme("bg-gradient-to-br from-blue-900 via-blue-800 to-indigo-900", "blue", "bank.svg",
                    ["#3B82F6", "#60A5FA", "#93C5FD"], "banking-pattern"),
    "证券" := Theme("bg-gradient-to-br from-purple-900 via-purple-800 to-fuchsia-900", "purple", "securities.svg",
                    ["#9333EA", "#A855F7", "#C084FC"], "securities-pattern"),
    "房地产" := Theme("bg-gradient-to-br from-emerald-900 via-emerald-800 to-teal-900", "emerald", "real-estate.svg",
                      ["#059669", "#10B981", "#34D399"], "realestate-pattern"),
    "医药生物" := Theme("bg-gradient-to-br from-rose-900 via-red-800 to-pink-900", "rose", "medical.svg",
                        ["#E11D48", "#F43F5E", "#FB7185"], "medical-pattern"),
    "计算机" := Theme("bg-gradient-to-br from-sky-900 via-cyan-800 to-blue-900", "sky", "tech.svg",
                      ["#0EA5E9", "#38BDF8", "#7DD3FC"], "tech-pattern"),
    "新能源" := Theme("bg-gradient-to-br from-lime-900 via-green-800 to-emerald-900", "lime", "energy.svg",
                      ["#84CC16", "#A3E635", "#BEF264"], "energy-pattern"),
    "消费" := Theme("bg-gradient-to-br from-amber-900 via-yellow-800 to-orange-900", "amber", "consumer.svg",
                    ["#F59E0B", "#FBBF24", "#FCD34D"], "consumer-pattern"),
    "电子" := Theme("bg-gradient-to-br from-indigo-900 via-violet-800 to-purple-900", "indigo", "tech.svg",
                    ["#6366F1", "#818CF8", "#A5B4FC"], "electronics-pattern"),
    "汽车" := Theme("bg-gradient-to-br from-zinc-900 via-slate-800 to-gray-900", "zinc", "consumer.svg",
                    ["#71717A", "#A1A1AA", "#D4D4D8"], "auto-pattern"),
    "default" := Theme("bg-gradient-to-br from-slate-900 via-gray-800 to-zinc-900", "slate", "default.svg",
                       ["#64748B", "#94A3B8", "#CBD5E1"], "default-pattern")
  ]

  /** Every theme, the fallback included, has a palette of exactly three colours. */
  lemma ThemePalettesHaveThreeColours()
    ensures "default" in Themes
    ensures forall k :: k in Themes ==> |Themes[k].chartColors| == 3
  {
  }

  // ---- What Tushare answers -------------------------------------------------

  /** One row of `stock_basic` (name, industry, market, list_date, fullname); industry may be null. */
  datatype BasicInfoRow = BasicInfoRow(name: string, industry: Option<string>, market: string, listDate: string, fullname: string)

  /** The `stock_basic` frame: its rows, and whether the optional columns came back. */
  datatype BasicInfo = BasicInfo(rows: seq<BasicInfoRow>, hasListDate: bool, hasFullname: bool)

  /** One row of `stock_company`. */
  datatype CompanyRow = CompanyRow(introduction: string, mainBusiness: string, businessScope: string, chairman: string)

  /** One row of `daily`. */
  datatype PriceRow = PriceRow(tradeDate: string, open: real, high: real, low: real, close: real, vol: real)

  /** One row of `daily_basic`; each metric may be missing (NaN). */
  datatype DailyBasicRow = DailyBasicRow(tradeDate: string, pe: Option<real>, pb: Option<real>, dvRatio: Option<real>, totalMv: Option<real>)

  /** A call into Tushare: the frame it returns, or the message of the exception it raises. */
  datatype Call<T> = Returned(value: T) | Raised(message: string)

  /** The answers of the four Tushare calls for the requested code and the one-year window. */
  datatype Tushare = Tushare(
    stockBasic: Call<BasicInfo>,
    stockCompany: Call<seq<CompanyRow>>,
    daily: Call<seq<PriceRow>>,
    dailyBasic: Call<seq<DailyBasicRow>>)

  // ---- Shaping the reply ---------------------------------------------------

  /** `not stock_code` is false: the code is present and non-empty. */
  predicate HasCode(code: Option<string>)
  {
    code.Some? && code.value != ""
  }

  /** `INDUSTRY_THEMES.get(industry, INDUSTRY_THEMES['default'])`, on the raw industry. */
  function ThemeFor(industry: Option<string>): (t: Theme)
    ensures |t.chartColors| == 3
    ensures industry.Some? && industry.value in Themes ==> t == Themes[industry.value]
    ensures industry.None? || industry.value !in Themes ==> t == Themes["default"]
  {
    ThemePalettesHaveThreeColours();
    if industry.Some? && industry.value in Themes then Themes[industry.value] else Themes["default"]
  }

  /** `industry or '未知行业'`: a null or empty industry is shown as unknown. */
  function IndustryLabel(industry: Option<string>): string
  {
    if industry.Some? && industry.value != "" then industry.value else UnknownIndustry
  }

  /** `stock_details`: first basic row, first company row or fixed defaults, and the theme. */
  function Details(info: BasicInfo, company: seq<CompanyRow>): StockDetails
    requires info.rows != []
  {
    var row := info.rows[0];
    StockDetails(
      row.name,
      IndustryLabel(row.industry),
      row.market,
      if info.hasListDate then row.listDate else UnknownText,
      if info.hasFullname then row.fullname else row.name,
      if company != [] then company[0].chairman else UnknownText,
      if company != [] then company[0].introduction else NoIntroduction,
      if company != [] then company[0].mainBusiness else NoInformation,
      if company != [] then company[0].businessScope else NoInformation,
      ThemeFor(row.industry))
  }

  /** `fillna(0)` on one value. */
  function FillZero(x: Option<real>): real
  {
    if x.Some? then x.value else 0.0
  }

  function PriceDate(r: PriceRow): string { r.tradeDate }
  function PriceOpen(r: PriceRow): real { r.open }
  function PriceHigh(r: PriceRow): real { r.high }
  function PriceLow(r: PriceRow): real { r.low }
  function PriceClose(r: PriceRow): real { r.close }
  function PriceVol(r: PriceRow): real { r.vol }

  function BasicDate(r: DailyBasicRow): string { r.tradeDate }
  function BasicPe(r: DailyBasicRow): real { FillZero(r.pe) }
  function BasicPb(r: DailyBasicRow): real { FillZero(r.pb) }
  function BasicDv(r: DailyBasicRow): real { FillZero(r.dvRatio) }
  /** Total market value, zero-filled and scaled from ten-thousands to hundreds of millions of yuan. */
  function BasicMv(r: DailyBasicRow): real { FillZero(r.totalMv) / 10000.0 }

  /** `price_data`: each column of the (sorted) `daily` frame as a list. */
  function PriceColumns(rows: seq<PriceRow>): (p: PriceData)
    ensures PriceAligned(p)
  {
    PriceData(Map(PriceDate, rows), Map(PriceOpen, rows), Map(PriceHigh, rows),
              Map(PriceLow, rows), Map(PriceClose, rows), Map(PriceVol, rows))
  }

  /** The reply's `data` once every guard has passed. */
  function Assemble(info: BasicInfo, company: seq<CompanyRow>, prices: seq<PriceRow>, basics: seq<DailyBasicRow>): (d: StockData)
    requires info.rows != []
    ensures MetricsAligned(d)
  {
    var sortedBasics := SortBy(basics, BasicDate);
    var sortedPrices := SortBy(prices, PriceDate);
    StockData(
      Details(info, company),
      Map(BasicDate, sortedBasics), Map(BasicPe, sortedBasics), Map(BasicPb, sortedBasics),
      Map(BasicDv, sortedBasics), Map(BasicMv, sortedBasics),
      PriceColumns(sortedPrices))
  }

  /**
   * `query_stock` once the request's `stock_code` has been read. Each guard
   * answers before any later call is made; an exception from a call that is
   * reached becomes `查询失败：` followed by its message.
   */
  function QueryStock(code: Option<string>, api: Tushare): (r: Response)
    ensures r == Failure(EmptyCodeError) <==> !HasCode(code)
    ensures r == Failure(NoInfoError) <==>
      HasCode(code) && api.stockBasic.Returned? && api.stockBasic.value.rows == []
    ensures r == Failure(NoPriceError) <==>
      HasCode(code) && api.stockBasic.Returned? && api.stockBasic.value.rows != []
      && api.stockCompany.Returned? && api.daily.Returned? && api.daily.value == []
    ensures r.Success? <==>
      HasCode(code) && api.stockBasic.Returned? && api.stockBasic.value.rows != []
      && api.stockCompany.Returned? && api.daily.Returned? && api.daily.value != [] && api.dailyBasic.Returned?
    ensures HasCode(code) && api.stockBasic.Raised? ==> r == Failure(FailurePrefix + api.stockBasic.message)
    ensures HasCode(code) && api.stockBasic.Returned? && api.stockBasic.value.rows != []
            && api.stockCompany.Raised?
            ==> r == Failure(FailurePrefix + api.stockCompany.message)
    ensures HasCode(code) && api.stockBasic.Returned? && api.stockBasic.value.rows != []
            && api.stockCompany.Returned? && api.daily.Raised?
            ==> r == Failure(FailurePrefix + api.daily.message)
    ensures HasCode(code) && api.stockBasic.Returned? && api.stockBasic.value.rows != []
            && api.stockCompany.Returned? && api.daily.Returned? && api.daily.value != []
            && api.dailyBasic.Raised?
            ==> r == Failure(FailurePrefix + api.dailyBasic.message)
  {
    if !HasCode(code) then Failure(EmptyCodeError)
    else match api.stockBasic
      case Raised(e) => Fail(e)
      case Returned(info) =>
        if info.rows == [] then Failure(NoInfoError)
        else match api.stockCompany
          case Raised(e) => Fail(e)
          case Returned(company) =>
            match api.daily
            case Raised(e) => Fail(e)
            case Returned(prices) =>
              if prices == [] then Failure(NoPriceError)
              else match api.dailyBasic
                case Raised(e) => Fail(e)
                case Returned(basics) => Success(Assemble(info, company, prices, basics))
  }

  /** The reply for an exception caught by the handler. */
  function Fail(message: string): (r: Response)
    ensures r == Failure(FailurePrefix + message)
    ensures r.error != EmptyCodeError && r.error != NoInfoError && r.error != NoPriceError
  {
    var text := FailurePrefix + message;
    assert text[0] == '查';
    Failure(text)
  }

  // ---- What a successful reply guarantees ----------------------------------

  /** Zips `price_data` back into rows, index by index. */
  function PriceRowsOf(p: PriceData): (rows: seq<PriceRow>)
    requires PriceAligned(p)
    ensures |rows| == |p.dates|
  {
    seq(|p.dates|, i requires 0 <= i < |p.dates| => PriceRow(p.dates[i], p.open[i], p.high[i], p.low[i], p.close[i], p.vol[i]))
  }

  /** A zero-filled, scaled metric row as the reply lists it. */
  datatype MetricRow = MetricRow(tradeDate: string, pe: real, pb: real, dvRatio: real, totalMv: real)

  function Filled(r: DailyBasicRow): MetricRow
  {
    MetricRow(r.tradeDate, BasicPe(r), BasicPb(r), BasicDv(r), BasicMv(r))
  }

  /** Zips the reply's metric lists back into rows, index by index. */
  function MetricRowsOf(d: StockData): (rows: seq<MetricRow>)
    requires MetricsAligned(d)
    ensures |rows| == |d.dates|
  {
    seq(|d.dates|, i requires 0 <= i < |d.dates| => MetricRow(d.dates[i], d.pe[i], d.pb[i], d.dvRatio[i], d.totalMv[i]))
  }

  /**
   * The lists of a successful reply are index-aligned, in non-decreasing
   * date order, and zip back into exactly the rows Tushare returned (price
   * rows as they were, metric rows with missing values filled with 0).
   */
  lemma SuccessDataIsSortedAndAligned(code: Option<string>, api: Tushare)
    requires QueryStock(code, api).Success?
    ensures var d := QueryStock(code, api).data;
      && PriceAligned(d.priceData) && NonDecreasing(d.priceData.dates)
      && multiset(PriceRowsOf(d.priceData)) == multiset(api.daily.value)
      && MetricsAligned(d) && NonDecreasing(d.dates)
      && multiset(MetricRowsOf(d)) == multiset(Map(Filled, api.dailyBasic.value))
  {
    var d := QueryStock(code, api).data;
    var prices := SortBy(api.daily.value, PriceDate);
    var basics := SortBy(api.dailyBasic.value, BasicDate);
    SortedKeyColumn(prices, PriceDate);
    SortedKeyColumn(basics, BasicDate);
    assert PriceRowsOf(d.priceData) == prices;
    assert MetricRowsOf(d) == Map(Filled, basics);
    SortKeepsColumn(api.dailyBasic.value, BasicDate, Filled);
  }

  /** Company texts come from the first `stock_company` row, or are the fixed defaults when it is empty. */
  lemma CompanyDefaults(code: Option<string>, api: Tushare)
    requires QueryStock(code, api).Success?
    ensures var info := QueryStock(code, api).data.stockInfo;
      var company := api.stockCompany.value;
      && (company == [] ==>
            info.chairman == "未知" && info.introduction == "暂无简介"
            && info.mainBusiness == "暂无信息" && info.businessScope == "暂无信息")
      && (company != [] ==>
            info.chairman == company[0].chairman && info.introduction == company[0].introduction
            && info.mainBusiness == company[0].mainBusiness && info.businessScope == company[0].businessScope)
  {
  }

  /**
   * The theme is looked up on the raw industry, before the unknown-industry
   * label is substituted: a null or empty industry gets the default theme and
   * is shown as `未知行业`; a listed industry gets its own theme.
   */
  lemma ThemeOfReply(code: Option<string>, api: Tushare)
    requires QueryStock(code, api).Success?
    ensures var info := QueryStock(code, api).data.stockInfo;
      var industry := api.stockBasic.value.rows[0].industry;
      && |info.theme.chartColors| == 3
      && (industry.None? || industry.value == "" ==>
            info.theme == Themes["default"] && info.industry == "未知行业")
      && (industry.Some? && industry.value in Themes ==>
            info.theme == Themes[industry.value] && info.industry == industry.value)
      && (industry.Some? && industry.value != "" ==> info.industry == industry.value)
      && (industry.Some? && industry.value !in Themes ==> info.theme == Themes["default"])
  {
    SuccessDetails(code, api);
    DetailsTheme(api.stockBasic.value, api.stockCompany.value);
  }

  /** A success reply's `stock_info` is the details record of the first basic-info row and the company rows. */
  lemma SuccessDetails(code: Option<string>, api: Tushare)
    requires QueryStock(code, api).Success?
    ensures api.stockBasic.Returned? && api.stockBasic.value.rows != [] && api.stockCompany.Returned?
    ensures QueryStock(code, api).data.stockInfo == Details(api.stockBasic.value, api.stockCompany.value)
  {
    var basic, company := api.stockBasic.value, api.stockCompany.value;
    assert QueryStock(code, api) == Success(Assemble(basic, company, api.daily.value, api.dailyBasic.value));
  }

  /**
   * The fields `stock_details` copies from the first basic-info row: name
   * and market as they are, the listing date or `未知` when that column is
   * missing, the full name or else the short name.
   */
  lemma DetailsFields(basic: BasicInfo, company: seq<CompanyRow>)
    requires basic.rows != []
    ensures var info := Details(basic, company);
      var row := basic.rows[0];
      && info.name == row.name && info.market == row.market
      && info.listDate == (if basic.hasListDate then row.listDate else "未知")
      && info.fullname == (if basic.hasFullname then row.fullname else row.name)
  {
  }

  /**
   * How the first basic-info row's industry decides the label and the
   * palette: any non-empty industry is shown as itself, a null or empty one
   * as `未知行业`; only a listed one gets its own theme.
   */
  lemma DetailsTheme(basic: BasicInfo, company: seq<CompanyRow>)
    requires basic.rows != []
    ensures var info := Details(basic, company);
      var industry := basic.rows[0].industry;
      && |info.theme.chartColors| == 3
      && (industry.None? || industry.value == "" ==>
            info.theme == Themes["default"] && info.industry == "未知行业")
      && (industry.Some? && industry.value != "" ==> info.industry == industry.value)
      && (industry.Some? && industry.value in Themes ==> info.theme == Themes[industry.value])
      && (industry.Some? && industry.value !in Themes ==> info.theme == Themes["default"])
  {
    var industry := basic.rows[0].industry;
    if industry.Some? && industry.value == "" {
      assert "" !in Themes;
    }
    if industry.Some? && industry.value in Themes {
      assert industry.value != "";
    }
  }


  // ---- Reading the request body ---------------------------------------------

  /**
   * The POST body as `request.json.get('stock_code')` sees it: a JSON object
   * (whose `stock_code` may be absent), or a body on which that expression
   * raises (no JSON body, or JSON that is not an object), with the message.
   */
  datatype RequestBody = JsonObject(stockCode: Option<string>) | Unreadable(message: string)

  /** The HTTP status and JSON body sent back. */
  datatype HttpReply = HttpReply(status: int, body: Response)

  /**
   * The handler as written. When reading `stock_code` raises, the `except`
   * clause's log line reads `stock_code` before it was ever assigned; that
   * raises again, and the application-wide error handler answers 500 with
   * its generic message instead of the handler's `查询失败：` reply.
   */
  function HandleRequestAsWritten(body: RequestBody, api: Tushare): (reply: HttpReply)
    ensures reply.status == 200 <==> body.JsonObject?
    ensures body.JsonObject? ==> reply.body == QueryStock(body.stockCode, api)
    ensures body.Unreadable? ==> reply.body == Failure(InternalError)
  {
    match body
    case JsonObject(code) => HttpReply(200, QueryStock(code, api))
    case Unreadable(_) => HttpReply(500, Failure(InternalError))
  }

  /** A JSON array body makes the handler as written lose the exception's message. */
  lemma ArrayBodyLosesMessage(api: Tushare)
    ensures var body := Unreadable("'list' object has no attribute 'get'");
      HandleRequestAsWritten(body, api) != HandleRequest(body, api)
  {
    var m := "'list' object has no attribute 'get'";
    assert FailurePrefix + m != InternalError by {
      assert (FailurePrefix + m)[0] == '查' && InternalError[0] == '服';
    }
  }

  /**
   * The handler as its `try`/`except` intends: every exception raised inside
   * it, reading the body included, becomes a 200 reply `查询失败：<message>`.
   */
  function HandleRequest(body: RequestBody, api: Tushare): (reply: HttpReply)
    ensures reply.status == 200
    ensures body.Unreadable? ==> reply.body == Failure(FailurePrefix + body.message)
    ensures body.JsonObject? ==> reply.body == QueryStock(body.stockCode, api)
  {
    match body
    case JsonObject(code) => HttpReply(200, QueryStock(code, api))
    case Unreadable(e) => HttpReply(200, Fail(e))
  }

  /** The two handlers answer alike whenever the body is a JSON object, as every request the dashboard sends is. */
  lemma HandlersAgreeOnObjects(body: RequestBody, api: Tushare)
    ensures body.JsonObject? <==> HandleRequestAsWritten(body, api) == HandleRequest(body, api)
  {
    if body.Unreadable? {
      HandleRequestNeverInternalError(body, api);
    }
  }

  /** The intended handler never answers with the generic internal-error reply. */
  lemma HandleRequestNeverInternalError(body: RequestBody, api: Tushare)
    ensures HandleRequest(body, api).body != Failure(InternalError)
  {
    var r := HandleRequest(body, api).body;
    if r.Failure? {
      assert InternalError[0] == '服';
      if body.Unreadable? {
        assert r.error[0] == '查';
      }
    }
  }
}
