# Stock dashboard: query endpoint and chart controller

This project models the two halves of a small A-share stock dashboard.

- **The Flask endpoint** `query_stock` (app.py) takes a ticker, asks
  Tushare for the company's basic information, company profile, one year of
  daily prices and daily valuation metrics, and answers either
  `{success: true, data}` or `{success: false, error}`.
  - It checks its guards in a fixed order.
  - It picks an industry colour theme from a fixed table.
  - It fills in default company texts and zero-fills missing metrics.
  - It sorts both frames by trade date.
  - Any exception becomes a `查询失败：` reply.
- **The browser controller** (static/js/main.js):
  - `queryStock` trims, upper-cases and validates the typed code against
    `^[0-9]{6}\.(SH|SZ)$`.
  - It disables the button while the request is out, dispatches on the
    reply and restores the button.
  - `updateCharts` disposes every held ECharts instance, empties the
    global `charts` list, repaints the theme and the company panel, and
    pushes five new charts (price, PE, PB, dividend yield, market value).
  - `updateTheme` rewrites each held chart's option with the theme's
    palette and white text.

How the source is modelled:

- The server is a pure function from its inputs to the JSON reply. The
  inputs are the request body and what each Tushare call answers (a frame,
  or the message of the exception it raises).
- The controller is a class `Dashboard` whose fields are the page state the
  source mutates: the `charts` list, the button, the request log, the
  notifications, the theme, the company panel and the resize listeners.
- Each ECharts instance is a `Chart` object with its option and a dispose
  counter.
- A chart option is a value. `getOption` hands out a copy, and the
  dashboard edits it and passes it back, so the theme rewrite is a function
  from option to option (`ChartOptions.Recolor`).
- `Integration` joins the two halves: what the page sends, what the
  handler answers, and what the page then shows.

One behaviour of the code is easy to misread, and the model follows the
code. When a success reply carries a payload that `updateCharts`
cannot render, the page still shows the success notice after the
render-failure notice, because `updateCharts` catches its own exception
(static/js/main.js:118-120, 172-175).

## Model

| member | source | states |
|---|---|---|
| JsText.Trim | static/js/main.js:92 | `trim()`: leading whitespace, then trailing whitespace, removed. TrimSpec states what it returns |
| JsText.TrimStartSpec | static/js/main.js:92 | Dropping leading whitespace keeps the suffix after a whitespace-only prefix; what is left is empty or starts with a non-blank |
| JsText.TrimEndSpec | static/js/main.js:92 | Dropping trailing whitespace keeps the prefix before a whitespace-only suffix; what is left is empty or ends with a non-blank |
| JsText.TrimSpec | static/js/main.js:92 | `trim()` returns a slice of its input with only ECMAScript whitespace outside it, and neither end of the result is whitespace |
| JsText.TrimEmptyIff | static/js/main.js:92-93 | The trimmed code is empty exactly when the input is all whitespace |
| JsText.TrimPadded | static/js/main.js:92 | Whitespace padding around a core that starts and ends with a non-blank is removed exactly |
| JsText.ToUpperCase | static/js/main.js:92 | The model of `toUpperCase()` keeps the length and maps every character by `UpperChar`. JavaScript's own `toUpperCase()` can lengthen a string (`ß` becomes `SS`); see "Left out" |
| JsText.UpperCaseIdempotent | static/js/main.js:92 | Upper-casing twice equals upper-casing once, and no ASCII lower-case letter remains |
| Ticker.IsTicker | static/js/main.js:82-83 | The pattern `^[0-9]{6}\.(SH\|SZ)$`, position by position. ComposedIsTicker and TickerDecomposes together state that it accepts exactly six digits, a dot and `SH` or `SZ` |
| Ticker.ComposedIsTicker | static/js/main.js:82-83 | Six ASCII digits, a dot and `SH` or `SZ` always pass the pattern |
| Ticker.TickerDecomposes | static/js/main.js:82-83 | Every code that passes the pattern is six digits, a dot and an exchange suffix (the converse of ComposedIsTicker) |
| Ticker.Normalize | static/js/main.js:92-93 | The normalised code is empty exactly when the typed text is all whitespace |
| Ticker.NormalizeAcceptsPaddedCode | static/js/main.js:92-100 | A code surrounded by whitespace, with a suffix that upper-cases to `SH`/`SZ`, normalises to the canonical code, and the validator accepts it |
| Ticker.ValidatorExamples | static/js/main.js:81-88 | `600000.SH` and `000001.SZ`, the two codes the format message shows, pass. Near misses fail: five digits, another exchange, a lower-case suffix, untrimmed whitespace |
| Ticker.NormalizeExample | static/js/main.js:92-100 | `" 600000.sh "` is checked as `600000.SH` and passes |
| Dashboard.Dashboard.ValidateStockCode | static/js/main.js:81-88 | Returns true exactly for codes the pattern accepts; otherwise adds exactly one format-error notice and changes nothing else |
| Dashboard.SentCode | static/js/main.js:92-100 | A code is sent exactly when the trimmed, upper-cased input passes the pattern; what is sent is that normalised, non-empty code |
| Dashboard.Dashboard.ReadCode | static/js/main.js:92-100 | Yields the code to send, or adds the one notice for a blank input (`请输入股票代码`) or a malformed one (the format message) and yields nothing |
| Dashboard.QueryNoticeOutcomes | static/js/main.js:92-126 | Notices per outcome: blank input gets the enter-code error and sends nothing; malformed input gets the format error; a thrown request gets the network error; `success: false` shows `error` verbatim; success ends with the success notice, and any error before it means the payload could not be rendered |
| Dashboard.Delivered | static/js/main.js:117-119 | Only a `success: true` reply hands its `data` to `updateCharts`, and it always does |
| Dashboard.Rendered | static/js/main.js:92-119 | A payload is rendered only for a code that passed the checks and whose reply was a success |
| Dashboard.Dashboard.HandleReply | static/js/main.js:117-126 | Adds exactly the reply's notices. A thrown request or a `success: false` reply leaves the page and every held chart untouched. A success disposes each held chart once and leaves the list holding the payload's charts. When the payload has stock info, the theme, company panel and banner show that stock |
| Dashboard.Dashboard.Submit | static/js/main.js:103-131 | Logs one request sent while the button was disabled and showed the loading text. The button ends enabled with its original text on every outcome. Notices and page change as HandleReply states |
| Dashboard.Dashboard.QueryStock | static/js/main.js:91-132 | A code rejected before sending leaves the request log, the button, the page and every chart as they were and adds one error notice. A sent code behaves as Submit states. The chart list stays free of duplicates and of disposed charts |
| Dashboard.Dashboard.ShowNotification | static/js/main.js:53-64 | Appends exactly one notice with the given message and kind |
| Dashboard.Chart.constructor | static/js/main.js:309 | A fresh chart has an empty option and has not been disposed |
| Dashboard.Chart.SetOption | static/js/main.js:365 | The chart's option becomes the one given |
| Dashboard.Chart.Dispose | static/js/main.js:140 | Counts one more disposal |
| Dashboard.Dashboard.constructor | static/js/main.js:2 | The page starts with an empty chart list, no requests, no notices and an enabled button |
| Dashboard.Dashboard.InitChart | static/js/main.js:4-50 | `initChart` gives a fresh, undisposed chart whose option is a titled line chart with no data yet |
| Dashboard.Dashboard.Push | static/js/main.js:310 | Appends the new charts to the list and keeps it free of duplicates and of disposed charts |
| Dashboard.Dashboard.DisposeCharts | static/js/main.js:138-143 | Every chart held before is disposed exactly once with its option unchanged, and the list ends empty |
| Dashboard.Dashboard.UpdateTheme | static/js/main.js:210-294 | Sets the page theme. Every held chart's option becomes the rewrite of its old option with the theme's palette, and no chart is disposed |
| Dashboard.Dashboard.InitializeCharts | static/js/main.js:307-395 | Appends the price chart, then (unless the price section is missing, which throws after the first push) the PE, PB, dividend-yield and market-value charts with their series. Earlier entries are kept and all new charts are fresh |
| Dashboard.Dashboard.PushLineCharts | static/js/main.js:368-394 | Appends four fresh line charts in the order PE, PB, dividend yield, market value, each over the metric dates with its own metric series |
| Dashboard.Dashboard.Render | static/js/main.js:143-175 | On an empty list: the theme repaint recolours no chart, so all charts keep their built options. The list holds the render plan. The banner and the company panel show the stock. A missing section adds one render-failure notice and no resize listener; otherwise one listener is added |
| Dashboard.Dashboard.UpdateCharts | static/js/main.js:135-176 | Disposes every previously held chart exactly once, then renders as Render states |
| Dashboard.RenderPlanShape | static/js/main.js:307-395 | A complete payload leaves exactly five charts in the order price, PE, PB, dividend yield, market value, none recoloured, carrying the payload's candles, volume bars and metric series. Without stock info no chart is left; without price data only a blank price chart is left |
| Dashboard.QueryShowsStock | static/js/main.js:118-158 | A successful query for a well-formed code paints the stock's theme, shows its company panel, names it in the banner next to the code as typed, re-enables the button, and ends with the success notice |
| Dashboard.RenderTwice | static/js/main.js:135-176 | Across two successful renders, each of the first render's five charts is disposed exactly once and dropped, and only the second render's five undisposed charts remain |
| Common.At | static/js/main.js:350-355 | Reading an array index past its end yields `undefined`, otherwise the element |
| Common.Map | static/js/main.js:361 | `map` keeps the length and applies the function element by element |
| ChartOptions.CandleRows | static/js/main.js:350-355 | One candle per price date; candle i is `[open[i], close[i], low[i], high[i]]`, with `undefined` where a column is short |
| ChartOptions.VolumeBars | static/js/main.js:361 | One bar per volume entry |
| ChartOptions.CandleRowsOfAlignedPrices | static/js/main.js:350-355 | With aligned price columns every candle is fully defined and is that day's open, close, low and high; past the end of a short column the entry is `undefined` |
| ChartOptions.VolumeBarsRoundTrip | static/js/main.js:361 | Each bar times one hundred gives back that day's volume |
| ChartOptions.TwoDayExample | static/js/main.js:350-361 | Two days of prices give the two expected candles and bars of 10 and 20 lots |
| ChartOptions.PriceOption | static/js/main.js:312-364 | The price chart has no palette, a candlestick series of the candles, a volume bar series on the second y-axis, and the price dates on a white-labelled x-axis |
| ChartOptions.LineOption | static/js/main.js:368-394 | A line chart has no palette, one line series of the metric values, and the metric dates on a white-labelled x-axis |
| ChartOptions.FirstCandlestick | static/js/main.js:251-252 | `find` yields the index of the first candlestick series, or nothing when there is none |
| ChartOptions.FirstCandlestickIgnoresStyle | static/js/main.js:251-252 | Which series `find` picks depends only on the series types |
| ChartOptions.RestyleCandlestick | static/js/main.js:251-259 | Restyling keeps the number of series |
| ChartOptions.Recolor | static/js/main.js:245-290 | The per-chart rewrite of `updateTheme`: palette, candlestick style, and white title, legend and axis labels. RecolorForcesWhiteText, RecolorAxisLabels, RecolorCandlestick and RecolorIdempotent state its effect |
| ChartOptions.RecolorForcesWhiteText | static/js/main.js:248-288 | The palette becomes the option's colour list. Title, legend and every axis label are white whatever the palette, and present exactly when they were before |
| ChartOptions.RecolorAxisLabels | static/js/main.js:265-285 | Labels of a y-axis array keep their formatter. A single y-axis, and every x-axis, single or array, gets the bare white label |
| ChartOptions.RecolorCandlestick | static/js/main.js:251-259 | Only the first candlestick series is restyled: rising in palette colour 0 and falling in colour 1, with matching borders. All series keep their type, name and data, and the other series are unchanged |
| ChartOptions.RecolorIdempotent | static/js/main.js:242-292 | Applying the same theme twice gives the same options as applying it once |
| Server.ThemePalettesHaveThreeColours | app.py:30-102 | The table has a `default` entry, and every entry's palette has exactly three colours |
| Server.IndustryLabel | app.py:150 | `industry or '未知行业'`: a null or empty industry is shown as `未知行业`, any other one as itself. DetailsTheme states both cases on the details record |
| Server.ThemeFor | app.py:143-144 | A listed industry gets its own theme, anything else the default; the palette always has three colours |
| Server.QueryStock | app.py:110-192 | Guards in order: no code gives the empty-code error; no basic info the not-found error; no prices the no-price error; success exactly when every call returned and both frames were non-empty; each call that raises gives `查询失败：` plus its message |
| Server.Details | app.py:143-159 | `stock_details` built from the first basic-info row, the first company row or the defaults, and the theme. DetailsFields, DetailsTheme and CompanyDefaults state every field |
| Server.SuccessDetails | app.py:143-159 | A success reply's `stock_info` is the details record of the first basic-info row and the company rows |
| Server.DetailsFields | app.py:147-153 | Name and market come from the first basic-info row. The listing date is `未知` when that column is missing. The full name falls back to the short name when its column is missing |
| Server.FillZero | app.py:175-178 | `fillna(0)` on one metric: a missing value becomes 0, a present one is kept. SuccessDataIsSortedAndAligned states it for every metric row |
| Server.Fail | app.py:190-192 | A caught exception gives `查询失败：` followed by its message, which never equals a guard's error |
| Server.PriceColumns | app.py:179-186 | The price columns are index-aligned |
| Server.Assemble | app.py:172-178 | The metric columns are index-aligned with the metric dates |
| Server.PriceRowsOf | app.py:179-186 | Zipping the price columns back gives one row per date |
| Server.MetricRowsOf | app.py:172-178 | Zipping the metric columns back gives one row per date |
| Server.SuccessDataIsSortedAndAligned | app.py:168-187 | In a success reply both date lists are non-decreasing and all columns are aligned. The price columns zip back to exactly the `daily` rows, and the metric columns to the `daily_basic` rows with missing values filled with 0 |
| Server.CompanyDefaults | app.py:154-157 | Without company rows the chairman, introduction, main business and business scope are `未知`, `暂无简介`, `暂无信息`, `暂无信息`; with rows they come from the first row |
| Server.ThemeOfReply | app.py:143-150 | The theme is looked up on the raw industry before the `未知行业` substitution: a null or empty industry gets the default theme and is shown as `未知行业`. Any other industry is shown as itself, and it gets its own theme when listed and the default theme when not. The palette has three colours |
| Server.DetailsTheme | app.py:143-150 | The same theme-and-label rule, stated on the details record built from the first basic-info row: a null or empty industry gets `未知行业` and the default theme; a non-empty one is shown as itself, with its own theme if listed and the default theme otherwise |
| Server.HandleRequestAsWritten | app.py:108-192 | As written: a body whose `stock_code` cannot be read is answered with status 500 and the generic internal-error text; an object body is answered with status 200 and the query's reply |
| Server.HandlersAgreeOnObjects | app.py:110-192 | The handler as written and the intended one give the same reply exactly when the body is a JSON object |
| Server.ArrayBodyLosesMessage | app.py:110-192 | For a JSON array body the handler as written answers differently from the intended handler |
| Server.HandleRequest | app.py:110-192 | As intended: every reply has status 200; an unreadable body gives `查询失败：` plus the exception's message; an object body gives the query's reply |
| Server.HandleRequestNeverInternalError | app.py:110-192 | The intended handler never answers with the generic internal-error text |
| DateOrder.StrLe | app.py:168-169 | Python's `<=` on `str`, by code point, as `sort_values` compares trade dates. StrLeTotal and StrLeTransitive state that it is a total preorder |
| DateOrder.StrLeTotal | app.py:168-169 | Python string order on trade dates is total |
| DateOrder.StrLeTransitive | app.py:168-169 | Python string order on trade dates is transitive |
| DateOrder.Insert | app.py:168-169 | Inserting a row adds exactly that row and keeps a sorted frame sorted |
| DateOrder.SortBy | app.py:168-169 | `sort_values('trade_date')` returns a permutation of the rows in non-decreasing date order |
| DateOrder.SortedKeyColumn | app.py:168-180 | The date column of a sorted frame is non-decreasing |
| DateOrder.SortKeepsColumn | app.py:168-187 | Any column taken from the sorted frame holds the same multiset of values as the unsorted one |
| Integration.ToPayload | app.py:172-187 | The reply's `data` reaches the page with every section present and the metric lists unchanged |
| Integration.Transport | static/js/main.js:117-118 | `response.json()` yields a success exactly for a success reply, with its data, and otherwise the reply's error, whatever the status |
| Integration.RequestFor | static/js/main.js:114 | The page posts an object whose `stock_code` is the normalised code |
| Integration.SuccessRendersInFull | app.py:168-187 | A success reply renders in full: no render failure, five charts, the price chart over non-decreasing dates, every candle fully defined, and a three-colour palette |
| Integration.QueryRoundTrip | static/js/main.js:92-126 | For the handler as written (which here answers as the intended one does), a code that passed the page's checks gets a 200 reply and is never refused as empty. A success renders the payload and shows only the success notice. A failure shows the server's error verbatim and renders nothing |
| Integration.UnreadableBodyNotice | app.py:110-192 | For an unreadable body, the intended handler's reply shows the exception's message on the page, but the handler as written shows only the generic internal-error text |

## Left out

- Timers and the event loop are not modelled. This covers `showNotification`'s show and hide timers, the `debounce` closure, what the resize listener does, and the keypress and page-load wiring. A render records only that one resize listener was added.
- DOM text and classes are not modelled. This covers the background, overlay, card, button and accent classes set by `updateTheme`, the spinner markup, and the company panel's text lines. The model keeps the theme, the banner and the company record shown.
- ECharts internals are not modelled. `setOption` is modelled as replacing the option, not merging it. The tooltip, grid and gradient parts of an option are not modelled. `getOption`'s normalisation is not modelled either. It returns `title`, `legend`, `xAxis` and `yAxis` as arrays, so the writes to `option.title.textStyle` and `option.legend.textStyle` (static/js/main.js:262-264, 286-288) land on an array and not on the component. `Recolor`, and RecolorForcesWhiteText's claim that the title and legend end white, hold on the option shape the dashboard built, not on what `getOption` returns.
- Overlapping queries are not modelled. A second Enter press while a request is out is concurrent, so `Dashboard.Dashboard.QueryStock` takes the reply as an input and runs to completion.
- The Tushare and pandas calls are not made. Each call's answer is an input: rows, or the message of the exception it raises.
- The one-year date window (app.py:118-120) is not modelled. It depends on the clock and is passed to Tushare.
- A NaN industry in `stock_basic` is modelled as a missing one. The model then labels it `未知行业` and renders the page. The source differs: NaN is truthy, so `industry or '未知行业'` (app.py:150) keeps NaN. `jsonify` then writes `NaN`, which is not JSON, so the page's `response.json()` throws and the page shows the network-error notice.
- A `stock_code` that is not a string is not modelled. The body's `stock_code` is either absent or a string.
- Flask routing, `jsonify`, logging and the token setup are not modelled. The global error handler is modelled only as the status-500 reply in `Server.HandleRequestAsWritten`.
- The page posts to `/api/query_stock` (static/js/main.js:109), but app.py routes only `/query_stock` (app.py:108). Under app.py alone, that request gets a 404, which the global error handler turns into a 500 with the internal-error text. `Integration` assumes a deployment that routes the page's path to the handler.
- api/index.py is not part of this model. It is a deployment stub with its handler elided.
- Prices, volumes and metrics are modelled as exact reals. `vol / 100` and `total_mv / 10000` are exact divisions, not IEEE floating point.
- DateOrder.SortBy: claims only what the server relies on, that the result is sorted by trade date and is a permutation. pandas' default sort is not stable, so the order of rows with equal dates is not claimed.
- JsText.ToUpperCase: maps ASCII `a`–`z` and U+017F (which upper-cases to `S`) only. Other Unicode case mappings are not modelled, including those that lengthen a string (`ß` to `SS`, U+FB05 and U+FB06 to `ST`, U+1E96 to `H` plus U+0331). None of them can make a rejected input valid: each either adds a character outside the code alphabet or adds `SS`, which no valid code contains.

## Findings

| source | as written | input that shows it | evidently intended | confidence | as-written member | corrected member |
|---|---|---|---|---|---|---|
| app.py:110-192 | When reading `stock_code` raises, the `except` clause's log line reads `stock_code` before it was ever assigned. That raises again, and the global handler answers status 500 with `服务器内部错误，请稍后重试` | A JSON array body such as `[]`, on which `request.json.get` raises `AttributeError` | Status 200 with `查询失败：` followed by the exception's message, as for every other exception in the handler | not executed | Server.HandleRequestAsWritten | Server.HandleRequest |
