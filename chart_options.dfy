/**
 * The chart options the dashboard builds and the rewrite `updateTheme`
 * applies to them. An option is modelled as a value: ECharts hands out a
 * copy with `getOption`, the dashboard edits that copy and passes it back
 * with `setOption`, so the rewrite is a function from option to option.
 * Only the parts of an option the dashboard sets or rewrites are kept.
 */
module ChartOptions {
  import opened Common
  import opened StockJson

  const White := "#fff"
  const LineBlue := "#3b82f6"

  datatype SeriesType = Candlestick | Bar | Line

  /** One candlestick entry `[open, close, low, high]`; an entry read past the end of its array is `undefined`. */
  datatype Candle = Candle(open: Option<real>, close: Option<real>, low: Option<real>, high: Option<real>)

  datatype SeriesData = NoData | Candles(rows: seq<Candle>) | Values(values: seq<real>)

  /** Rising (`color`, `borderColor`) and falling (`color0`, `borderColor0`) candle colours. */
  datatype ItemStyle = ItemStyle(color: Option<string>, color0: Option<string>, borderColor: Option<string>, borderColor0: Option<string>)

  datatype Series = Series(name: string, kind: SeriesType, data: SeriesData, itemStyle: Option<ItemStyle>, yAxisIndex: nat)

  /** An axis label: its colour and the formatter the price axes carry. */
  datatype Label = Label(color: Option<string>, formatter: Option<string>)

  datatype Axis = Axis(name: string, data: seq<string>, axisLabel: Option<Label>)

  /** `xAxis` / `yAxis`: a single axis object, or an array of them. */
  datatype Axes = OneAxis(axis: Axis) | AxisList(axes: seq<Axis>)

  datatype TextStyle = TextStyle(color: Option<string>)
  datatype Title = Title(text: string, textStyle: Option<TextStyle>)
  datatype Legend = Legend(data: seq<string>, textStyle: Option<TextStyle>)

  datatype ChartOption = ChartOption(
    color: Option<seq<string>>, title: Option<Title>, legend: Option<Legend>,
    xAxis: Option<Axes>, yAxis: Option<Axes>, series: seq<Series>)

  /** The option of a chart that `echarts.init` created and nothing has configured yet. */
  const Blank := ChartOption(None, None, None, None, None, [])

  const WhiteText: Option<TextStyle> := Some(TextStyle(Some(White)))
  const WhiteLabel := Label(Some(White), None)

  const PriceTitle := "股价走势"
  const PeTitle := "市盈率(PE)走势"
  const PbTitle := "市净率(PB)走势"
  const DvTitle := "股息率(%)走势"
  const MvTitle := "总市值(亿元)走势"

  // ---- Building the options ------------------------------------------------

  /** `price_data.dates.map((_, i) => [open[i], close[i], low[i], high[i]])`. */
  function CandleRows(p: PriceData): (rows: seq<Candle>)
    ensures |rows| == |p.dates|
    ensures forall i :: 0 <= i < |rows| ==> rows[i] == Candle(At(p.open, i), At(p.close, i), At(p.low, i), At(p.high, i))
  {
    seq(|p.dates|, i requires 0 <= i < |p.dates| => Candle(At(p.open, i), At(p.close, i), At(p.low, i), At(p.high, i)))
  }

  /** `price_data.vol.map(vol => vol / 100)`: volume in lots of one hundred shares. */
  function VolumeBars(vol: seq<real>): (bars: seq<real>)
    ensures |bars| == |vol|
  {
    seq(|vol|, i requires 0 <= i < |vol| => vol[i] / 100.0)
  }

  /**
   * With index-aligned price columns every candle is fully defined and is
   * that day's open, close, low and high; with a short column the candles
   * past its end carry `undefined` in that place.
   */
  lemma CandleRowsOfAlignedPrices(p: PriceData)
    ensures PriceAligned(p) ==> forall i :: 0 <= i < |p.dates| ==>
      CandleRows(p)[i] == Candle(Some(p.open[i]), Some(p.close[i]), Some(p.low[i]), Some(p.high[i]))
    ensures forall i :: |p.open| <= i < |p.dates| ==> CandleRows(p)[i].open.None?
  {
  }

  /** Each volume bar times one hundred is that day's volume. */
  lemma VolumeBarsRoundTrip(vol: seq<real>)
    ensures forall i :: 0 <= i < |vol| ==> VolumeBars(vol)[i] * 100.0 == vol[i]
  {
  }

  /** The two-day example: two candles and bars of 10 and 20 lots. */
  lemma TwoDayExample()
    ensures var p := PriceData(["2024-01-01", "2024-01-02"], [10.0, 11.0], [12.0, 13.0], [9.0, 10.0], [11.0, 12.0], [1000.0, 2000.0]);
      && CandleRows(p) == [Candle(Some(10.0), Some(11.0), Some(9.0), Some(12.0)), Candle(Some(11.0), Some(12.0), Some(10.0), Some(13.0))]
      && VolumeBars(p.vol) == [10.0, 20.0]
  {
  }

  /** The price chart: candlesticks on the left axis, volume bars on the right. */
  function PriceOption(p: PriceData): (o: ChartOption)
    ensures o.color.None? && |o.series| == 2
    ensures o.series[0].kind == Candlestick && o.series[0].data == Candles(CandleRows(p))
    ensures o.series[1].kind == Bar && o.series[1].data == Values(VolumeBars(p.vol)) && o.series[1].yAxisIndex == 1
    ensures o.xAxis == Some(OneAxis(Axis("", p.dates, Some(WhiteLabel))))
  {
    ChartOption(
      None,
      Some(Title(PriceTitle, WhiteText)),
      Some(Legend(["日K", "成交量"], WhiteText)),
      Some(OneAxis(Axis("", p.dates, Some(WhiteLabel)))),
      Some(AxisList([Axis("价格", [], Some(Label(Some(White), Some("{value} 元")))),
                     Axis("成交量", [], Some(Label(Some(White), Some("{value} 手"))))])),
      [Series("日K", Candlestick, Candles(CandleRows(p)), None, 0),
       Series("成交量", Bar, Values(VolumeBars(p.vol)), None, 1)])
  }

  /** `initChart(id, title)` followed by `setOption({xAxis: {data: dates}, series: [{data: values}]})`. */
  function LineOption(title: string, dates: seq<string>, values: seq<real>): (o: ChartOption)
    ensures o.color.None? && |o.series| == 1 && o.series[0].kind == Line && o.series[0].data == Values(values)
    ensures o.xAxis == Some(OneAxis(Axis("", dates, Some(WhiteLabel))))
  {
    ChartOption(
      None,
      Some(Title(title, WhiteText)),
      None,
      Some(OneAxis(Axis("", dates, Some(WhiteLabel)))),
      Some(OneAxis(Axis("", [], Some(WhiteLabel)))),
      [Series("", Line, Values(values), Some(ItemStyle(Some(LineBlue), None, None, None)), 0)])
  }

  // ---- The theme rewrite -----------------------------------------------------

  /** `option.series.find(s => s.type === 'candlestick')`, as an index. */
  function FirstCandlestick(s: seq<Series>): (k: Option<nat>)
    ensures k.Some? ==> k.value < |s| && s[k.value].kind == Candlestick
    ensures k.Some? ==> forall j :: 0 <= j < k.value ==> s[j].kind != Candlestick
    ensures k.None? ==> forall j :: 0 <= j < |s| ==> s[j].kind != Candlestick
  {
    if s == [] then None
    else if s[0].kind == Candlestick then Some(0)
    else match FirstCandlestick(s[1..])
      case None => None
      case Some(k) => Some(k + 1)
  }

  /** Rising candles in the first palette colour, falling ones in the second; `undefined` where the palette is short. */
  function CandleStyle(palette: seq<string>): ItemStyle
  {
    ItemStyle(At(palette, 0), At(palette, 1), At(palette, 0), At(palette, 1))
  }

  function RestyleCandlestick(s: seq<Series>, palette: seq<string>): (r: seq<Series>)
    ensures |r| == |s|
  {
    match FirstCandlestick(s)
    case None => s
    case Some(k) => s[k := s[k].(itemStyle := Some(CandleStyle(palette)))]
  }

  /** `axis.axisLabel = {color: '#fff'}`: the label is replaced wholesale. */
  function ReplaceLabel(a: Axis): Axis
  {
    a.(axisLabel := Some(WhiteLabel))
  }

  /** `axis.axisLabel = {...axis.axisLabel, color: '#fff'}`: only the colour changes. */
  function MergeLabel(a: Axis): Axis
  {
    a.(axisLabel := Some(Label(Some(White), if a.axisLabel.Some? then a.axisLabel.value.formatter else None)))
  }

  /** The x-axis rewrite: every label replaced, single axis or array alike. */
  function RecolorXAxes(axes: Axes): Axes
  {
    match axes
    case OneAxis(a) => OneAxis(ReplaceLabel(a))
    case AxisList(l) => AxisList(Map(ReplaceLabel, l))
  }

  /** The y-axis rewrite: labels of an axis array are merged, a single axis's label is replaced. */
  function RecolorYAxes(axes: Axes): Axes
  {
    match axes
    case OneAxis(a) => OneAxis(ReplaceLabel(a))
    case AxisList(l) => AxisList(Map(MergeLabel, l))
  }

  /** The body of `updateTheme`'s per-chart loop, applied to the chart's option. */
  function Recolor(o: ChartOption, palette: seq<string>): ChartOption
  {
    ChartOption(
      Some(palette),
      if o.title.Some? then Some(o.title.value.(textStyle := WhiteText)) else None,
      if o.legend.Some? then Some(o.legend.value.(textStyle := WhiteText)) else None,
      if o.xAxis.Some? then Some(RecolorXAxes(o.xAxis.value)) else None,
      if o.yAxis.Some? then Some(RecolorYAxes(o.yAxis.value)) else None,
      RestyleCandlestick(o.series, palette))
  }

  /** Every axis of `axes` has a white label. */
  predicate AllLabelsWhite(axes: Axes)
  {
    match axes
    case OneAxis(a) => a.axisLabel.Some? && a.axisLabel.value.color == Some(White)
    case AxisList(l) => forall i :: 0 <= i < |l| ==> l[i].axisLabel.Some? && l[i].axisLabel.value.color == Some(White)
  }

  /**
   * After the rewrite the palette is the option's colour list and all text
   * is white whatever the palette: title, legend and every axis label.
   */
  lemma RecolorForcesWhiteText(o: ChartOption, palette: seq<string>)
    ensures var r := Recolor(o, palette);
      && r.color == Some(palette)
      && (r.title.Some? <==> o.title.Some?) && (r.title.Some? ==> r.title.value == Title(o.title.value.text, WhiteText))
      && (r.legend.Some? <==> o.legend.Some?) && (r.legend.Some? ==> r.legend.value == Legend(o.legend.value.data, WhiteText))
      && (r.xAxis.Some? <==> o.xAxis.Some?) && (r.xAxis.Some? ==> AllLabelsWhite(r.xAxis.value))
      && (r.yAxis.Some? <==> o.yAxis.Some?) && (r.yAxis.Some? ==> AllLabelsWhite(r.yAxis.value))
  {
  }

  /**
   * Labels of a y-axis array keep their formatter; a single y-axis, and
   * every x-axis, gets the bare white label, losing any formatter.
   */
  lemma RecolorAxisLabels(o: ChartOption, palette: seq<string>)
    ensures var r := Recolor(o, palette);
      && (o.yAxis.Some? && o.yAxis.value.AxisList? ==>
            r.yAxis.value.AxisList? && |r.yAxis.value.axes| == |o.yAxis.value.axes|
            && forall i :: 0 <= i < |o.yAxis.value.axes| ==>
                 var before := o.yAxis.value.axes[i].axisLabel;
                 r.yAxis.value.axes[i].axisLabel.value.formatter == (if before.Some? then before.value.formatter else None))
      && (o.yAxis.Some? && o.yAxis.value.OneAxis? ==> r.yAxis.value.axis.axisLabel == Some(WhiteLabel))
      && (o.xAxis.Some? && o.xAxis.value.OneAxis? ==> r.xAxis.value.axis.axisLabel == Some(WhiteLabel))
      && (o.xAxis.Some? && o.xAxis.value.AxisList? ==>
            forall i :: 0 <= i < |r.xAxis.value.axes| ==> r.xAxis.value.axes[i].axisLabel == Some(WhiteLabel))
  {
  }

  /**
   * Only the first candlestick series is restyled, with palette colours 0
   * (rising) and 1 (falling) and matching borders; every other series, and
   * all series data, stay as they were.
   */
  lemma RecolorCandlestick(o: ChartOption, palette: seq<string>)
    ensures var r := Recolor(o, palette);
      && |r.series| == |o.series|
      && (forall i :: 0 <= i < |o.series| ==>
            r.series[i].data == o.series[i].data && r.series[i].kind == o.series[i].kind && r.series[i].name == o.series[i].name)
      && (FirstCandlestick(o.series).None? ==> r.series == o.series)
      && (FirstCandlestick(o.series).Some? ==>
            var k := FirstCandlestick(o.series).value;
            && r.series[k].itemStyle == Some(CandleStyle(palette))
            && (forall i :: 0 <= i < |o.series| && i != k ==> r.series[i] == o.series[i]))
      && (|palette| >= 2 ==> CandleStyle(palette) == ItemStyle(Some(palette[0]), Some(palette[1]), Some(palette[0]), Some(palette[1])))
  {
  }

  /** Applying the same theme twice changes nothing more than applying it once. */
  lemma {:induction false} RecolorIdempotent(o: ChartOption, palette: seq<string>)
    ensures Recolor(Recolor(o, palette), palette) == Recolor(o, palette)
  {
    var r := Recolor(o, palette);
    var k := FirstCandlestick(o.series);
    if k.Some? {
      assert FirstCandlestick(r.series) == k by {
        FirstCandlestickIgnoresStyle(o.series, r.series);
      }
    } else {
      assert r.series == o.series;
    }
    if o.xAxis.Some? && o.xAxis.value.AxisList? {
      var l := o.xAxis.value.axes;
      assert Map(ReplaceLabel, Map(ReplaceLabel, l)) == Map(ReplaceLabel, l);
    }
    if o.yAxis.Some? && o.yAxis.value.AxisList? {
      var l := o.yAxis.value.axes;
      assert Map(MergeLabel, Map(MergeLabel, l)) == Map(MergeLabel, l);
    }
  }

  /** Which series is the first candlestick depends only on the series kinds. */
  lemma {:induction false} FirstCandlestickIgnoresStyle(s: seq<Series>, t: seq<Series>)
    requires |s| == |t| && forall i :: 0 <= i < |s| ==> s[i].kind == t[i].kind
    ensures FirstCandlestick(s) == FirstCandlestick(t)
  {
    if s != [] && s[0].kind != Candlestick {
      FirstCandlestickIgnoresStyle(s[1..], t[1..]);
    }
  }
}
