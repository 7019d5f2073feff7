/**
 * The validation half of the price-evolution chart (`generate_chart` in
 * blog/views.py): the ordered "missing or empty" checks on the chart
 * payload, the per-series checks, the colour each series is drawn in and
 * the title chosen from the energy type.  Plotting itself is not modelled;
 * the result is a plan of what would be plotted, holding the axis data as
 * given (before parsing and truncation).
 *
 * Date parsing (`pd.to_datetime(..., format="%d/%m/%Y")`) and numeric
 * coercion (`np.array(..., dtype=np.float64)`) are the parameters
 * `parsesDates` and `isNumeric`.
 */
module Chart {
  import opened Wrappers
  import opened PyValue

  /** The fixed palette; series `idx` is drawn in `Palette[idx % 4]`. */
  const Palette: seq<string> := ["black", "royalblue", "green", "red"]

  function SeriesColor(idx: nat): (r: string)
    ensures r in Palette && r == Palette[idx % 4]
  {
    Palette[idx % |Palette|]
  }

  const GasTitle: string := "Évolution Gaz"

  const ElectricityTitle: string := "Évolution Électricité"

  const DefaultChartTitle: string := "Évolution des Prix"

  /** The title for an already upper-cased energy type. */
  function TitleFor(upperEnergyType: string): (r: string)
    ensures r == GasTitle <==> upperEnergyType == "GAS"
    ensures r == ElectricityTitle <==> upperEnergyType == "ELECTRICITY"
    ensures r == DefaultChartTitle <==> upperEnergyType != "GAS" && upperEnergyType != "ELECTRICITY"
  {
    if upperEnergyType == "GAS" then GasTitle
    else if upperEnergyType == "ELECTRICITY" then ElectricityTitle
    else DefaultChartTitle
  }

  /** `data.get("comparatifClientHistoryPdfDto", {}).get("energyType", "").upper()`
      followed by the title choice: `.get` on a non-dictionary and `.upper`
      on a non-string raise AttributeError. */
  function ChartTitle(data: map<string, Value>): (r: Result<string, PyError>)
    ensures r.Success? ==> r.value == GasTitle || r.value == ElectricityTitle || r.value == DefaultChartTitle
    ensures r.Failure? ==> r.error == AttributeError
  {
    match GetOr(data, "comparatifClientHistoryPdfDto", Obj(map[]))
    case Obj(comparatif) =>
      (match GetOr(comparatif, "energyType", Str(""))
       case Str(s) => Success(TitleFor(AsciiUpper(s)))
       case _ => Failure(AttributeError))
    case _ => Failure(AttributeError)
  }

  /** One plotted series: its legend label, its colour and its values. */
  datatype Line = Line(legend: Value, color: string, values: Value)

  /** What would be plotted when every check passes: the title, the
      unparsed `xAxis[0].data` value and one line per series. */
  datatype ChartPlan = ChartPlan(title: string, dates: Value, lines: seq<Line>)

  datatype ChartError =
    | MissingOrEmpty(field: string)
    | InvalidDates
    | MissingSeriesData(index: nat)
    | InvalidNumeric(index: nat)
    | Raised(raised: PyError)

  /** The text of the raised exception; the parse and coercion failures
      are followed in the source by the library's own message. */
  function ChartMessage(e: ChartError): (r: string)
    ensures e.MissingOrEmpty? ==> "Missing or empty field: " <= r && EndsWith(r, e.field)
    ensures e.MissingSeriesData? ==> "Missing or empty field: series[" + NatToString(e.index) + "]" <= r
    ensures e.InvalidNumeric? ==> "Invalid numeric data in series[" + NatToString(e.index) + "]" <= r
  {
    match e
    case MissingOrEmpty(field) => "Missing or empty field: " + field
    case InvalidDates => "Invalid date format in xAxis data: "
    case MissingSeriesData(index) => "Missing or empty field: series[" + NatToString(index) + "].data"
    case InvalidNumeric(index) => "Invalid numeric data in series[" + NatToString(index) + "]: "
    case Raised(raised) => PyErrorName(raised)
  }

  /** `key not in container or not container[key]`: `None` when the check
      fires, else the value found. */
  function NonEmptyField(container: Value, key: string): (r: Result<Option<Value>, PyError>)
    ensures r.Success? && r.value.Some?
            <==> container.Obj? && key in container.fields && Truthy(container.fields[key])
    ensures r.Success? && r.value.Some? ==> r.value.value == container.fields[key]
    ensures container.Obj? ==> r.Success?
    ensures r.Failure? ==> r.error == TypeError && !container.Obj?
  {
    match Contains(container, key)
    case Failure(e) => Failure(e)
    case Success(present) =>
      if !present then Success(None)
      else match Subscript(container, key)
        case Failure(e) => Failure(e)
        case Success(v) => Success(if Truthy(v) then Some(v) else None)
  }

  /** `series.get("label", f"Series {idx + 1}")`. */
  function Label(series: map<string, Value>, idx: nat): (r: Value)
    ensures "label" in series ==> r == series["label"]
    ensures "label" !in series ==>
              && r.Str? && "Series " <= r.s && |r.s| > |"Series "|
              && r.s[|"Series "|..] == NatToString(idx + 1)
              && r.s[|"Series "|] != '0'
              && (forall i :: |"Series "| <= i < |r.s| ==> '0' <= r.s[i] <= '9')
              && DecimalValue(r.s[|"Series "|..]) == idx + 1
  {
    GetOr(series, "label", Str("Series " + NatToString(idx + 1)))
  }

  /** One pass of the loop over the series. */
  function SeriesLine(series: Value, idx: nat, isNumeric: Value -> bool): (r: Result<Line, ChartError>)
    ensures r.Success? ==> series.Obj? && "data" in series.fields
                           && r.value.values == series.fields["data"] && r.value.color == Palette[idx % 4]
    ensures r.Failure? ==> r.error == MissingSeriesData(idx) || r.error == InvalidNumeric(idx)
                           || r.error == Raised(TypeError)
  {
    match NonEmptyField(series, "data")
    case Failure(e) => Failure(Raised(e))
    case Success(found) =>
      if found.None? then Failure(MissingSeriesData(idx))
      else if !isNumeric(found.value) then Failure(InvalidNumeric(idx))
      else Success(Line(Label(series.fields, idx), SeriesColor(idx), found.value))
  }

  /** The loop over the series from position `i`: the first failure, or
      the lines of every series. */
  function LinesFrom(items: seq<Value>, i: nat, isNumeric: Value -> bool): (r: Result<seq<Line>, ChartError>)
    requires i <= |items|
    ensures r.Success? ==> |r.value| == |items| - i
    ensures r.Failure? ==> r.error == Raised(TypeError)
                           || ((r.error.MissingSeriesData? || r.error.InvalidNumeric?) && i <= r.error.index < |items|)
    decreases |items| - i
  {
    if i == |items| then Success([])
    else match SeriesLine(items[i], i, isNumeric)
      case Failure(e) => Failure(e)
      case Success(line) =>
        match LinesFrom(items, i + 1, isNumeric)
        case Failure(e) => Failure(e)
        case Success(rest) => Success([line] + rest)
  }

  /** `enumerate(chart_data["series"])` and the loop body for each series. */
  function SeriesLines(series: Value, isNumeric: Value -> bool): (r: Result<seq<Line>, ChartError>)
    ensures Iterate(series).Failure? ==> r == Failure(Raised(Iterate(series).error))
    ensures r.Success? ==> Iterate(series).Success? && |r.value| == |Iterate(series).value|
  {
    match Iterate(series)
    case Failure(e) => Failure(Raised(e))
    case Success(items) => LinesFrom(items, 0, isNumeric)
  }

  /** The reference definition of the chart checks, in the source's order. */
  function ChartPlanFor(data: map<string, Value>, parsesDates: Value -> bool, isNumeric: Value -> bool)
    : (r: Result<ChartPlan, ChartError>)
    ensures r == Failure(MissingOrEmpty("chartDataDto")) <==> "chartDataDto" !in data || !Truthy(data["chartDataDto"])
    ensures r.Success? ==> Truthy(r.value.dates) && parsesDates(r.value.dates) && ChartTitle(data) == Success(r.value.title)
  {
    if "chartDataDto" !in data || !Truthy(data["chartDataDto"]) then Failure(MissingOrEmpty("chartDataDto"))
    else
      var chart := data["chartDataDto"];
      match NonEmptyField(chart, "xAxis")
      case Failure(e) => Failure(Raised(e))
      case Success(xAxis) =>
        if xAxis.None? then Failure(MissingOrEmpty("xAxis"))
        else match NonEmptyField(chart, "series")
        case Failure(e) => Failure(Raised(e))
        case Success(series) =>
          if series.None? then Failure(MissingOrEmpty("series"))
          else match ItemZero(xAxis.value)
          case Failure(e) => Failure(Raised(e))
          case Success(axis) =>
            match NonEmptyField(axis, "data")
            case Failure(e) => Failure(Raised(e))
            case Success(dates) =>
              if dates.None? then Failure(MissingOrEmpty("xAxis[0].data"))
              else if !parsesDates(dates.value) then Failure(InvalidDates)
              else match SeriesLines(series.value, isNumeric)
              case Failure(e) => Failure(e)
              case Success(lines) =>
                match ChartTitle(data)
                case Failure(e) => Failure(Raised(e))
                case Success(title) => Success(ChartPlan(title, dates.value, lines))
  }

  function Prefixed(lines: seq<Line>, rest: Result<seq<Line>, ChartError>): Result<seq<Line>, ChartError>
  {
    match rest
    case Success(more) => Success(lines + more)
    case Failure(e) => Failure(e)
  }

  /** The `for` loop over the series, accumulating the lines to plot. */
  method PlotSeries(series: Value, isNumeric: Value -> bool) returns (r: Result<seq<Line>, ChartError>)
    ensures r == SeriesLines(series, isNumeric)
  {
    var iterated := Iterate(series);
    if iterated.Failure? {
      return Failure(Raised(iterated.error));
    }
    var items := iterated.value;
    var lines: seq<Line> := [];
    ghost var whole := LinesFrom(items, 0, isNumeric);
    if whole.Success? {
      assert lines + whole.value == whole.value;
    }
    var idx := 0;
    while idx < |items|
      invariant 0 <= idx <= |items|
      invariant LinesFrom(items, 0, isNumeric) == Prefixed(lines, LinesFrom(items, idx, isNumeric))
    {
      var one := items[idx];
      var values := NonEmptyField(one, "data");
      if values.Failure? {
        return Failure(Raised(values.error));
      }
      if values.value.None? {
        return Failure(MissingSeriesData(idx));
      }
      if !isNumeric(values.value.value) {
        return Failure(InvalidNumeric(idx));
      }
      var line := Line(Label(one.fields, idx), SeriesColor(idx), values.value.value);
      ghost var rest := LinesFrom(items, idx + 1, isNumeric);
      if rest.Success? {
        assert lines + ([line] + rest.value) == (lines + [line]) + rest.value;
      }
      lines := lines + [line];
      idx := idx + 1;
    }
    assert lines + [] == lines;
    return Success(lines);
  }

  /** `generate_chart` up to the plotting calls, step by step. */
  method GenerateChart(data: map<string, Value>, parsesDates: Value -> bool, isNumeric: Value -> bool)
    returns (r: Result<ChartPlan, ChartError>)
    ensures r == ChartPlanFor(data, parsesDates, isNumeric)
  {
    if "chartDataDto" !in data || !Truthy(data["chartDataDto"]) {
      return Failure(MissingOrEmpty("chartDataDto"));
    }
    var chart := data["chartDataDto"];

    var xAxis := NonEmptyField(chart, "xAxis");
    if xAxis.Failure? {
      return Failure(Raised(xAxis.error));
    }
    if xAxis.value.None? {
      return Failure(MissingOrEmpty("xAxis"));
    }
    // `chart` is a dictionary once `xAxis` was found, so this test cannot raise.
    var series := NonEmptyField(chart, "series");
    if series.value.None? {
      return Failure(MissingOrEmpty("series"));
    }

    var axis := ItemZero(xAxis.value.value);
    if axis.Failure? {
      return Failure(Raised(axis.error));
    }
    var dates := NonEmptyField(axis.value, "data");
    if dates.Failure? {
      return Failure(Raised(dates.error));
    }
    if dates.value.None? {
      return Failure(MissingOrEmpty("xAxis[0].data"));
    }
    if !parsesDates(dates.value.value) {
      return Failure(InvalidDates);
    }

    var lines := PlotSeries(series.value.value, isNumeric);
    if lines.Failure? {
      return Failure(lines.error);
    }

    var title := ChartTitle(data);
    if title.Failure? {
      return Failure(Raised(title.error));
    }
    return Success(ChartPlan(title.value, dates.value.value, lines.value));
  }
}
