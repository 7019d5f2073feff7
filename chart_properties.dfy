/**
 * Properties of the chart checks: which payloads are accepted and what is
 * then plotted, the order in which the "missing or empty" errors are
 * reported, the first failing series, the colour cycle and the title.
 */
module ChartProperties {
  import opened Wrappers
  import opened PyValue
  import opened Chart
  import Comparatif

  /** `key in m and m[key]`. */
  predicate HasNonEmpty(m: map<string, Value>, key: string)
  {
    key in m && Truthy(m[key])
  }

  /** A series the loop body accepts: a dictionary whose "data" is
      present, non-empty and numeric. */
  predicate SeriesOk(series: Value, isNumeric: Value -> bool)
  {
    series.Obj? && HasNonEmpty(series.fields, "data") && isNumeric(series.fields["data"])
  }

  /** Every series from position `i` on is accepted. */
  predicate AllOk(items: seq<Value>, i: nat, isNumeric: Value -> bool)
    requires i <= |items|
  {
    forall j :: i <= j < |items| ==> SeriesOk(items[j], isNumeric)
  }

  /** The line drawn for an accepted series at position `idx`: its label
      or "Series <idx + 1>", the palette entry `idx % 4` and its data. */
  function ExpectedLine(series: map<string, Value>, idx: nat): Line
    requires "data" in series
  {
    Line(Label(series, idx), Palette[idx % 4], series["data"])
  }

  /** `lines` holds, in order, the expected line of every series from
      position `i` on. */
  predicate LinesMatch(items: seq<Value>, i: nat, lines: seq<Line>)
    requires i <= |items|
  {
    |lines| == |items| - i
    && forall j :: i <= j < |items| ==>
         items[j].Obj? && "data" in items[j].fields && lines[j - i] == ExpectedLine(items[j].fields, j)
  }

  /** The loop body accepts exactly the accepted series. */
  lemma SeriesLineAccepts(series: Value, idx: nat, isNumeric: Value -> bool)
    ensures SeriesLine(series, idx, isNumeric).Success? <==> SeriesOk(series, isNumeric)
  {
  }

  /** ... and then draws the expected line. */
  lemma SeriesLineValue(series: Value, idx: nat, isNumeric: Value -> bool)
    requires SeriesLine(series, idx, isNumeric).Success?
    ensures series.Obj? && "data" in series.fields
    ensures SeriesLine(series, idx, isNumeric).value == ExpectedLine(series.fields, idx)
  {
  }

  lemma LinesMatchCons(items: seq<Value>, i: nat, line: Line, rest: seq<Line>)
    requires i < |items|
    requires items[i].Obj? && "data" in items[i].fields && line == ExpectedLine(items[i].fields, i)
    requires LinesMatch(items, i + 1, rest)
    ensures LinesMatch(items, i, [line] + rest)
  {
    var lines := [line] + rest;
    forall j | i <= j < |items|
      ensures items[j].Obj? && "data" in items[j].fields && lines[j - i] == ExpectedLine(items[j].fields, j)
    {
      if j > i {
        assert lines[j - i] == rest[j - (i + 1)];
      }
    }
  }

  /** The expected lines are determined by the series. */
  lemma LinesMatchUnique(items: seq<Value>, i: nat, a: seq<Line>, b: seq<Line>)
    requires i <= |items|
    requires LinesMatch(items, i, a) && LinesMatch(items, i, b)
    ensures a == b
  {
    forall k | 0 <= k < |a|
      ensures a[k] == b[k]
    {
      var j := k + i;
      assert "data" in items[j].fields;
      assert a[j - i] == ExpectedLine(items[j].fields, j) == b[j - i];
    }
  }

  /** One unfolding of the series loop. */
  lemma LinesFromStep(items: seq<Value>, i: nat, isNumeric: Value -> bool)
    requires i < |items|
    ensures LinesFrom(items, i, isNumeric).Success?
            <==> SeriesLine(items[i], i, isNumeric).Success? && LinesFrom(items, i + 1, isNumeric).Success?
  {
  }

  lemma AllOkStep(items: seq<Value>, i: nat, isNumeric: Value -> bool)
    requires i < |items|
    ensures AllOk(items, i, isNumeric) <==> SeriesOk(items[i], isNumeric) && AllOk(items, i + 1, isNumeric)
  {
  }

  lemma {:induction false} LinesFromAccepts(items: seq<Value>, i: nat, isNumeric: Value -> bool)
    requires i <= |items|
    ensures LinesFrom(items, i, isNumeric).Success? <==> AllOk(items, i, isNumeric)
    decreases |items| - i
  {
    if i < |items| {
      LinesFromAccepts(items, i + 1, isNumeric);
      LinesFromStep(items, i, isNumeric);
      SeriesLineAccepts(items[i], i, isNumeric);
      AllOkStep(items, i, isNumeric);
    }
  }

  lemma {:induction false} LinesFromShape(items: seq<Value>, i: nat, isNumeric: Value -> bool)
    requires i <= |items|
    requires LinesFrom(items, i, isNumeric).Success?
    ensures LinesMatch(items, i, LinesFrom(items, i, isNumeric).value)
    decreases |items| - i
  {
    if i < |items| {
      var head := SeriesLine(items[i], i, isNumeric);
      var tail := LinesFrom(items, i + 1, isNumeric);
      assert head.Success? && tail.Success? && LinesFrom(items, i, isNumeric).value == [head.value] + tail.value;
      LinesFromShape(items, i + 1, isNumeric);
      SeriesLineValue(items[i], i, isNumeric);
      LinesMatchCons(items, i, head.value, tail.value);
    }
  }

  lemma {:induction false} LinesFromFirstFailure(items: seq<Value>, i: nat, k: nat, isNumeric: Value -> bool)
    requires i <= k < |items|
    requires forall j :: i <= j < k ==> SeriesOk(items[j], isNumeric)
    requires !SeriesOk(items[k], isNumeric)
    ensures SeriesLine(items[k], k, isNumeric).Failure?
    ensures LinesFrom(items, i, isNumeric) == Failure(SeriesLine(items[k], k, isNumeric).error)
    decreases k - i
  {
    if i < k {
      LinesFromFirstFailure(items, i + 1, k, isNumeric);
    }
  }

  /** Only a non-empty list of accepted series passes the loop; a
      non-empty string is iterated character by character and fails at
      its first character, and a non-empty dictionary is rejected. */
  lemma SeriesLinesAccepted(series: Value, isNumeric: Value -> bool)
    requires Truthy(series)
    ensures SeriesLines(series, isNumeric).Success? <==> series.List? && AllOk(series.items, 0, isNumeric)
    ensures SeriesLines(series, isNumeric).Success? ==>
              LinesMatch(series.items, 0, SeriesLines(series, isNumeric).value)
  {
    match series
    case List(items) =>
      LinesFromAccepts(items, 0, isNumeric);
      if SeriesLines(series, isNumeric).Success? {
        LinesFromShape(items, 0, isNumeric);
      }
    case Str(s) =>
      var items := Iterate(series).value;
      assert !SeriesOk(items[0], isNumeric);
      LinesFromAccepts(items, 0, isNumeric);
    case _ =>
  }

  /** The first series the loop body rejects is the one reported, with its
      own error; for a dictionary series that is the missing-data error or
      the numeric error. */
  lemma FirstBadSeriesReported(items: seq<Value>, k: nat, isNumeric: Value -> bool)
    requires k < |items|
    requires forall j :: 0 <= j < k ==> SeriesOk(items[j], isNumeric)
    requires !SeriesOk(items[k], isNumeric)
    ensures SeriesLines(List(items), isNumeric).Failure?
    ensures items[k].Obj? ==>
              SeriesLines(List(items), isNumeric)
              == Failure(if HasNonEmpty(items[k].fields, "data") then InvalidNumeric(k) else MissingSeriesData(k))
    ensures !items[k].Obj? && !items[k].List? && !items[k].Str? ==>
              SeriesLines(List(items), isNumeric) == Failure(Raised(TypeError))
  {
    LinesFromFirstFailure(items, 0, k, isNumeric);
  }

  /** Everything an accepted payload satisfies, and conversely: exactly the
      payloads with a dictionary chartDataDto, a non-empty xAxis whose first
      element carries non-empty, parseable "data", a non-empty list of
      accepted series and a computable title are accepted, and the plan
      holds those dates, one line per series in order, and that title. */
  predicate PlanMatches(data: map<string, Value>, parsesDates: Value -> bool, isNumeric: Value -> bool,
                        plan: ChartPlan)
  {
    HasNonEmpty(data, "chartDataDto") && data["chartDataDto"].Obj?
    && var chart := data["chartDataDto"].fields;
    HasNonEmpty(chart, "xAxis")
    && HasNonEmpty(chart, "series")
    && ItemZero(chart["xAxis"]).Success?
    && var axis := ItemZero(chart["xAxis"]).value;
    axis.Obj? && HasNonEmpty(axis.fields, "data")
    && plan.dates == axis.fields["data"] && parsesDates(plan.dates)
    && chart["series"].List?
    && AllOk(chart["series"].items, 0, isNumeric)
    && LinesMatch(chart["series"].items, 0, plan.lines)
    && ChartTitle(data) == Success(plan.title)
  }

  lemma ChartAcceptance(data: map<string, Value>, parsesDates: Value -> bool, isNumeric: Value -> bool,
                        plan: ChartPlan)
    ensures ChartPlanFor(data, parsesDates, isNumeric) == Success(plan)
            <==> PlanMatches(data, parsesDates, isNumeric, plan)
  {
    if HasNonEmpty(data, "chartDataDto") {
      var chart := data["chartDataDto"];
      if chart.Obj? && HasNonEmpty(chart.fields, "xAxis") && HasNonEmpty(chart.fields, "series") {
        var series := chart.fields["series"];
        SeriesLinesAccepted(series, isNumeric);
        if PlanMatches(data, parsesDates, isNumeric, plan) {
          LinesMatchUnique(series.items, 0, SeriesLines(series, isNumeric).value, plan.lines);
        }
      }
    }
  }

  /** The payload checks fire in the source's order: chartDataDto, then
      xAxis, then series, then xAxis[0].data, then the date parse. */
  lemma MissingFieldsReportedInOrder(data: map<string, Value>, parsesDates: Value -> bool,
                                     isNumeric: Value -> bool)
    ensures !HasNonEmpty(data, "chartDataDto")
            ==> ChartPlanFor(data, parsesDates, isNumeric) == Failure(MissingOrEmpty("chartDataDto"))
    ensures HasNonEmpty(data, "chartDataDto") && data["chartDataDto"].Obj?
            && !HasNonEmpty(data["chartDataDto"].fields, "xAxis")
            ==> ChartPlanFor(data, parsesDates, isNumeric) == Failure(MissingOrEmpty("xAxis"))
    ensures HasNonEmpty(data, "chartDataDto") && data["chartDataDto"].Obj?
            && HasNonEmpty(data["chartDataDto"].fields, "xAxis")
            && !HasNonEmpty(data["chartDataDto"].fields, "series")
            ==> ChartPlanFor(data, parsesDates, isNumeric) == Failure(MissingOrEmpty("series"))
    ensures HasNonEmpty(data, "chartDataDto") && data["chartDataDto"].Obj?
            && HasNonEmpty(data["chartDataDto"].fields, "xAxis")
            && HasNonEmpty(data["chartDataDto"].fields, "series")
            && data["chartDataDto"].fields["xAxis"].List?
            && data["chartDataDto"].fields["xAxis"].items[0].Obj?
            && !HasNonEmpty(data["chartDataDto"].fields["xAxis"].items[0].fields, "data")
            ==> ChartPlanFor(data, parsesDates, isNumeric) == Failure(MissingOrEmpty("xAxis[0].data"))
    ensures HasNonEmpty(data, "chartDataDto") && data["chartDataDto"].Obj?
            && HasNonEmpty(data["chartDataDto"].fields, "xAxis")
            && HasNonEmpty(data["chartDataDto"].fields, "series")
            && data["chartDataDto"].fields["xAxis"].List?
            && data["chartDataDto"].fields["xAxis"].items[0].Obj?
            && HasNonEmpty(data["chartDataDto"].fields["xAxis"].items[0].fields, "data")
            && !parsesDates(data["chartDataDto"].fields["xAxis"].items[0].fields["data"])
            ==> ChartPlanFor(data, parsesDates, isNumeric) == Failure(InvalidDates)
  {
  }

  /** With the payload checks passed, a list of series fails at its first
      rejected series, with that series' own error: the smallest bad index
      is the one reported. */
  lemma FirstBadSeriesFailsChart(data: map<string, Value>, parsesDates: Value -> bool, isNumeric: Value -> bool,
                                 k: nat)
    requires HasNonEmpty(data, "chartDataDto") && data["chartDataDto"].Obj?
    requires HasNonEmpty(data["chartDataDto"].fields, "xAxis")
    requires HasNonEmpty(data["chartDataDto"].fields, "series")
    requires ItemZero(data["chartDataDto"].fields["xAxis"]).Success?
    requires ItemZero(data["chartDataDto"].fields["xAxis"]).value.Obj?
    requires HasNonEmpty(ItemZero(data["chartDataDto"].fields["xAxis"]).value.fields, "data")
    requires parsesDates(ItemZero(data["chartDataDto"].fields["xAxis"]).value.fields["data"])
    requires data["chartDataDto"].fields["series"].List?
    requires k < |data["chartDataDto"].fields["series"].items|
    requires forall j :: 0 <= j < k ==> SeriesOk(data["chartDataDto"].fields["series"].items[j], isNumeric)
    requires !SeriesOk(data["chartDataDto"].fields["series"].items[k], isNumeric)
    ensures ChartPlanFor(data, parsesDates, isNumeric)
            == Failure(SeriesLine(data["chartDataDto"].fields["series"].items[k], k, isNumeric).error)
  {
    LinesFromFirstFailure(data["chartDataDto"].fields["series"].items, 0, k, isNumeric);
  }

  /** The colour cycle: period four, and four consecutive series get four
      different colours. */
  lemma ColorsCycle(j: nat, k: nat)
    ensures SeriesColor(j + 4) == SeriesColor(j)
    ensures j < k < j + 4 ==> SeriesColor(j) != SeriesColor(k)
  {
  }

  /** The title depends only on the upper-cased energy type, and the
      defaults stand in for a missing DTO and a missing energy type. */
  lemma ChartTitleChoice(data: map<string, Value>, energyType: string)
    requires "comparatifClientHistoryPdfDto" in data
    requires data["comparatifClientHistoryPdfDto"].Obj?
    requires GetOr(data["comparatifClientHistoryPdfDto"].fields, "energyType", Str("")) == Str(energyType)
    ensures ChartTitle(data) == Success(GasTitle) <==> AsciiUpper(energyType) == "GAS"
    ensures ChartTitle(data) == Success(ElectricityTitle) <==> AsciiUpper(energyType) == "ELECTRICITY"
    ensures ChartTitle(data) == Success(DefaultChartTitle)
            <==> AsciiUpper(energyType) != "GAS" && AsciiUpper(energyType) != "ELECTRICITY"
  {
    assert GasTitle != ElectricityTitle && GasTitle != DefaultChartTitle && ElectricityTitle != DefaultChartTitle by {
      assert GasTitle[11] != ElectricityTitle[11] && GasTitle[11] != DefaultChartTitle[11];
      assert ElectricityTitle[10] != DefaultChartTitle[10];
    }
  }

  /** The upper-cased energy type is "GAS" exactly when the type is "gas"
      in any mix of ASCII cases. */
  lemma GasInAnyCase(s: string)
    ensures AsciiUpper(s) == "GAS"
            <==> |s| == 3 && (s[0] == 'g' || s[0] == 'G') && (s[1] == 'a' || s[1] == 'A') && (s[2] == 's' || s[2] == 'S')
  {
    var u := AsciiUpper(s);
    if |s| == 3 && (s[0] == 'g' || s[0] == 'G') && (s[1] == 'a' || s[1] == 'A') && (s[2] == 's' || s[2] == 'S') {
      assert u[0] == 'G' && u[1] == 'A' && u[2] == 'S';
    }
  }

  lemma MissingEnergyTypeGivesDefaultTitle(data: map<string, Value>)
    requires "comparatifClientHistoryPdfDto" !in data
             || (data["comparatifClientHistoryPdfDto"].Obj?
                 && "energyType" !in data["comparatifClientHistoryPdfDto"].fields)
    ensures ChartTitle(data) == Success(DefaultChartTitle)
  {
    assert AsciiUpper("") == "";
  }

  /** A non-dictionary DTO, or a non-string energy type, raises. */
  lemma NonStringEnergyTypeRaises(data: map<string, Value>)
    requires "comparatifClientHistoryPdfDto" in data
    requires !data["comparatifClientHistoryPdfDto"].Obj?
             || !GetOr(data["comparatifClientHistoryPdfDto"].fields, "energyType", Str("")).Str?
    ensures ChartTitle(data) == Failure(AttributeError)
  {
  }

  /** The chart upper-cases the energy type while the comparison DTO
      matches it exactly: a lower-case "gas" yields the gas chart title
      and is rejected by the comparison normaliser. */
  lemma CaseHandlingDiffers(data: map<string, Value>)
    requires "comparatifClientHistoryPdfDto" in data
    requires data["comparatifClientHistoryPdfDto"] == Obj(map["energyType" := Str("gas")])
    ensures ChartTitle(data) == Success(GasTitle)
    ensures Comparatif.ParseEnergyType(Str("gas")).None?
  {
    assert AsciiUpper("gas") == "GAS";
  }
}
