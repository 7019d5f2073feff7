# A model of the comparison-payload validator of the PDF presentation service

The presentation endpoint of the service receives a JSON payload and
renders a PDF from it. In `blog/views.py`, two pieces of logic decide
whether a payload is usable. They are modelled here:

* `build_comparatif_dto` is the comparison normaliser. It checks the
  creation timestamp and dispatches on `energyType`, which must be
  exactly `"GAS"` or `"ELECTRICITY"`. It demands the fields of that
  energy type and refuses truthy fields of the other type. It checks
  every `comparatifRate` row against eleven required keys, then returns
  the DTO that the template receives.
* `generate_chart` draws the price-evolution chart. Its validation half
  is modelled: the ordered "missing or empty" checks on `chartDataDto`,
  `xAxis`, `series` and `xAxis[0].data`, and the date parse. Then comes
  the loop over the series, with its per-series data and numeric checks
  and the palette entry `colors[idx % 4]`. Last is the title chosen from
  the upper-cased `energyType`. The result is a plan of what would be
  plotted: the title, the raw `xAxis[0].data` value (not yet parsed or
  truncated to each series' length), and one line per series with its
  label, colour and data.

Files:

* `wrappers.dfy` has `Option` and `Result`.
* `py_value.dfy` has the loosely typed JSON value and the Python
  operations the source applies to it:
  * truthiness;
  * `dict.get`;
  * the `in` operator on dictionaries, lists and strings;
  * subscripting and `[0]`;
  * iteration;
  * ASCII upper-casing;
  * decimal rendering of row numbers.

  An operation Python would refuse yields the exception it raises
  (`TypeError`, `KeyError`, `IndexError`, `AttributeError`).
* `comparatif.dfy` has the normaliser:
  * `BuildDto`, the reference definition on a typed DTO;
  * the method `BuildComparatifDto`, which builds the dictionary step by
    step with the source's loops. Its helper methods are
    `CheckEnergyFields`, `CheckRow` and `CheckRates`.
* `comparatif_properties.dfy` has what the normaliser promises.
* `chart.dfy` has the chart checks:
  * `ChartPlanFor`, the reference definition;
  * the method `GenerateChart`, with the series loop in the method
    `PlotSeries`.
* `chart_properties.dfy` has what the chart checks promise.

Each method is proved equal to its reference definition. The properties
are proved about the reference definitions.

Two behaviours of the code worth knowing:

* `createdOn` is formatted in the server's local time zone. No time zone
  is configurable.
* The normaliser compares `energyType` exactly, while the chart
  upper-cases it first. A lower-case `"gas"` therefore gets the gas chart
  title but is rejected by the normaliser (`CaseHandlingDiffers`).

## Model

| member | source | states |
|---|---|---|
| PyValue.Truthy | blog/views.py:169 | a value is falsy exactly when it is `None`, `""`, `0`, `False`, `[]` or `{}` |
| PyValue.Contains | blog/views.py:256 | `in` succeeds exactly on dictionaries, lists and strings, tests key membership on a dictionary, and otherwise raises `TypeError` |
| PyValue.Subscript | blog/views.py:256 | `[key]` succeeds exactly on a dictionary holding the key and returns its value; a dictionary without the key raises `KeyError`, anything else `TypeError` |
| PyValue.ItemZero | blog/views.py:96 | `[0]` succeeds exactly on a non-empty list or string, giving the first item or first character; a dictionary raises `KeyError` |
| PyValue.Get | blog/views.py:168 | `dict.get(key)` returns the stored value when the key is present, and `None` is the only value it can give for an absent key |
| PyValue.GetOr | blog/views.py:238 | `dict.get(key, default)` returns the stored value when the key is present and the default otherwise |
| PyValue.AsciiUpper | blog/views.py:123 | upper-casing keeps the length, leaves no ASCII lower-case letter, replaces each one by its upper-case letter and keeps every other character |
| PyValue.NatToString | blog/views.py:257 | the rendered number is a non-empty string of decimal digits whose value, read left to right, is the number, with no leading zero unless it is 0 |
| PyValue.Iterate | blog/views.py:254 | iterating a list yields its items. A string yields its one-character strings; a `for` loop over a rate list or a series list that is a string visits those. Only lists, strings and the empty dictionary iterate successfully. |
| Comparatif.Message | blog/views.py:170-257 | a missing-field message starts with "Missing required " and ends with the field; a not-allowed message starts by quoting the field; a rate message quotes the field and ends with the row number |
| Comparatif.ParseEnergyType | blog/views.py:184-235 | the energy type is recognised exactly when it is the string "GAS" or "ELECTRICITY", and then it is that kind's name |
| Comparatif.BuildDto | blog/views.py:166-260 | the createdOn error fires exactly when `createdOn` is missing or falsy; an accepted DTO holds `energyType` verbatim and equal to its kind's name, that kind's section copied from the input, the title or its default, and the rate list or its `[]` default |
| Comparatif.CreatedOnMillis | blog/views.py:173 | the millisecond count is defined exactly for a number (its value) or a boolean (`True` is 1, `False` is 0); anything else makes the division raise |
| Comparatif.FormatCreatedOn | blog/views.py:172-176 | the date string exists exactly when the value converts and the formatter accepts the millisecond count, and then it is the formatter's result |
| Comparatif.TakeSection | blog/views.py:191-219 | the section is the gas one exactly for GAS, and its entries hold every field of that type as `comparatif.get` returns it |
| Comparatif.SectionEntries | blog/views.py:191-219 | the keys `dto.update` adds are exactly the fields of the section's energy type |
| Comparatif.ToDict | blog/views.py:178-259 | the returned dictionary has exactly the keys title, createdOn, energyType, comparatifRate and the declared type's fields, with the DTO's values |
| Comparatif.EnergyError | blog/views.py:186-232 | a reported energy-field error is a missing required field of the kind or a not-allowed field of the other kind, and a not-allowed error is reported only when every required field passed |
| Comparatif.MissingFrom | blog/views.py:199-224 | a reported missing-field error names the kind being checked and a field of the scanned list |
| Comparatif.ForbiddenFrom | blog/views.py:206-232 | a reported not-allowed error names the kind being checked and a field of the scanned list |
| Comparatif.RowErrorFrom | blog/views.py:255-257 | a reported row error is a missing-field error or a raised exception carrying that row's number and one of the scanned fields |
| Comparatif.RowsErrorFrom | blog/views.py:254-257 | a reported rate error names a row number between the start and the list length (rows count from 1) and one of the eleven rate fields |
| Comparatif.RateFieldStatus | blog/views.py:256 | on a dictionary row a field is blank exactly when it is absent, `None` or `""`, and nothing raises; the only exception is `TypeError`, raised for a row that is not a dictionary, and always for `None`, numbers and booleans |
| Comparatif.RateList | blog/views.py:238 | the rate list is the stored `comparatifRate` or, when absent, the empty list |
| Comparatif.RatesError | blog/views.py:238-257 | a rate list that cannot be iterated reports that exception; any other error names a row between 1 and the number of rows and one of the eleven rate fields |
| Comparatif.CheckEnergyFields | blog/views.py:186-232 | the two `for` loops (required fields read from the DTO, forbidden fields read from the input) report exactly the reference energy-field error |
| Comparatif.CheckRow | blog/views.py:255-257 | the inner loop over the rate fields reports exactly the reference row error: the first absent or `None`/`""` field, or the exception `in` or `[...]` raises |
| Comparatif.CheckRates | blog/views.py:237-257 | the nested loops over rows and fields report exactly the reference rate error, including the exception raised when the rate list cannot be iterated |
| Comparatif.BuildComparatifDto | blog/views.py:166-260 | the step-by-step dictionary build (literal, `update`, checks, `comparatifRate` assignment) gives exactly the reference outcome: the same error, or the dictionary of the reference DTO |
| ComparatifProperties.StatusFilled | blog/views.py:256 | a rate field passes exactly when the row is a dictionary holding the key with a value other than `None` and `""` |
| ComparatifProperties.MissingFromNone | blog/views.py:199-224 | the required-field scan reports nothing exactly when every listed field is truthy |
| ComparatifProperties.MissingFromFirst | blog/views.py:199-224 | the required-field scan reports the first non-truthy field in list order |
| ComparatifProperties.ForbiddenFromNone | blog/views.py:206-232 | the forbidden-field scan reports nothing exactly when no listed field is truthy |
| ComparatifProperties.ForbiddenFromFirst | blog/views.py:206-232 | the forbidden-field scan reports the first truthy field in list order |
| ComparatifProperties.RowErrorNone | blog/views.py:255-257 | a row passes exactly when every listed field is filled |
| ComparatifProperties.RowErrorFirst | blog/views.py:255-257 | in a dictionary row, the first unfilled field in list order is reported as missing or empty |
| ComparatifProperties.RowsErrorNone | blog/views.py:254-257 | the row scan passes exactly when every row is filled |
| ComparatifProperties.RowsErrorFirst | blog/views.py:254-257 | the first unfilled row is the one reported, with its own row error |
| ComparatifProperties.NonObjectRowRejected | blog/views.py:256 | a rate row that is not a dictionary never passes |
| ComparatifProperties.ZeroAndFalseFillRateFields | blog/views.py:256 | `0` and `False` fill a rate field although they are falsy |
| ComparatifProperties.RatesErrorNoneIff | blog/views.py:238-257 | the rate check passes exactly for a list of filled rows, the empty string or the empty dictionary |
| ComparatifProperties.NonEmptyStringRateListRejected | blog/views.py:254-257 | a non-empty string as the rate list fails at row 1 on `partnerPhoto` |
| ComparatifProperties.CreatedOnCheckedFirst | blog/views.py:168-170 | a missing or falsy `createdOn` gives "Missing required field: createdOn" whatever else the payload holds |
| ComparatifProperties.InvalidCreatedOnIff | blog/views.py:168-176 | the createdOn conversion error fires exactly when `createdOn` is truthy but is not a number or boolean, or the formatter refuses it |
| ComparatifProperties.StringTimestampRejected | blog/views.py:172-176 | a millisecond timestamp sent as the string "1700000000000" gives the conversion error |
| ComparatifProperties.EnergyTypeMustMatchExactly | blog/views.py:184-235 | once `createdOn` converts, the energy-type error fires exactly when `energyType` is neither the string `"GAS"` nor `"ELECTRICITY"` |
| ComparatifProperties.LowercaseGasRejected | blog/views.py:234-235 | `"gas"` is rejected as an invalid energy type |
| ComparatifProperties.EnergyAcceptance | blog/views.py:186-232 | for either energy type, the payload is accepted exactly when the type's fields are all truthy, no field of the other type is truthy and the rate list passes |
| ComparatifProperties.FirstMissingRequiredReported | blog/views.py:186-232 | the first non-truthy required field is reported, whatever the other type's fields hold (required checks come before forbidden checks) |
| ComparatifProperties.FirstForbiddenReported | blog/views.py:186-232 | with every required field truthy, the first truthy field of the other type is reported |
| ComparatifProperties.FirstRateFailureReported | blog/views.py:237-257 | after the energy checks pass, the error names the first failing row (counted from 1) and, in it, the first failing field in list order |
| ComparatifProperties.AbsentRateListAccepted | blog/views.py:238 | an absent `comparatifRate` defaults to the empty list and passes |
| ComparatifProperties.SuccessfulDto | blog/views.py:178-260 | an accepted DTO holds the title or "Contexte global", the formatted date, `energyType` verbatim (and equal to its kind's name) and the rate list unchanged |
| ComparatifProperties.ToDictSection | blog/views.py:191-219 | the DTO dictionary holds its section's fields copied from the input and no field of the other type |
| ComparatifProperties.DtoKeysFollowEnergyType | blog/views.py:178-259 | the dictionary of an accepted DTO holds the declared type's fields, copied and truthy, and no key of the other type (a GAS DTO has no `pdl` or `segmentation`); its keys are exactly title, createdOn, energyType, comparatifRate and those fields |
| Chart.SeriesColor | blog/views.py:105-119 | series `idx` is drawn in the palette entry `idx % 4` |
| Chart.TitleFor | blog/views.py:124-126 | the gas title exactly for "GAS", the electricity title exactly for "ELECTRICITY", and the default title exactly for anything else |
| Chart.Label | blog/views.py:118 | the legend is the series' `label` when present, else "Series " followed by `NatToString(idx + 1)`: digits with no leading zero whose value is `idx + 1` |
| Chart.SeriesLines | blog/views.py:107 | a series value that cannot be iterated raises that exception; a passing loop yields one line per element iterated |
| Chart.NonEmptyField | blog/views.py:89 | the "missing or empty" test passes exactly when the container is a dictionary holding the key with a truthy value, and then returns that value; a dictionary never raises, and a raised error is `TypeError` on a non-dictionary |
| Chart.GenerateChart | blog/views.py:79-126 | the step-by-step checks and the series loop give exactly the reference chart plan or the reference error |
| Chart.PlotSeries | blog/views.py:107-120 | the `for` loop over the series, accumulating one line per series, gives exactly the reference series result |
| Chart.ChartPlanFor | blog/views.py:79-126 | the chart-data error fires exactly when `chartDataDto` is absent or falsy; an accepted plan holds truthy, parseable dates and the computed title |
| Chart.ChartTitle | blog/views.py:123-126 | the title is one of the three fixed titles, and the only exception is `AttributeError` |
| Chart.SeriesLine | blog/views.py:107-120 | an accepted series is a dictionary whose `data` becomes the line's values, drawn in `Palette[idx % 4]`; a rejection is the missing-data or numeric error for that index, or `TypeError` |
| Chart.LinesFrom | blog/views.py:107-120 | a passing loop yields one line per remaining series; a failing one reports `TypeError` or an error naming an index in the scanned range |
| Chart.ChartMessage | blog/views.py:84-114 | each "missing or empty" message starts with "Missing or empty field: " and ends with the field; the series messages name the series index |
| ChartProperties.SeriesLineAccepts | blog/views.py:107-114 | the loop body accepts exactly a dictionary series whose `data` is present, truthy and numeric |
| ChartProperties.SeriesLineValue | blog/views.py:116-120 | an accepted series is drawn with its label or "Series idx+1", the palette entry `idx % 4` and its data |
| ChartProperties.LinesFromAccepts | blog/views.py:106-120 | the series loop passes exactly when every series is accepted |
| ChartProperties.LinesFromShape | blog/views.py:106-120 | a passing series loop yields one line per series, in order, each the expected line |
| ChartProperties.LinesFromFirstFailure | blog/views.py:106-114 | the series loop reports the first rejected series' own error |
| ChartProperties.SeriesLinesAccepted | blog/views.py:106 | a truthy series value passes exactly when it is a list of accepted series; a non-empty string or dictionary never does |
| ChartProperties.FirstBadSeriesReported | blog/views.py:107-114 | for the first bad series of a list: a dictionary gives the missing-data error when `data` is absent or empty and the numeric error otherwise; a number, boolean or `None` raises `TypeError` |
| ChartProperties.ChartAcceptance | blog/views.py:83-126 | a payload gives a plan exactly when it has a dictionary `chartDataDto`, non-empty `xAxis` and `series`, a first axis element with non-empty parseable `data`, a list of accepted series and a computable title; the plan holds those dates, the expected line of every series in order and that title |
| ChartProperties.MissingFieldsReportedInOrder | blog/views.py:83-102 | the checks fire in order: `chartDataDto`, then `xAxis`, then `series`, then `xAxis[0].data`, then the date parse |
| ChartProperties.FirstBadSeriesFailsChart | blog/views.py:107-114 | once the payload checks pass, the chart fails at the smallest index of a rejected series, with that series' own error |
| ChartProperties.ColorsCycle | blog/views.py:105 | the series colour repeats every four series, and four consecutive series get four different colours |
| ChartProperties.ChartTitleChoice | blog/views.py:123-126 | the title is "Évolution Gaz" exactly when the upper-cased energy type is "GAS", "Évolution Électricité" exactly when it is "ELECTRICITY", and "Évolution des Prix" otherwise |
| ChartProperties.GasInAnyCase | blog/views.py:123-124 | the upper-cased energy type is "GAS" exactly when it is "gas" in any mix of ASCII cases |
| ChartProperties.MissingEnergyTypeGivesDefaultTitle | blog/views.py:123 | a missing comparison DTO or energy type gives "Évolution des Prix" |
| ChartProperties.NonStringEnergyTypeRaises | blog/views.py:123 | a comparison DTO that is not a dictionary, or an energy type that is not a string, raises `AttributeError` |
| ChartProperties.CaseHandlingDiffers | blog/views.py:123-126 | a lower-case "gas" gives the gas chart title, yet the normaliser rejects it |

## Left out

- The Django request and response handling, CSRF and JSON parsing (`volt_consulting_presentation`, `parse_request_data`) are framework I/O. The payloads are parameters.
- `volt_consulting_presentation` calls the chart before the normaliser. That order, and what it does with their results, is not modelled.
- The plotting, axis formatting, legend and PNG/base64 encoding are a foreign rendering library. So is any error matplotlib raises, for example when a series is longer than the dates.
- Chart.ChartPlanFor: the plan holds the unparsed `xAxis[0].data` value, not the parsed and truncated `dates[:len(y)]` the plot receives. The `TypeError`s raised while those plot arguments are built are not modelled. For example, `len(y)` fails on a scalar series `data` such as `5`, and slicing fails when `xAxis[0].data` is a lone date string. So `ChartAcceptance` accepts some payloads that the source rejects at the plot call. The plot runs inside the series loop, so a plot error at one series comes before any check of a later one. `LinesFromFirstFailure` and `FirstBadSeriesFailsChart` therefore hold for the model's loop, where plotting never fails. For example, with series 0 `{"data": 5}` and series 1 lacking `data`, the source raises `TypeError` at series 0, while the model reports the missing data of series 1.
- `pd.to_datetime(..., format="%d/%m/%Y")` and `np.array(..., dtype=np.float64)` are the abstract predicates `parsesDates` and `isNumeric`. The text of their exception messages is not modelled.
- `datetime.fromtimestamp(ms / 1000.0).strftime("%d/%m/%Y")` is the parameter `formatDate`. It depends on the local time zone and on float division.
- JSON numbers are integers: floating-point values are not modelled. A fractional `createdOn` is therefore outside the model.
- PyValue.Iterate: iterating a non-empty dictionary depends on key insertion order, which a map cannot hold. It yields the distinct error `KeyOrder`, not the keys in order.
- PyValue.AsciiUpper: `.upper()` is modelled for ASCII letters only. Non-ASCII case mappings (`"ß"` becoming `"SS"`, accented letters) are not modelled. For the chart title this matters: Python maps `"ſ"` to `"S"` and `"ı"` to `"I"`, so `"gaſ"` and `"electrıcıty"` get a typed title in the source and the default title in the model. `GasInAnyCase` and `ChartTitleChoice` describe the ASCII upper-casing only.
- Comparatif.Message: for a Python exception raised inside the rate loop, the model gives only the exception's class name, not Python's message text. For an unconvertible `createdOn` it gives the prefix only.
- Chart.ChartMessage: likewise, a Python exception raised by the chart checks gives only its class name. The date and numeric errors give only the prefix, without the library's message.
- `generate_pdf` (filesystem, UUIDs, WeasyPrint, path choice) and the static-URL and default-text section builders are not part of this model. They are I/O and constant template glue.
- The `print` tracing is output only.
