# Agricultural climate-risk engine: a verified model

The model covers the three parts of the engine:

1. The threshold provider derives the thresholds for one crop and growth stage. It copies a base map of named limits and applies four clamped rules in a fixed order. A later rule reads what an earlier one wrote.
2. The risk evaluator takes a forecast of 3-hourly samples and works in two phases.
   - It folds the samples into one running summary per calendar day.
   - It then scans the upcoming days in ascending order, at most five of them. Each day is checked for frost, flood or a heavy-rain burst, high wind and prolonged humidity. Two streak counters track drought and heatwaves. The result is a per-category report plus the overall list of alerts, day after day.
3. The advisory composer turns that report into an ordered list of advice lines:
   - an error line when there is no report;
   - a no-risk line when nothing was triggered;
   - otherwise a header, one block per triggered category in a fixed order, at most seven detail lines with a truncation marker, and a two-line disclaimer.

## Files

| File | Module | Contents |
|---|---|---|
| `wrappers.dfy` | `Wrappers` | `Option` with `GetOr` (an absent dictionary entry and its fallback). |
| `numeric.dfy` | `Numeric` | `Max` and `Min` of two reals. |
| `thresholds.dfy` | `Thresholds` | The default thresholds, the four adjustment rules and `AdjustThresholds`, which works as a chain of map updates. |
| `aggregation.dfy` | `DailyAggregation` | Samples, day summaries and the `Fold` step. `Aggregate` is a loop over a summary map, proved equal to `Aggregated`, a specification by per-day sample lists. Reference definitions (sum, positive intervals, extrema) characterise each summary field. |
| `risk_rules.dfy` | `RiskRules` | The specification of the scan: the per-day checks, streak counters, drought and heatwave checks, the overall alert list `OverallAlerts` over the evaluated days, the window of evaluated days and the report `ReportOf`, with the lemmas that state what each alert means. |
| `risk_analysis.dfy` | `RiskAnalysis` | The evaluator as imperative code. Input validation, aggregation, and the day scan (`Evaluate`, with early `continue` and `break`) all update the report step by step. Each step is proved against the `RiskRules` specification. |
| `advisories.dfy` | `Advisories` | The composer. `GenerateAdvisories` appends lines step by step and is proved equal to `Advice`. Lemmas state which headers, stage lines, details and markers `Advice` contains. |

Modelling choices:
- Days are integers (day numbers). The current day `today` is a parameter. So is the timestamp-to-day conversion `dayOf`, which returns a `Conversion` with three outcomes:
  - `Converted(day)`: the timestamp maps to a local calendar day.
  - `YearOutOfRange`: the date falls outside the calendar's years, which Python reports as `ValueError`. The handler around one sample catches it, and the sample is skipped.
  - `PlatformOverflow`: the timestamp is beyond the platform's time range, which Python reports as `OverflowError` or `OSError`. That handler does not catch these, so the outer handler ends the evaluation with the initial report.
- Measurements and thresholds are reals, and streak counters are naturals compared as reals.
- Alerts are a datatype carrying the values their text would print, so "an earlier heatwave detail ends on this day" is a field comparison.
- Python's `sorted` over `YYYY-MM-DD` keys is modelled as ascending day numbers (`RiskRules.Ascending`).
- The report is a value. The composer receives it as `Option<RiskReport>`, where `None` stands for a missing or empty report, and cannot change it.

## Model

| member | source | states |
|---|---|---|
| Thresholds.DefaultsAreAdjustFallbacks | src/config.py:4-11 | The base thresholds hold, under the heat, drought-days, frost and wind keys, the values 38, 7, 2 and 15 that the adjustment rules fall back to. |
| RiskRules.DefaultsAreFallbacks | src/risk_analysis.py:118-170 | Evaluating with the base thresholds uses the same limits as evaluating with an empty threshold map: the evaluator's fallbacks are the base values. |
| Thresholds.AdjustThresholds | src/config.py:13-32 | The result keeps every base key and adds exactly the keys the applicable rules write. Keys no rule writes keep their base values, and no applicable rule gives the base map. Each rule's clamped value and bound hold, with the defaults 38/7/2/15 when a key is absent. The rice rule starts from the value the stage rule left, and Rice+Flowering equals rule 1 followed by rule 2. A drought-days limit of at least 3 stays at least 3. |
| DailyAggregation.FoldSummarizes | src/risk_analysis.py:75-89 | Folding one more sample into a summary of the earlier samples gives a summary of all of them: count, humidity list, extrema, rain sum and positive intervals. |
| DailyAggregation.SummarizeMeaning | src/risk_analysis.py:69-89 | A day's summary, starting from the -100/200 sentinels, has count = number of samples and one humidity entry per sample (absent ones included). Max/min temperature are the extremes of the sentinel and the present values; a missing value never moves them. Wind max is over 0 and the present speeds. Total rain sums the rains, absent as 0. The intervals are exactly the strictly positive rains in arrival order. |
| DailyAggregation.DaysOfMeaning | src/risk_analysis.py:55-69 | A day has a summary iff some accepted entry falls on it. An accepted entry is a record with a timestamp that converts to a day. Entries that are not records, lack `dt` or have a year out of range create no day. |
| DailyAggregation.SkippedEntry | src/risk_analysis.py:55-64 | An entry that is not a record, lacks `dt` or has a year out of range leaves every daily summary unchanged. |
| DailyAggregation.FoldStep | src/risk_analysis.py:64-89 | Folding an accepted entry into its day's summary, fresh when the day is new, keeps the map equal to the summaries of all entries so far. |
| DailyAggregation.SamplesOnCount | src/risk_analysis.py:55-89 | A day's count and humidity-list length both equal the number of accepted entries on that day. |
| DailyAggregation.Aggregate | src/risk_analysis.py:51-95 | The loop stops, reporting an abort, iff some record's timestamp overflows the platform's range. Otherwise it builds exactly the map of the accepted days, each holding the fold of its samples in arrival order. |
| RiskRules.Ascending | src/risk_analysis.py:105 | The sorted day keys are strictly increasing and hold exactly the days of the map. |
| RiskRules.AscendingUnique | src/risk_analysis.py:105 | Any strictly increasing sequence of exactly these days is the sorted order. |
| RiskRules.ReportOfMeaning | src/risk_analysis.py:16-24 | In the report, a category's warning is set iff some alert of that category was raised, and its details are exactly those alerts in order. No alert gives the initial report. |
| RiskRules.SelectMeaning | src/risk_analysis.py:120-199 | An alert is among a category's details iff it is in the overall list and of that category. |
| RiskRules.DailyChecksMeaning | src/risk_analysis.py:118-163 | For one day, each of the frost, flood, burst, wind and humidity alerts is raised iff its condition holds. The burst is checked only when the flood total is not reached. |
| RiskRules.DailyChecksOnly | src/risk_analysis.py:118-163 | A day raises no other frost, wind or humidity alert than the one for its own values, and at most one flood-category alert. |
| RiskRules.DailyAlertIn | src/risk_analysis.py:107-199 | A per-day alert is in the overall list iff its day was evaluated and that day's checks raise it. |
| RiskRules.FrostIff | src/risk_analysis.py:118-123 | Frost is raised for day d iff d is evaluated and its minimum temperature is at or below the frost limit; any frost alert of d carries d's values. |
| RiskRules.FloodIff | src/risk_analysis.py:127-142 | The flood alert fires iff total rain reaches the daily limit. Otherwise the burst alert fires iff the largest interval reaches the 3-hour limit. A day has at most one flood-category alert. |
| RiskRules.WindIff | src/risk_analysis.py:145-151 | Wind is raised for d iff d is evaluated and its maximum wind speed reaches the limit; any wind alert of d carries d's values. |
| RiskRules.HumidityIff | src/risk_analysis.py:154-163 | Humidity is raised for d iff d is evaluated, three times the number of present readings at or above the limit reaches the duration limit, and d has at least one present reading. |
| RiskRules.DroughtOnce | src/risk_analysis.py:167-182 | The drought details never hold more than one alert. One is recorded iff the dry-day counter (reset by any day over the rain limit) reached the drought-days limit on some evaluated day. |
| RiskRules.HeatwaveEndsDistinct | src/risk_analysis.py:185-196 | Every heatwave detail is a heatwave alert, and no two heatwave details name the same ending day. |
| RiskRules.HeatEndsIn | src/risk_analysis.py:189-196 | Every heatwave detail ends on an evaluated day. |
| RiskRules.HeatwaveOnStreak | src/risk_analysis.py:185-196 | Over increasing days, a heatwave detail ends on the k-th evaluated day iff the hot-day counter on that day reached the heatwave-days limit, so the ending-day check never suppresses a streak. |
| RiskRules.HeatwaveOnLast | src/risk_analysis.py:185-196 | On increasing days, a heatwave detail ends on the last evaluated day iff the hot-day counter on that day reached the limit. |
| RiskRules.HeatwaveOnEarlier | src/risk_analysis.py:189-196 | Evaluating a later day adds no heatwave detail ending on an earlier day. |
| RiskRules.DayDrought | src/risk_analysis.py:177-182 | A day adds to the drought details exactly its drought check. |
| RiskRules.DayHeat | src/risk_analysis.py:189-196 | A day adds to the heatwave details exactly its heatwave check. |
| RiskRules.OverallDroughtDetails | src/risk_analysis.py:177-199 | The drought details after a day are those before it plus that day's drought alert, if any. |
| RiskRules.OverallHeatDetails | src/risk_analysis.py:189-199 | The heatwave details after a day are those before it plus that day's heatwave alert, if any. |
| RiskRules.WindowFacts | src/risk_analysis.py:105-203 | The evaluated days are increasing, at most five, none before today and all among the forecast days. A day on or after today is left out only when five earlier days were already evaluated. |
| RiskRules.UpcomingFacts | src/risk_analysis.py:107-110 | The days kept by the past-day filter are exactly the days not before today, in increasing order. |
| RiskRules.UpcomingAppend | src/risk_analysis.py:107-110 | Filtering out past days distributes over concatenation of the day list. |
| RiskRules.PastOnlyIsQuiet | src/risk_analysis.py:107-110 | A forecast whose days are all before today gives the initial report. |
| RiskAnalysis.Record | src/risk_analysis.py:120-123 | Recording an alert appends it to the day's alerts, keeps the report equal to the one specified for them, and sets the alert's category warning. |
| RiskAnalysis.CheckFrost | src/risk_analysis.py:118-123 | The frost step appends exactly the day's frost check to the day's alerts and the report. |
| RiskAnalysis.CheckFlood | src/risk_analysis.py:127-142 | The flood step appends exactly the day's flood-or-burst check. |
| RiskAnalysis.CheckWind | src/risk_analysis.py:145-151 | The wind step appends exactly the day's wind check. |
| RiskAnalysis.CheckHumidity | src/risk_analysis.py:154-163 | The humidity step appends exactly the day's humidity check. |
| RiskAnalysis.CheckDay | src/risk_analysis.py:116-163 | The four per-day steps produce exactly the day's daily checks, in order. |
| RiskAnalysis.CheckDrought | src/risk_analysis.py:167-182 | The drought step appends the drought check, which fires only while no drought warning is set, with start day = day - (streak - 1). |
| RiskAnalysis.CheckHeatwave | src/risk_analysis.py:169-196 | The heatwave step appends the heatwave check, skipped when a detail already ends on this day. |
| RiskAnalysis.EvaluateDay | src/risk_analysis.py:112-199 | One evaluated day turns the report of the earlier days into the report of these days plus this one and updates both counters to their specified streaks. |
| RiskAnalysis.Evaluate | src/risk_analysis.py:101-208 | The scan returns the report of the alerts of the evaluated window of the sorted days. |
| RiskAnalysis.Assess | src/risk_analysis.py:8-218 | An absent, non-dictionary or list-less document, or an empty list, gives the initial report (no warning, no details, no alerts). So does a timestamp that overflows the platform's range. Otherwise the result is the scan over the aggregated days. |
| Advisories.Shown | src/advisories.py:67-70 | The listed alerts are a prefix of the overall alerts, of length min(7, count). |
| Advisories.AppendDetails | src/advisories.py:64-73 | The detail loop appends one detail line per listed alert, then the marker exactly when alerts were left out. |
| Advisories.AppendDrought | src/advisories.py:37-44 | The drought step appends the drought block exactly when the drought warning is set. |
| Advisories.AppendBlocks | src/advisories.py:37-61 | The six category steps append the six blocks in the fixed order. |
| Advisories.GenerateAdvisories | src/advisories.py:4-88 | No report gives exactly the error line; no warning gives exactly the no-risk line. Otherwise the result has at least three lines, opens with the header and ends with the separator and the disclaimer; in every case it is the specified advice. |
| Advisories.AnyWarningMeaning | src/advisories.py:23 | The warning check holds iff some category other than the overall list is triggered. |
| Advisories.AnyWarningTriggered | src/advisories.py:23-30 | The warning check holds iff the list of triggered categories is non-empty. |
| Advisories.TriggeredMeaning | src/advisories.py:37-61 | A category is listed as triggered iff it is in the order and its warning is set. |
| Advisories.TriggeredInOrder | src/advisories.py:37-61 | The triggered categories come in the order drought, flood, heatwave, frost, wind, humidity. |
| Advisories.AdviceHeaders | src/advisories.py:32-61 | The category headers of the advice are exactly the triggered categories, in the fixed order. |
| Advisories.AdviceStageLines | src/advisories.py:37-44 | The advice holds exactly one stage line if drought is triggered, and none otherwise. |
| Advisories.AdviceStageLine | src/advisories.py:41-44 | For Flowering or Fruiting/Maturity, the critical-stage line is present iff drought is triggered. The irrigation-schedule line is present iff drought is triggered at any other stage. |
| Advisories.AdviceDetails | src/advisories.py:64-70 | When warned, the detail lines list the first seven overall alerts in order; otherwise there are none. |
| Advisories.AdviceMarkers | src/advisories.py:64-73 | When warned, the details header is present iff the overall list is non-empty. The truncation marker is present iff there are more than seven alerts. |
| Advisories.DetailsSectionMarkers | src/advisories.py:65-73 | The details section has its header iff there are alerts and its marker iff there are more than seven. |
| Advisories.BlockViews | src/advisories.py:37-61 | A category block holds that category's header iff it is triggered, and a stage line only for drought. |

## Left out

- Web front end, geocoding and weather HTTP clients (`app.py`, `src/geocoding.py`, `src/weather.py`): network and form I/O. Only the adjust, assess, advise order of the pipeline matters, and it is the order the modules compose in.
- Logging everywhere, including the list-type check before the final log line of the composer. It only decides what is logged; the result is a sequence by construction.
- Alert and advice text: number formatting, emoji and wording. Alerts are a datatype, and advice lines are constructors. The humidity average only feeds alert text and is not modelled.
- `datetime.fromtimestamp` and `date.today()` depend on the time zone and the clock. They are the parameters `dayOf` and `today`, and `dayOf` also says which timestamps fail to convert and how. Apart from the pre-1000 case below, the date-string round trip (`strftime`/`strptime`) is the identity on day numbers.
- The exception handlers are modelled only where a well-typed input reaches them, which is the timestamp conversion (`Conversion` above): a year out of range skips the sample, and a platform overflow ends the evaluation with the initial report.
- The per-day handler catches errors for one day. Two inputs reach it:
  - A date string of a year before 1000. Some platforms do not pad such a year to four digits, so the string is not parsed back. That day is also before today, so the model skips it like any past day, with the same outcome.
  - The drought start date, computed as day minus (streak - 1), falling past the last representable date.
- RiskAnalysis.CheckDrought: day numbers are unbounded, so the model does not capture that overflow. It needs a drought-days limit of 0 or less, which lets the alert fire with a streak of 0 and a start date one day after the current one, on 9999-12-31. The source then leaves that day half-applied: the drought warning is set without a detail, and the day's earlier alerts sit in their categories but not in the overall list. That day's heatwave check is skipped, and the scan goes on with the next day. The model instead records the drought alert with start day d + 1 and keeps all of the day's alerts. The adjustment never produces such a limit from the base thresholds: their drought-days value is 7, and `Thresholds.AdjustThresholds` keeps any value of at least 3 at or above 3.
- Other raises, for non-numeric values in a sample or a threshold, are ruled out by the model's types.
- Samples whose fields hold non-numbers, a threshold map that is not a dictionary, and report dictionaries with missing or extra keys: the types of the model rule them out. The composer's `risks` is a report value, or `None` for every falsy value.
- Advisories.AnyWarningMeaning: the source scans every key of the report dictionary except `overall_alerts`. The model's report has exactly the six category keys, so extra keys are not modelled.
- The crop type reaches the composer only through the logging call and is not a parameter of `GenerateAdvisories`.
- The `elif i == 7` branch of the detail loop is modelled as the case of more than seven alerts, since the loop stops at that index.
