# Smart System Health Monitor — a verified model of the monitoring core

This project models, in Dafny, the deterministic core of the Smart System Health Monitor. Each
monitoring cycle in that system does the following:

- It classifies every reading of a metrics snapshot into a severity tier (normal < warning < high < critical).
- It sends the non-normal results through a cooldown-gated alert manager.
- It folds the tiers into a weighted health score and a failure-risk percentage.
- It looks up remediation suggestions per (metric, tier) and deduplicates them.
- It stores the record as the analyzer's last analysis.

Around that cycle the project models:

- the rule-based failure predictor;
- the dashboard's own fixed-deduction health verdict, with its global alert cooldown;
- the time helpers: `seconds_to_hms`, `is_same_day`, and the day and week ranges;
- the report generator's cell parsing, column averaging, date-range row filter and daily score.

One Dafny module per source file:

| module | file | source |
|---|---|---|
| `Thresholds` | thresholds.dfy | config/thresholds.py |
| `HealthScore` | health_score.dfy | utils/health_score.py |
| `Alerts` | alerts.dfy | core/alerts.py |
| `Analyzer` | analyzer.dfy | core/analyzer.py |
| `Suggestions` | suggestions.dfy | core/suggestions.py |
| `Predictor` | predictor.dfy | core/predictor.py |
| `Dashboard` | dashboard.dfy | dashboard/app.py |
| `TimeUtils` | time_utils.dfy | utils/time_utils.py |
| `Reports` | reports.dfy | reports/system_report_generator.py |
| `Settings` | settings.dfy | the constants of config/settings.py |
| `Wrappers`, `Seqs`, `Decimal` | wrappers.dfy, seqs.dfy, decimal.dfy | shared helpers: `Option`, order-preserving filter, decimal digit strings |

## Modelling choices

**The clock.** Every clock read (`time.time()`, `datetime.now()`) becomes a parameter. One analysis
cycle, one bulk trigger and one dashboard enrichment each use a single `now`, and the range helpers
take `today` when no date string is given.

**The alert manager** is a class.

- `last_alert_time` is a `map` field.
- The console, email and desktop channels are abstract sinks. Every enabled channel appends one
  `Dispatch` message to a `log` field, so "what was sent" can be stated and proved.
- The invariant `Valid()` says the log is storm-free: two messages with the same key come from one
  firing or lie a full cooldown apart.

**The analyzer** is a class.

- It owns `lastAnalysis` and shares the alert manager and suggestion engine as `const` fields.
- Each metric block of `analyze_metrics` is the method `Collect`.
- The cycle is proved equal to the pure specification `Classify` / `NonNormal` / `CycleRecord`.

**Snapshots.**

- `ram` and `disk` hold their "percent" entry.
- `None` stands for a missing reading: the key is absent, the value is `None`, or the nested dict is empty.

**Instants** in the time and report helpers are integers: microseconds counted from the start of the
proleptic Gregorian ordinal day 0. `datetime.combine(d, time.max)` is the last microsecond of the day.

**Errors.** Wherever Python would raise (`strptime` ValueError, a `timedelta` overflow past
9999-12-31), the model returns `None`.

**The worked health-score example.** For cpu 92 (critical), ram 50 and disk 40 with the configured
weights, 100 − 30/0.85 ≈ 64.7, which `int()` truncates to 64 (`HealthScore.CriticalCpuScenario`).

## Model

| member | source | states |
|---|---|---|
| Thresholds.GetStatus | config/thresholds.py:134-153 | at or above the critical bound the tier is critical; normal only strictly below the warning bound; on an ordered table the tier is at least u (above normal) exactly when the value reaches u's bound, which fixes the tier |
| Thresholds.BoundaryInclusive | config/thresholds.py:146-151 | each tier's lower bound is inclusive: value == high < critical gives high, value == critical gives critical |
| Thresholds.NormalIffBelowWarning | config/thresholds.py:146-153 | on an ordered table a value is normal exactly when it is below the warning bound |
| Thresholds.NormalBoundUnused | config/thresholds.py:146-153 | the table's "normal" entry never affects the tier |
| Thresholds.GetStatusMonotone | config/thresholds.py:146-153 | with warning <= high <= critical, a larger value never gets a lower tier |
| Thresholds.ThresholdMapOrdered | config/thresholds.py:17-129 | every table registered in THRESHOLD_MAP is ordered normal <= warning <= high <= critical |
| Thresholds.PriorityFor | config/thresholds.py:109-114 | an unknown status gets LOW; a tier's priority has the tier's rank |
| Thresholds.PriorityOrderPreserving | config/thresholds.py:109-114 | the tier-to-priority mapping preserves and reflects order and is injective |
| HealthScore.SeverityPenalty | utils/health_score.py:22-27 | penalties lie in 0..100 and an unknown status costs 0 |
| HealthScore.PenaltyMonotone | utils/health_score.py:22-27 | a higher tier never has a smaller penalty; normal costs 0 and critical 100 |
| HealthScore.Trunc | utils/health_score.py:92 | `int()` truncates toward zero: the largest integer not above a non-negative argument, the smallest not below a negative one |
| HealthScore.HealthScoreOf | utils/health_score.py:59-96 | empty input, or a total weight of zero, gives the maximum score; with min <= max the score lies in [min, max] |
| HealthScore.CalculateHealthScore | utils/health_score.py:32-96 | the accumulator loop computes exactly HealthScoreOf |
| HealthScore.UnweightedItemsIgnored | utils/health_score.py:73-74 | dropping the results whose metric has no weight leaves the score unchanged |
| HealthScore.UnweightedStatusIrrelevant | utils/health_score.py:73-74 | changing the status of an unweighted metric never changes the score |
| HealthScore.TotalWeightNonnegative | utils/health_score.py:76-80 | non-negative weights give a non-negative total weight |
| HealthScore.ContributionMonotone | utils/health_score.py:76-79 | with non-negative weights a higher penalty never contributes less |
| HealthScore.WorseStatusNeverRaisesScore | utils/health_score.py:77-92 | raising one result's penalty never increases the score (non-negative weights) |
| HealthScore.AllNormalNoPenalty | utils/health_score.py:77-79 | an all-normal input accumulates no penalty |
| HealthScore.AllCriticalFullPenalty | utils/health_score.py:77-80 | an all-critical input accumulates 100 times the total weight |
| HealthScore.AllNormalScoresMax | utils/health_score.py:82-92 | an all-normal input scores the maximum |
| HealthScore.AllCriticalScoresZero | utils/health_score.py:86-92 | with range (0, 100) and non-zero total weight, an all-critical input scores 0 |
| HealthScore.PositiveWeightsCount | utils/health_score.py:73-82 | with positive weights, one weighted result makes the total weight positive, so the zero-weight fallback is not taken |
| HealthScore.CriticalCpuScenario | utils/health_score.py:59-96 | critical cpu beside normal ram and disk with the configured weights scores 64 |
| HealthScore.AllHighWithoutCpuRamScenario | utils/health_score.py:59-96 | with cpu and ram absent and disk, network and temperature high, the exact-real score is 50 (see Left out) |
| Alerts.AfterCheck | core/alerts.py:50-61 | a key that may fire is stamped with now; a suppressed key leaves the map unchanged; every other key is untouched |
| Alerts.CanFire | core/alerts.py:52-59 | a key never fired may fire; a fired key may fire again once at least the cooldown has passed since its last firing |
| Alerts.CanFireLater | core/alerts.py:52-59 | a key that may fire at some time may fire at any later time |
| Alerts.Dispatches | core/alerts.py:139-156 | one firing sends exactly one message to each enabled channel and none to a disabled one, in console, email, desktop order, each carrying the alert's metric, status, value, priority and time |
| Alerts.Trigger | core/alerts.py:126-156 | disabled alerting changes nothing; a first alert for a key, or one at least the cooldown after its last firing, stamps the key and appends exactly Dispatches of the alert (every enabled channel once); otherwise nothing changes; the log only grows, and only with this alert's messages |
| Alerts.TriggerAll | core/alerts.py:161-174 | the bulk trigger only appends to the log |
| Alerts.AlertManager.constructor | core/alerts.py:40-41 | the cooldown map and the log start empty and the manager is valid |
| Alerts.AlertManager.CanSendAlert | core/alerts.py:46-61 | answers whether the key may fire and updates the cooldown map as AfterCheck says |
| Alerts.AlertManager.TriggerAlert | core/alerts.py:126-156 | the new state is Trigger of the old state, and the storm-free invariant is kept |
| Alerts.AlertManager.TriggerBulkAlerts | core/alerts.py:161-174 | the new state is that of trigger_alert applied to each item in list order |
| Alerts.TriggerPreservesStormFree | core/alerts.py:46-61 | one firing keeps every pair of same-key messages simultaneous or a full cooldown apart |
| Alerts.TriggerAllPreservesStormFree | core/alerts.py:169-174 | a bulk trigger keeps the log storm-free |
| Alerts.TriggerAllAppend | core/alerts.py:169-174 | two bulk calls at one time equal one call on the concatenated list |
| Alerts.TierNamesHaveNoSeparator | core/alerts.py:134 | no tier name contains '_' |
| Alerts.SeparatorAfterMetric | core/alerts.py:134 | in a key whose status has no '_', the last '_' follows the metric |
| Alerts.AlertKeyInjective | core/alerts.py:134 | keys built from statuses without '_' determine metric and status |
| Alerts.DifferentKeysNeverSuppress | core/alerts.py:46-61 | firing an alert never changes whether an alert for another metric or another tier may fire |
| Alerts.CooldownWithoutChannels | core/alerts.py:136-156 | the cooldown is stamped even when no channel is enabled |
| Alerts.CooldownScenario | core/alerts.py:52-61 | the same alert 100 s later is suppressed; 301 s later it fires again |
| Alerts.IndependenceScenario | core/alerts.py:134-137 | a critical cpu alert does not suppress a simultaneous critical ram alert |
| Analyzer.AnalyzeMetric | core/analyzer.py:51-65 | a result exactly for a registered metric with a value, carrying that value and the tier get_status gives it against the metric's table |
| Analyzer.AppendStep | core/analyzer.py:80-133 | one more metric block keeps the results faithful and in metric order |
| Analyzer.ClassifyWellFormed | core/analyzer.py:80-133 | every result is a monitored metric with the value read for it and that value's tier; results follow cpu, ram, disk, network, temperature order without repeats |
| Analyzer.ClassifyComplete | core/analyzer.py:80-133 | a monitored metric has a result exactly when the snapshot has a reading for it |
| Analyzer.NetworkIsSumOfRates | core/analyzer.py:112-121 | the network value classified is upload plus download |
| Analyzer.AlertQueueExact | core/analyzer.py:84-133 | the alert queue is an order-preserving subsequence of the results holding exactly the non-normal ones |
| Analyzer.AlertQueueIsFilter | core/analyzer.py:84-133 | queueing block by block equals filtering the concatenated results |
| Analyzer.NormalNeverDispatched | core/analyzer.py:138-143 | triggering only non-normal alerts never dispatches a message with status "normal" |
| Analyzer.FailureRisk | core/analyzer.py:187-198 | the risk lies in 0..100; it is the accumulated sum when that is below 100 and exactly 100 otherwise |
| Analyzer.RiskSumByTierCounts | core/analyzer.py:189-195 | the accumulated risk is 10 per warning, 20 per high and 35 per critical |
| Analyzer.FailureRiskClosedForm | core/analyzer.py:187-198 | the failure risk is min(100, 10·warnings + 20·highs + 35·criticals) |
| Analyzer.RiskScenarios | core/analyzer.py:187-198 | five criticals give 100 (capped from 175); a warning and a high give 30 |
| Analyzer.CycleRecord | core/analyzer.py:148-171 | the cycle record holds the classified results, a score within the configured range, a risk in 0..100 and duplicate-free suggestions |
| Analyzer.Collect | core/analyzer.py:80-85 | one metric block appends its result, and its non-normal result to the queue |
| Analyzer.Classify | core/analyzer.py:74-133 | at most one result per monitored metric (ClassifyWellFormed and ClassifyComplete state which) |
| Analyzer.CollectResults | core/analyzer.py:74-133 | the five blocks produce Classify(snapshot) and exactly its non-normal subsequence as the queue |
| Analyzer.SystemAnalyzer.constructor | core/analyzer.py:45-46 | no analysis recorded yet |
| Analyzer.SystemAnalyzer.AnalyzeMetrics | core/analyzer.py:70-178 | the returned record is CycleRecord of the snapshot, last_analysis equals it, and the alert manager's new state is the bulk trigger of the non-normal results at now |
| Analyzer.SystemAnalyzer.DispatchAlerts | core/analyzer.py:138-143 | each queued alert goes to trigger_alert in order |
| Analyzer.SystemAnalyzer.EstimateFailureRisk | core/analyzer.py:183-205 | the loop and the threshold scan return FailureRisk of the results |
| Suggestions.LoadRules | core/suggestions.py:36-114 | the table covers the five monitored metrics, each with exactly warning, high and critical, and has no entry for normal |
| Suggestions.CpuRules | core/suggestions.py:42-57 | the cpu entry has exactly the warning, high and critical tiers |
| Suggestions.RamRules | core/suggestions.py:58-71 | the ram entry has exactly the warning, high and critical tiers |
| Suggestions.DiskRules | core/suggestions.py:72-85 | the disk entry has exactly the warning, high and critical tiers |
| Suggestions.NetworkRules | core/suggestions.py:86-99 | the network entry has exactly the warning, high and critical tiers |
| Suggestions.TemperatureRules | core/suggestions.py:100-113 | the temperature entry has exactly the warning, high and critical tiers |
| Suggestions.Dedup | core/suggestions.py:145 | the result has no duplicates and holds exactly the texts of its input |
| Suggestions.DedupKeepsFirstOccurrenceOrder | core/suggestions.py:145 | deduplicated texts appear in the order of their first occurrence |
| Suggestions.MatchedMembership | core/suggestions.py:135-142 | a text is matched exactly when the entry of some input item lists it |
| Suggestions.UnmatchedItemsContributeNothing | core/suggestions.py:139-142 | items whose metric or status has no entry can be dropped without changing the matched texts |
| Suggestions.AllNormalYieldsNothing | core/suggestions.py:133-152 | with no entry for normal, an all-normal or empty input yields no suggestion |
| Suggestions.SuggestionEngine.constructor | core/suggestions.py:30-31 | the engine's table has the shape LoadRules promises |
| Suggestions.SuggestionEngine.Generate | core/suggestions.py:119-152 | the result is the deduplicated matched texts: no duplicates, and a text is present exactly when some item's entry lists it; the engine is not modified |
| Predictor.RuleRisk | core/predictor.py:85-100 | the risk is one of 0, 20, 40, 60, 80, 100 |
| Predictor.RuleBasedPrediction | core/predictor.py:80-110 | rule-based mode; the probability is RuleRisk of the looked-up readings (missing ones read 0); confidence is 60 plus a quarter of the probability, so it lies in 60..85; high risk exactly when the risk is at least 75 |
| Predictor.HighRiskIff | core/predictor.py:87-108 | high risk exactly for cpu > 85 with ram > 90, or cpu > 85 with ram > 75 and disk > 85, or cpu > 70 with ram > 90 and disk > 85 |
| Predictor.CapNeverBinds | core/predictor.py:85-100 | the cap at 100 never binds: the risk is the plain sum of the three strict rules |
| Predictor.RuleRiskMonotone | core/predictor.py:87-100 | higher readings never lower the risk |
| Predictor.EmptyAnalysisIsCalm | core/predictor.py:81-83 | missing readings count as 0: risk 0, confidence 60, not high risk |
| Predictor.FailurePredictor.constructor | core/predictor.py:39-58 | a model is loaded only when ML prediction is enabled and the model loads |
| Predictor.FailurePredictor.Predict | core/predictor.py:115-153 | with no model loaded, or when inference fails, the rule-based prediction; otherwise the model's outcome |
| Dashboard.StatusOf | dashboard/app.py:97-111 | Critical iff score <= 40, Warning iff 40 < score <= 70, Healthy iff score > 70 |
| Dashboard.Assess | dashboard/app.py:62-121 | the score lies in 0..100; problems, reasons and suggestions hold one entry per fired rule, in cpu, ram, disk order; status and message follow the score |
| Dashboard.Column | dashboard/app.py:66-91 | one entry per rule, in rule order |
| Dashboard.AppendRule | dashboard/app.py:72-91 | firing one more rule appends its entries and takes its penalty off |
| Dashboard.TotalPenaltyConcat | dashboard/app.py:70-91 | penalties add up over concatenated rule lists |
| Dashboard.PenaltyFormula | dashboard/app.py:70-91 | the fired rules take off 40 for cpu > 85, 40 for ram > 90 and 20 for disk > 85 |
| Dashboard.ScoreFormula | dashboard/app.py:70-91 | score = 100 − 40·[cpu>85] − 40·[ram>90] − 20·[disk>85] |
| Dashboard.CriticalIff | dashboard/app.py:70-98 | Critical exactly when cpu and ram are overloaded, or one of them together with the disk; neither cpu nor ram overloaded means Healthy |
| Dashboard.CooldownBoundaryDiffers | dashboard/app.py:100 | exactly 300 s after a firing the alert manager fires again (>=) while the dashboard's AlertDue (>) is false; whenever AlertDue holds, the alert manager would fire too |
| Dashboard.DashboardState.constructor | dashboard/app.py:53 | LAST_ALERT_TIME starts at 0 |
| Dashboard.DashboardState.EnrichAnalysis | dashboard/app.py:59-123 | the analysis gains the Assess verdict; the alert is shown, and LAST_ALERT_TIME becomes now, exactly for a Critical verdict more than 300 s after the last shown alert; otherwise LAST_ALERT_TIME is unchanged |
| Dashboard.Diagnose | dashboard/app.py:66-91 | the three rule blocks produce Assess's score and lists |
| Dashboard.CheckRule | dashboard/app.py:72-77 | one rule block keeps the score and the lists equal to those of the rules fired so far |
| Decimal.NatToString | utils/time_utils.py:140 | decimal digits only; a single digit exactly below 10 |
| Decimal.NatToStringRoundTrip | utils/time_utils.py:140 | reading a printed number back gives the number |
| Decimal.FixedWidthInjective | utils/time_utils.py:69-70 | equal-length digit strings with the same value are equal |
| TimeUtils.Field2 | utils/time_utils.py:140 | `:02` gives at least two characters; two digits for 0..99; digits only for non-negative numbers |
| TimeUtils.HmsFields | utils/time_utils.py:137-139 | hours·3600 + minutes·60 + secs equals the input, with minutes and secs in 0..59 |
| TimeUtils.Field2RoundTrip | utils/time_utils.py:140 | a padded field reads back as its number |
| TimeUtils.FieldsRoundTrip | utils/time_utils.py:137-140 | three printed fields read back as their total |
| TimeUtils.SecondsToHms | utils/time_utils.py:133-140 | the text is "H:MM:SS": an hours field of any width, then two-digit minutes and seconds below 60 |
| TimeUtils.SecondsToHmsRoundTrip | utils/time_utils.py:133-140 | seconds_to_hms loses nothing: its text reads back as the input seconds, negative inputs included |
| TimeUtils.SecondsToHmsInjective | utils/time_utils.py:133-140 | different durations never print the same |
| TimeUtils.Weekday | utils/time_utils.py:122 | weekday() lies in 0..6 |
| TimeUtils.Ordinal | utils/time_utils.py:104-105 | `toordinal()` is at least 1 for every valid date |
| TimeUtils.DaysBeforeNextYear | utils/time_utils.py:104-105 | consecutive years start 365 days apart, 366 after a leap year |
| TimeUtils.YearsOrdered | utils/time_utils.py:104-105 | every day of a year has a smaller ordinal than the first day of any later year |
| TimeUtils.OrdinalOrdered | utils/time_utils.py:104-105 | ordinals follow calendar order: an earlier date has a smaller ordinal |
| TimeUtils.OrdinalInjective | utils/time_utils.py:104-105 | two valid dates have the same ordinal exactly when they are the same date |
| TimeUtils.DayStart | utils/time_utils.py:104 | the first instant of a day is a whole number of days, namely its ordinal |
| TimeUtils.DayEnd | utils/time_utils.py:105 | the last instant of a day comes after its first and one microsecond before the next day's first |
| TimeUtils.ParseDate | utils/time_utils.py:100 | a parsed date is a valid calendar date |
| TimeUtils.ParseFormattedDate | utils/time_utils.py:100 | every valid date written zero-padded as "YYYY-MM-DD" parses back to itself |
| TimeUtils.ParseTimestamp | utils/time_utils.py:69-70 | a parsed timestamp is 19 characters, valid, and its date is the parse of its first 10 characters |
| TimeUtils.ParseDateInjective | utils/time_utils.py:100 | two date strings this zero-padded parser reads as the same date are equal (see Left out) |
| TimeUtils.IsSameDay | utils/time_utils.py:58-71 | an answer exactly when both timestamps parse |
| TimeUtils.IsSameDayIffDatePart | utils/time_utils.py:69-71 | on parseable timestamps, same day exactly when the date parts are equal |
| TimeUtils.IsSameDayReflexiveSymmetric | utils/time_utils.py:69-71 | reflexive on parseable timestamps, and symmetric |
| TimeUtils.ResolveDate | utils/time_utils.py:99-102 | no date exactly for a non-empty unparseable string; a resolved date is valid |
| TimeUtils.GetDayRange | utils/time_utils.py:89-107 | no range exactly for a non-empty unparseable date; otherwise the range is the first and last instant of the resolved date, from midnight to one microsecond before the next midnight |
| TimeUtils.DayRangeHoldsExactlyItsDay | utils/time_utils.py:104-105 | an instant is inside a day's range exactly when it falls on that day |
| TimeUtils.GetDayRangeHoldsResolvedDate | utils/time_utils.py:89-107 | the returned range holds an instant exactly when the instant falls on the resolved date |
| TimeUtils.WeekStartDay | utils/time_utils.py:122 | the start is a Monday within the six days before the date, never before day 1 |
| TimeUtils.WeekRangeOf | utils/time_utils.py:122-128 | Monday 00:00 to the following Sunday's last microsecond; none exactly when that Sunday is past 9999-12-31 |
| TimeUtils.WeekRangeHoldsItsDate | utils/time_utils.py:122-126 | the week range holds the whole date and spans seven days |
| TimeUtils.GetWeekRange | utils/time_utils.py:112-128 | the week range of the resolved date; none for an unparseable date |
| TimeUtils.WeekRangeAtEndOfTime | utils/time_utils.py:122-123 | 9999-12-31 has no week range; 9999-12-26 has one |
| TimeUtils.LastDateOrdinal | utils/time_utils.py:123 | 9999-12-31 is ordinal day 3652059 |
| Reports.ParseDecimal | reports/system_report_generator.py:33-37 | a run of digits reads as its integer value; a number with a leading '-' is at most 0, any other at least 0; empty text is unparseable |
| Reports.ToFloat | reports/system_report_generator.py:33-37 | a missing or unparseable cell reads 0.0; a run of digits reads as its value |
| Reports.ToFloatReadsWholeNumbers | reports/system_report_generator.py:33-37 | a written whole number reads back as that number |
| Reports.ToFloatDefaultsToZero | reports/system_report_generator.py:33-37 | missing, empty and non-numeric cells read 0.0 |
| Reports.ToFloatReadsDecimals | reports/system_report_generator.py:33-37 | "12.5" reads 12.5 and "-0.5" reads -0.5 |
| Reports.DotAfterDigits | reports/system_report_generator.py:33-37 | in digits followed by '.', the first '.' is the one after the digits |
| Reports.ParseDigitsDotDigits | reports/system_report_generator.py:33-37 | "digits.digits" reads as the whole part plus the fraction |
| Reports.ParseDecimalNegated | reports/system_report_generator.py:33-37 | a leading '-' before text starting with a digit negates its value, and parses exactly when the text does |
| Reports.ParseDecimalReadsFraction | reports/system_report_generator.py:33-37 | for all digit runs A (non-empty) and B, the text "A.B" parses, and its value is A + B/10^len(B) (so "45.3" reads 45.3) |
| Reports.ParseDecimalReadsNegativeFraction | reports/system_report_generator.py:33-37 | for all digit runs A (non-empty) and B, the text "-A.B" parses, and its value is -(A + B/10^len(B)) |
| Reports.ToFloatReadsFractions | reports/system_report_generator.py:33-37 | a cell "A.B" of digit runs reads as A + B/10^len(B), and a cell "-A.B" as its negation |
| Reports.AveragesOf | reports/system_report_generator.py:42-72 | no averages exactly for no rows; each average times the row count is its column sum |
| Reports.ComputeAverages | reports/system_report_generator.py:42-72 | no rows give no averages; otherwise each average is the column sum over the row count |
| Reports.RowSumBounds | reports/system_report_generator.py:57-62 | a column sum lies between the count times the smallest and the largest value read |
| Reports.AverageWithinBounds | reports/system_report_generator.py:64-72 | an average lies between the smallest and the largest value read in its column |
| Reports.FilterRowsByDate | reports/system_report_generator.py:77-92 | the loop keeps exactly the rows of the filter, in order |
| Reports.FilterRowsByDateExact | reports/system_report_generator.py:81-92 | the kept rows are an order-preserving subsequence; each kept row parses into the inclusive range; every such row is kept; rows with a missing, empty or unparseable timestamp are dropped |
| Reports.DailyAnalysis | reports/system_report_generator.py:127-133 | every status fed to the scorer is normal |
| Reports.DailyHealthScore | reports/system_report_generator.py:126-144 | the daily health score is always 100 |
| Reports.DailyReport | reports/system_report_generator.py:97-144 | no report exactly for an empty log, an unparseable date or a day without rows; a report's score is 100, its date is the resolved date, and its averages are those of the rows inside that day |

## Left out

- File and CSV I/O, report file writing and `append_daily_stats`: side effects only. The daily report is modelled on the rows it reads and stops where the files are written.
- Logging, SMTP email, console and desktop printing: each enabled channel is one message in the alert manager's dispatch log.
- The ML path of `predict`: model loading, features, `predict_proba`. It appears only as an optional outcome parameter, with `None` when inference raises.
- `_save_prediction`: a fire-and-forget append to a file.
- The clock reads `time.time()` and `datetime.now()`: they are parameters. The source reads the clock once per `trigger_alert`; the model uses one `now` per cycle or bulk call.
- `get_current_timestamp`, `get_current_date`, `get_unix_timestamp`, `sleep_seconds`, `is_new_day`: pure clock reads and sleeping.
- `round(..., 2)`: predictor confidences are exact multiples of 5, so nothing is lost there. Report averages are unrounded reals.
- Reports.ParseDecimal: `float()` is modelled on plain decimal text only (sign, digits, one dot). Exponents, surrounding whitespace, underscores, "inf" and "nan" read as unparseable (0.0) here, although Python accepts them.
- TimeUtils.ParseDate: only the zero-padded "YYYY-MM-DD" form is accepted (ParseFormattedDate states that every valid date in that form is). `strptime` also accepts unpadded fields such as "2024-1-5", which the model rejects; so ParseDateInjective holds of this parser only, and GetDayRange, GetWeekRange and DailyReport give no range or report for such strings where the source gives one.
- TimeUtils.ParseTimestamp: only the zero-padded "YYYY-MM-DD HH:MM:SS" form is accepted. `strptime` also accepts unpadded fields such as "2024-1-5 7:3:9".
- TimeUtils.SecondsToHms: integer seconds only. The source also accepts floats, which it truncates with `int()` after the floor division.
- Reports.DailyReport: where the source raises on an unparseable date argument, the model returns no report. The weekly report is not part of this model.
- HealthScore.WorseStatusNeverRaisesScore: proved for non-negative weights only. A negative weight reverses the effect, and the configured weights are all positive.
- Analyzer.SystemAnalyzer.AnalyzeMetrics: `last_analysis` is returned by reference in the source, so a caller that mutates the returned dict (as the dashboard does) also changes the analyzer's copy. That aliasing is not modelled; the record is a value.
- Dashboard.DashboardState.EnrichAnalysis: the source adds a "health" key to the caller's dict in place and returns it; the model returns a new value pairing the record with its health entry.
- Suggestions.LoadRules: the table is built by methods, so its texts are visible in their bodies only. The contracts state its shape, not the individual texts.
- Predictor.Lookup: the predictor reads a dict of raw readings, its own documented input. The callers in main.py and the dashboard pass it the analyzer's list instead, which would fail in the source.
- The network snapshot fields: `upload_mb_s`/`download_mb_s` are the analyzer's documented input. The collector produces differently named keys; that mismatch is not modelled.
- Python's `None` for cpu in the dashboard (`metrics.get("cpu", 0)` returns `None` for a present `None`), and non-numeric readings in general: readings are reals or absent.
- Analyzer.SystemAnalyzer.AnalyzeMetrics: a non-empty ram or disk dict without a "percent" key, or a network dict missing "upload_mb_s" or "download_mb_s", makes the source raise KeyError (core/analyzer.py:91, 102, 114-115). A snapshot reading is `Option<real>`, so the model has no such input and never raises.
- HealthScore.HealthScoreOf: weights, penalties and the division are exact reals; the source adds IEEE doubles before `int()`. Where the float quotient lands just below an integer the model scores one point higher. With cpu and ram absent and disk, network and temperature all "high", 0.25 + 0.10 + 0.05 is 0.39999999999999997 in doubles, so the source computes 100 − 20/0.39999999999999997 = 49.99999999999999 and scores 49. The model scores exactly 50 (`HealthScore.AllHighWithoutCpuRamScenario`). Analyzer.CycleRecord, and so AnalyzeMetrics, inherits this difference.
