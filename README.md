# Participation compliance engine: a Dafny model

This project models the compliance aggregation engine of `stage_calculation.py`. The engine takes a participant's per-day activity evidence and buckets it into study weeks. For each stage it produces:

- a weekly count matrix;
- a percentage matrix;
- a self-report average and a biometrics average per week;
- a dollar amount per week ($3 for self-report, $4 for biometrics) and a stage total.

Dates are integer day numbers. Query results are abstract inputs:

- sets of qualifying days;
- sequences of survey submissions or ring-day rows;
- a function from day to wear percentage for the ring vendor's API.

## Modules

- `Wrappers`: `Option`, `Result` and the failures the source raises.
  - `KeyError`: a missing dict key.
  - `LengthMismatch`: the DataFrame constructor rejecting rows of unequal length.
  - `QueryError`: a failing Trino query.
- `Windows`: `calculate_postpartum_weeks_from_delivery`, as a specification function `WindowsUpTo` and the loop `PostpartumWeeks`.
- `DayCount`: the day-walking counter shared by the postpartum adapters, and `get_weekly_wear_count` over an abstract per-day percentage.
- `Evidence`: the evidence records and the qualifying rules.
  - Six distinct questions make a question day.
  - The tracked survey names.
  - The Oura 0.75 threshold and the Ultrahuman 216-of-288 threshold.
- `Postpartum`: the seven `*_postpartum` adapters. Each one:
  - builds its day set or by-date survey map with a loop;
  - walks each window day by day;
  - pads the series with zeros;
  - is proved equal to a specification function about whose meaning lemmas are proved.
- `Gestational`: the SQL adapters as pure functions.
  - The anchor is `edd - 280`.
  - Trino's week index truncates toward zero, so gestational week 1 spans 13 days.
  - The check-in calendar, the seven survey flags, `COALESCE` for weight and `GREATEST` for blood pressure.
- `Frames`: the `frame` dict as a class with keys in insertion order.
- `Normalizer`: `show_percentage_heatmap_for_stage`.
  - It rewrites the frame in place.
  - It averages by position, truncating the sum before dividing by 3.
  - It applies the inclusive 70 thresholds and sums the stage total.
- `Stage`: the frame-building part of `show_heatmap_for_stage`, both branches. `ShowHeatmapForStage` is proved to return `StageReport`, and the lemmas about `StageReport` state what each branch yields. `GestationalTableIntended` is the gestational table with the vendor-API row written and a missing due date reported.
- `WearCache`: the read-through cache of `calculate_daily_wear`, and `get_weekly_wear_count` run through it.
  - A response body is JSON with or without its `temp` samples, JSON of another shape, or not JSON.
  - `Store` is the `.cache` directory as a class whose methods update its map of bodies.
  - A second, intended rule stores only finished days and is checked against an endpoint whose answer for a day may change until the day is over.

## What the code does against what its comments and names promise

The model follows the code as written. Each behaviour below is stated as a lemma, and "## Findings" pairs it with the evidently intended definition.

- **Week numbering truncates.** The week index `1 + date_diff('day', w1, day) / 7` (line 68) and the calendar comments "start of first_week" and "end of last_week" (lines 253-254) treat weeks as 7-day blocks from w1. Trino's integer division truncates toward zero, so offsets -6..6 all fall in week 1 (`Gestational.GaWeekOne`). The two readings agree only from the anchor on (`Gestational.GaWeekFromAnchor`).
- **Gestational weight is a coalesce.** The postpartum weight adapter counts the union of the HealthKit and Google Fit days (lines 1171-1242). The gestational query instead takes the HealthKit count when the week has one, and only otherwise the Google Fit count (line 578, `Gestational.WeightIsNotUnion`).
- **The gestational vendor-API branch raises an error.** Line 785 assigns into `frame["Smart ring wear (~19h/day)"][i]`, a key the dict literal of lines 768-774 never creates. So every stage with at least one week fails with `KeyError` (`Stage.GestationalApiKeyError`).
- **The postpartum vendor-API ring row is never converted.** The normalizer converts the ring rows `"UH - Smart ring wear (~19h/day)"` and `"Oura - Smart ring wear (~19h/day)"` as days/7 of 100 (lines 826-829). The vendor-API row is stored under `"Smart ring wear (~19h/day)"` (line 758) and matches no branch. Its raw day counts enter the biometrics average, which then never reaches 70 (`Stage.PostpartumApiRingNeverPaysBiometrics`).
- **A missing due date breaks the matrix.** The `w1` CTE keeps only participants with a non-null `edd_final` (line 243), so without one the gestational queries return no rows. The DataFrame of line 789 then rejects the empty first row against the week index (`Stage.MissingDueDateLengthError`).
- **The cache stores today's data.** The comment at line 197 says "cache only past data", but `date < datetime.today()` compares the date's midnight with the current instant. So today's still-incomplete body is stored (`WearCache.TodayIsStored`) and served on later days in place of the finished one (`WearCache.StaleTodayServed`).

## Model

| member | source | states |
|---|---|---|
| Windows.WindowsShape | stage_calculation.py:977-986 | window i is week first+i, with start delivery+7(w-1) and end min(start+6, delivery+postpartum_days); week w is in the list iff its start is not after the period end, so the listed weeks are a contiguous prefix of first..last |
| Windows.IncludedMonotone | stage_calculation.py:984 | inclusion is downward closed: a week before an included week is included |
| Windows.WindowsNonEmpty | stage_calculation.py:979-985 | every returned window has start <= end |
| Windows.WindowsWithinPeriod | stage_calculation.py:977-985 | for first_week >= 1 every window lies within [delivery, delivery+postpartum_days] and spans at most 7 days |
| Windows.PostpartumWeeks | stage_calculation.py:967-986 | None exactly when delivery_date or postpartum_days is falsy (postpartum_days = 0 included), otherwise the window list of `WindowsUpTo` built by the loop |
| DayCount.CountDays | stage_calculation.py:1014-1022 | the day-walking counter returns the number of days of [start, end] in the day set, at most end-start+1 |
| DayCount.DaysInBound | stage_calculation.py:1014-1022 | a window's count is at most its number of days |
| DayCount.DaysInIgnoresOutside | stage_calculation.py:1014-1022 | a day outside [start, end] does not change the count |
| DayCount.DaysInNone | stage_calculation.py:1014-1022 | a window counts 0 iff none of its days is in the day set |
| DayCount.WeeklyWearCount | stage_calculation.py:219-227 | the count is the number of days of [start, end] whose percentage is present and at least 75, at most the number of days |
| DayCount.WornDaysBound | stage_calculation.py:219-227 | the worn days of a range are at most its number of days |
| DayCount.WearThreshold | stage_calculation.py:206-209 | samples/288*100 >= 75 iff samples >= 216 |
| Evidence.QuestionDaysMeaning | stage_calculation.py:1060-1075 | a day is a question day iff it has an answer and at least 6 distinct questions answered on it |
| Evidence.QuestionDaysIn | stage_calculation.py:1060-1075 | restricting answers to a date range before grouping yields the question days of that range |
| Evidence.UhWornThreshold | stage_calculation.py:1402 | samples_in_day >= 0.75*288 iff samples_in_day >= 216 |
| Evidence.FilterDistinctDays | stage_calculation.py:119-150 | when no two rows share a day, the number of kept rows is the number of days they fall on |
| Postpartum.DaySeriesMeaning | stage_calculation.py:1013-1028 | a day-set adapter's series has last-first+1 entries; entry i is the count of week first+i (0 past the last window) and lies in 0..7 |
| Postpartum.WeekCountZero | stage_calculation.py:990-992 | a week without delivery information or past the period counts 0 |
| Postpartum.WeekCountInWindow | stage_calculation.py:1014-1022 | for week >= 1 the count is the qualifying days of the week's window (the date filter of the query is implied) |
| Postpartum.OutsideDayIgnored | stage_calculation.py:1014-1022 | adding a qualifying day outside every window leaves the series unchanged |
| Postpartum.NoWindowsAllZero | stage_calculation.py:990-992 | with no delivery information or no included window the series is all zeros of the stage length |
| Postpartum.CountWindows | stage_calculation.py:1013-1026 | the window loop and zero padding produce the padded per-window counts |
| Postpartum.SymptomsPostpartum | stage_calculation.py:988-1028 | calculate_daily_symptoms_postpartum returns the day series of the check-in days |
| Postpartum.QuestionsPostpartum | stage_calculation.py:1030-1095 | calculate_daily_questions_postpartum returns the day series of the days with at least 6 distinct questions |
| Postpartum.SurveysByDateMeaning | stage_calculation.py:1146-1152 | the by-date map has a day iff some submission is on it, and holds exactly the survey names submitted that day |
| Postpartum.GroupSurveys | stage_calculation.py:1146-1152 | the grouping loop builds the by-date map of the rows |
| Postpartum.GroupsNonEmpty | stage_calculation.py:1146-1152 | every grouped day holds at least one survey name |
| Postpartum.SurveyTotalPositive | stage_calculation.py:1155-1162 | a window's survey total is at least 1 iff some day of the window has a submission |
| Postpartum.CountSurveys | stage_calculation.py:1155-1162 | the day walk sums the number of distinct survey names per day |
| Postpartum.WindowFlagMeaning | stage_calculation.py:1155-1163 | min(count, 1) is 0 or 1, and 1 iff a tracked survey was submitted within the period and the window |
| Postpartum.SurveySeriesMeaning | stage_calculation.py:1097-1169 | the questionnaire series has last-first+1 entries in {0, 1}; an entry is 1 iff delivery information exists, the week is included and a tracked survey was submitted in the period and the week's window |
| Postpartum.SurveysPostpartum | stage_calculation.py:1097-1169 | calculate_weekly_bimontly_surveys_postpartum returns the questionnaire series |
| Postpartum.WeightPostpartum | stage_calculation.py:1171-1242 | calculate_weight_measurements_postpartum returns the day series of the union of the Google Fit and HealthKit weight days |
| Postpartum.BpPostpartum | stage_calculation.py:1244-1331 | calculate_bp_measurements_postpartum returns the day series of the union of the three blood-pressure sources |
| Postpartum.CollectOuraWornDays | stage_calculation.py:1354-1358 | the loop collects exactly the days whose wear fraction is at least 0.75 |
| Postpartum.OuraPostpartum | stage_calculation.py:1333-1375 | calculate_daily_wear_from_oura_postpartum returns the day series of the Oura worn days |
| Postpartum.CollectUhWornDays | stage_calculation.py:1399-1403 | the loop collects exactly the days with at least 0.75*288 samples |
| Postpartum.UhPostpartum | stage_calculation.py:1377-1420 | calculate_daily_wear_from_uh_postpartum returns the day series of the Ultrahuman worn days |
| Postpartum.ApiWearSeriesMeaning | stage_calculation.py:750-757 | the vendor-API ring series has last-first+1 entries; entry i is the worn days of week first+i's window (0 past the period) and lies in 0..7 |
| Postpartum.WearApiPostpartum | stage_calculation.py:750-757 | the per-window loop and padding return the vendor-API ring series |
| Gestational.GaWeekLater | stage_calculation.py:249 | for w >= 2 a day is in gestational week w iff it lies in [w1+7(w-1), w1+7w-1] |
| Gestational.GaWeekOne | stage_calculation.py:249 | a day is in week 1 iff it lies in [w1-6, w1+6]: truncating division folds the six days before the anchor into week 1 |
| Gestational.GaWeekFromAnchor | stage_calculation.py:68 | from the anchor on, the week index is 1 + (days since w1) div 7 |
| Gestational.WeekDaysLater | stage_calculation.py:326-345 | from week 2 on, a week's qualifying days are those of its seven-day window, at most 7 |
| Gestational.WeekDaysOne | stage_calculation.py:326-345 | week 1's qualifying days are those of the 13 days w1-6..w1+6 |
| Gestational.CalendarCoversEveryWeek | stage_calculation.py:245-257 | every week of the stage has a calendar day, its first day, so the grouped check-in query yields a row for it |
| Gestational.SymptomsWeekBound | stage_calculation.py:245-280 | for first_week >= 1 each week's check-in count is the check-in days of its seven days, at most 7 |
| Gestational.QuestionnaireCountRange | stage_calculation.py:447-454 | the weekly questionnaire count, a sum of seven 0/1 flags, lies in 0..7 |
| Gestational.ExceptionOutsideItsWeek | stage_calculation.py:428-431 | a MAAS, EPDS or PASS submission outside week 20, 28 or 32 respectively changes no week's count |
| Gestational.EpdsOnlyInWeek28 | stage_calculation.py:430 | an EPDS submitted in week 28 counts 1 there; submitted in week 27 or 29 it counts in no week |
| Gestational.WeightIsNotUnion | stage_calculation.py:578 | one HealthKit day hides two Google Fit days of the same week: the count is 1 while the union has 3 and Google Fit alone 2 |
| Gestational.WeightCountBound | stage_calculation.py:578 | the weight count never exceeds the union of the two sources' days in the week |
| Gestational.BpCountMeaning | stage_calculation.py:707 | the blood-pressure count equals one source's count, is at least each source's, and at most their union |
| Gestational.TrackedSubmissions | stage_calculation.py:368-393 | a submission is kept iff it is one of the responses and its survey is one of the tracked names |
| Gestational.QuestionnaireCountZero | stage_calculation.py:424-454 | a week counts 0 iff no submission of the week counts in it (its survey is tracked and it is not a MAAS, EPDS or PASS outside week 20, 28 or 32) |
| Gestational.OuraCountSumsRows | stage_calculation.py:74-81 | the Oura week count is the sum of the worn flags of the rows in the week: adding a row adds 1 if it is worn and in the week, and 0 otherwise |
| Gestational.OuraRowsNotDays | stage_calculation.py:48-81 | two worn rows on one day make the week count 2 while the week has one worn day |
| Gestational.OuraCountOneRowPerDay | stage_calculation.py:48-81 | when no two rows share a day, the Oura week count is the number of worn days in the week |
| Gestational.UhCountMeaning | stage_calculation.py:119-151 | with one Ultrahuman row per day (the GROUP BY of the query), the week count is the number of worn days in the week, and from week 2 on at most 7 |
| Gestational.SymptomsGestationalMeaning | stage_calculation.py:229-283 | no due date gives no rows; a reversed range fails the calendar query; otherwise one entry per week, and for first_week >= 1 entry i is the check-in days of week first+i's seven days, at most 7 and 0 iff there are none |
| Gestational.QuestionsGestationalMeaning | stage_calculation.py:285-363 | one entry per week; entry i is the days of week first+i with at least 6 distinct questions, 0 iff there are none, at most 7 from week 2 on and taken over w1-6..w1+6 in week 1; a reversed range gives zeros |
| Gestational.SurveysGestationalMeaning | stage_calculation.py:366-462 | one entry per week, each in 0..7 and 0 iff no submission of the week counts in it |
| Gestational.WeightGestationalMeaning | stage_calculation.py:465-592 | each week counts the HealthKit days when the week has any and the Google Fit days otherwise; the count is at most the union of the two, 0 iff the union is empty, and at most 7 from week 2 on |
| Gestational.BpGestationalMeaning | stage_calculation.py:594-721 | each week counts one source's days, at least each source's and at most the union; 0 iff the union is empty, at most 7 from week 2 on |
| Gestational.OuraGestationalMeaning | stage_calculation.py:32-103 | one entry per week, entry i being the Oura count of week first+i, at most the number of rows; with one row per day the worn days of the week, at most 7 from week 2 on |
| Gestational.UhGestationalMeaning | stage_calculation.py:105-170 | one entry per week; with one row per day entry i is the worn days of week first+i of the week, 0 iff none, at most 7 from week 2 on; a reversed range gives zeros |
| Gestational.FloorWeekSevenDays | stage_calculation.py:68 | under floor division a day is in week w iff it lies in [w1+7(w-1), w1+7w-1], so every week, week 1 included, has at most 7 qualifying days |
| Gestational.WeekOneDiffers | stage_calculation.py:68 | the day before the anchor is in week 1 under truncating division and in week 0 under floor division |
| Gestational.WeightUnionBound | stage_calculation.py:578 | the weekly count over the union of the HealthKit and Google Fit days is at least each source's count and at least the coalesced count, at most their sum, and at most 7 from week 2 on |
| Frames.Frame.Table | stage_calculation.py:789 | the rows in insertion order, one per key, each with the key's values |
| Frames.Frame.FromRows | stage_calculation.py:768-774 | a dict literal with distinct keys yields those rows as the table, in the literal's order |
| Frames.Frame.Put | stage_calculation.py:737-760 | frame[key] = values replaces in place or appends a new key at the end; on a new key the rows gain that row at the end |
| Frames.Frame.Get | stage_calculation.py:785 | frame[key] succeeds iff some row of Table() has that key, and then returns that row's values; otherwise it fails with KeyError on the key |
| Normalizer.Percent | stage_calculation.py:813-845 | unmatched keys keep their raw value; the questionnaire is 100 iff at least 1, else 0; twice-weekly rows are 100 from 2 on; non-negative inputs up to the cap map into [0, 100] |
| Normalizer.PercentMonotone | stage_calculation.py:813-845 | each conversion is monotone, sends 0 to 0 and its cap (7, 1 or 2) to 100 |
| Normalizer.WeightHalf | stage_calculation.py:830-837 | one weight or blood-pressure measurement is 50% |
| Normalizer.RingApiConverted | stage_calculation.py:826-829 | under the intended conversion the vendor-API ring key is converted as days/7 of 100: monotone, 7 days give 100, while as written 7 days stay 7; every other key is converted as before |
| Normalizer.RingApiBiometricsWeek | stage_calculation.py:848-857 | a week with two weight days, two pressure days and seven ring days averages 69 as written and 100 with the ring key converted |
| Normalizer.ConvertRow | stage_calculation.py:818-825 | the per-key list builder produces each value's percentage |
| Normalizer.NormalizeFrame | stage_calculation.py:813-845 | the loop rewrites every normalized key's row to its percentages in place, leaves the other rows and the key order unchanged |
| Normalizer.Trunc | stage_calculation.py:848-849 | astype(int) truncates toward zero |
| Normalizer.ColumnSumBounds | stage_calculation.py:848-849 | a column sum of rows in [0, 100] lies in [0, 100 times the number of rows] |
| Normalizer.AverageThreshold | stage_calculation.py:848-857 | an average reaches 70 iff the truncated sum reaches 210 |
| Normalizer.AverageBounds | stage_calculation.py:848-849 | three rows in [0, 100] average into [0, 100] |
| Normalizer.WeeklyComp | stage_calculation.py:854-857 | the weekly amount is in {0, 3, 4, 7}; it includes $3 iff self-report >= 70 and $4 iff biometrics >= 70 |
| Normalizer.StageTotalMeaning | stage_calculation.py:890 | the stage total is 3 per qualifying self-report week plus 4 per qualifying biometrics week, between 0 and 7 per week |
| Normalizer.CountWhereBound | stage_calculation.py:890 | the qualifying weeks are at most all weeks |
| Normalizer.FirstMismatch | stage_calculation.py:847 | a row is reported iff some row does not have one value per week, and the reported key belongs to such a row |
| Normalizer.Summarize | stage_calculation.py:847-857 | the summary fails iff some row has the wrong length; otherwise the averages are the positional first-three and remaining-row averages, each week's amount follows from them and the total is their sum |
| Normalizer.ThreeRowSum | stage_calculation.py:848-849 | the column sum of three rows is the sum of their three values |
| Normalizer.RowsOfLength | stage_calculation.py:847 | rows of the stage length pass the length check, before and after conversion |
| Normalizer.SixRowWeek | stage_calculation.py:848-849 | in week j of a six-row frame, the positional self-report average is the truncated sum of rows 1-3's percentages over 3 and the biometrics average that of rows 4-6 |
| Normalizer.ShowPercentageHeatmap | stage_calculation.py:811-858 | the caller's frame ends up holding the percentage rows, and the result is the summary of that converted frame |
| Stage.FiveRowFrame | stage_calculation.py:737-743 | the dict literal holds the five activity rows in order symptom, questions, questionnaire, weight, blood pressure |
| Stage.RingPostpartum | stage_calculation.py:745-760 | the postpartum ring row is the Oura, vendor-API or Ultrahuman series under its key |
| Stage.BuildPostpartumFrame | stage_calculation.py:737-760 | the postpartum frame holds the six postpartum rows in insertion order |
| Stage.BuildGestationalFrame | stage_calculation.py:768-787 | the gestational frame holds the five rows plus the ring row, or fails like the source: query error, or KeyError in the vendor-API loop |
| Stage.ShowHeatmapForStage | stage_calculation.py:724-789 | the stage's raw matrix and percentage summary, or the error raised on the way |
| Stage.SurveySeriesLength | stage_calculation.py:1165-1169 | the postpartum questionnaire series has one entry per stage week |
| Stage.PostpartumRowsHaveStageLength | stage_calculation.py:737-760 | every postpartum row has one value per stage week |
| Stage.PostpartumReport | stage_calculation.py:727-760 | with is_postpartum and both delivery fields truthy the raw matrix is the six postpartum rows of the stage length and the report is built |
| Stage.SixRowReport | stage_calculation.py:847-857 | a six-row raw matrix of the stage length is reported; week j's self-report comes from the check-in, question and questionnaire percentages and its biometrics from the weight, blood-pressure and ring percentages |
| Stage.ReportOfRaw | stage_calculation.py:789 | a raw matrix whose rows all have the stage length is reported with the summary of its converted rows |
| Stage.PostpartumApiRingNeverPaysBiometrics | stage_calculation.py:750-758 | with the vendor API the unconverted ring row keeps biometrics below 70, so each week pays 0 or 3 |
| Stage.GestationalApiKeyError | stage_calculation.py:778-785 | outside the postpartum branch, the vendor-API ring with at least one week fails with KeyError on "Smart ring wear (~19h/day)" |
| Stage.MissingDueDateLengthError | stage_calculation.py:768-789 | without a due date and with at least one week, the table-based gestational matrix fails on the symptom row's length |
| Stage.ReversedRangeQueryError | stage_calculation.py:251-256 | with a due date and first_week > last_week the check-in calendar query fails |
| Stage.GestationalReport | stage_calculation.py:768-789 | with a due date, at least one week and a table-based ring row the gestational report is built from six rows of the stage length |
| Stage.GestationalApiSeriesMeaning | stage_calculation.py:781-785 | the gestational vendor-API ring series has one entry per week, entry i being the worn days of week first+i's seven days, in 0..7 and 0 iff none is worn |
| Stage.WearApiGestational | stage_calculation.py:781-785 | the week loop of line 785, writing into a row that exists, returns the gestational vendor-API ring series |
| Stage.IntendedMissingDueDate | stage_calculation.py:768-789 | without a due date the intended gestational table reports the missing due date instead of a length error |
| Stage.IntendedGestationalRows | stage_calculation.py:768-789 | with a due date and first_week <= last_week the intended table has six rows of the stage length; in the vendor-API branch the sixth row is the ring series under its key and its intended percentages lie in [0, 100] |
| WearCache.Percentage | stage_calculation.py:202-208 | a body's percentage is non-negative, 0 without 'temp', on a malformed body or on one that is not JSON, and at least 75 iff at least 216 samples |
| WearCache.FutureDateSkipped | stage_calculation.py:174-175 | a future date returns 0 with no request and no cache change |
| WearCache.FetchOnlyOnMiss | stage_calculation.py:186-193 | a request is made iff the date is not in the future, the key is present and the cache misses |
| WearCache.StoreOnlyPastSuccess | stage_calculation.py:193-199 | the cache changes iff a request returned 200 with a JSON body for a date before now, and then only by that body under its key |
| WearCache.ErrorNotStored | stage_calculation.py:199-201 | a non-200 response returns 0 and leaves the cache unchanged |
| WearCache.NotJsonNotStored | stage_calculation.py:193-212 | a 200 response whose body is not JSON raises before the write, so the call returns 0 and stores nothing |
| WearCache.TodayIsStored | stage_calculation.py:196-199 | once today has begun, today's 200 JSON response is stored |
| WearCache.CoherentCacheTransparent | stage_calculation.py:186-212 | with a cache holding only 200 bodies the endpoint returns, a call returns what an uncached call would and the cache stays so |
| WearCache.Store.DailyWearOf | stage_calculation.py:173-212 | calculate_daily_wear's result, whether it fetched, and the new cache are those of `DailyWear`, whose cases the lemmas above state |
| WearCache.CacheAfterDaysMeaning | stage_calculation.py:219-227 | after a week of calls a request is cached iff it was cached before or it is one of the week's requests that missed and returned a JSON 200 for a past day; its body is the old one or the fetched one |
| WearCache.Store.WeeklyWearCount | stage_calculation.py:219-227 | for any cache, the count is the number of days of [start, end] whose cached-call percentage is at least 75, and the cache becomes the old one plus the stores the week's calls make |
| WearCache.CoherentWeekCount | stage_calculation.py:219-227 | with a coherent cache the week's cached-call worn days are the days the endpoint alone qualifies, and the cache stays coherent |
| WearCache.SoundLater | stage_calculation.py:197 | under the intended past-only rule, a cache sound at one time stays sound later when finished days do not change |
| WearCache.FinishedCacheTransparent | stage_calculation.py:186-212 | under the intended past-only rule a sound cache answers as the endpoint would at that time, and stays sound |
| WearCache.NoStaleBody | stage_calculation.py:197 | under the intended past-only rule a later call on a finished day returns what the endpoint serves then, whatever earlier calls stored |
| WearCache.StaleTodayServed | stage_calculation.py:197 | as written, a body stored at 1 am on day 5 is served on day 6 as 100/288 of 100 while the endpoint then serves the full 100 |

## Left out

- Query execution, client construction, HTTP, cache files, SHA-256 and URL encoding are not modelled.
  - Query results are inputs.
  - The endpoint is a function from request to response.
  - The cache file name is the request key itself, so the hash is taken to be injective.
- The queries that provide w1, the due date and the delivery fields (`participant_first_w1_day`, `get_participant_delivery_info`) are not modelled; their values are parameters.
- Plotting, annotations, the title rewrite, figure layout and printing are not modelled. They do not affect the matrices.
- Environment lookups `UH_API_CALL` and `UHKEY` are booleans passed in.
- participation_nb.py is not part of this model. It is notebook UI whose only logic is the constant stage week ranges.
- IEEE floating point: percentages are exact reals.
  - The float sum at lines 848-849 can truncate one below an exact integer. The model does not reproduce that.
  - The wear fraction clamp of the Oura query is taken as an input in [0, 1].
- Date parsing and time zones: each survey submission, weight or pressure reading arrives already as its day number. Those days are what the queries' `MIN(startdate - 7h)` and `COALESCE(... - 7h)` expressions compute.
- The Oura gestational count is the query's SUM of worn flags over its rows, which the model keeps: two rows on one day count 2 (`Gestational.OuraRowsNotDays`). The Ultrahuman query groups one row per day; the model takes its rows as input and states the per-day reading under that condition (`Gestational.UhCountMeaning`).
- Postpartum.SurveysPostpartum: the postpartum survey query filters answers to the period (lines 1131-1132) before it takes each response's earliest answer (lines 1125, 1133). The model gives each response one day, the earliest over all its answers, and filters that day to the period. A response whose answers straddle 7 am on the delivery day is counted by the source but dropped by the model.
- Stage.BuildGestationalFrame: in the vendor-API branch, line 785 evaluates the first week's `get_weekly_wear_count` before the subscript raises `KeyError`. Those seven requests and cache writes are not part of the model's error result.
- Store.WeeklyWearCount: calculate_daily_wear reads `datetime.today()` on each call; the model passes one `now` to the whole week.
- Gestational.Weekly: for first_week > last_week the Trino sequence runs downward. The result is then stated as zeros of that length, which is what the BETWEEN filter and COALESCE leave.
- File read or write failures inside calculate_daily_wear's try block are not modelled. A body that is not JSON is the `NotJson` payload, and one without the expected fields is `Malformed`; both return 0.
- Dates passed to calculate_daily_wear are taken as midnights. The comparison of a date with the current instant is the comparison of day numbers, refined by whether a second of today has passed.
- Frames.Frame.Valid: the map of cells may hold a value for each listed key and more. Membership is decided by the key list, which is how the dict is observed.

## Findings

The matrices above follow the code as written. The corrected members stand beside them and state what the comments and names of the code promise.

| source | as written | input that shows it | evidently intended | confidence | as-written member | corrected member |
|---|---|---|---|---|---|---|
| stage_calculation.py:68 | `1 + date_diff('day', w1, day) / 7` with Trino's truncating division puts day offsets -6..6 in week 1, so week 1 spans 13 days | the day w1-1 is in week 1 | 7-day weeks from w1 (floor division), with w1-1 in week 0 | not executed; high | Gestational.GaWeekOne | Gestational.FloorWeekSevenDays |
| stage_calculation.py:578 | the gestational weight count is the HealthKit count when the week has one, otherwise the Google Fit count | HealthKit day w1+7 and Google Fit days w1+8, w1+9 count 1 in week 2 | the union of the two sources' days, as the postpartum adapter counts them (3 here) | not executed; medium | Gestational.WeightIsNotUnion | Gestational.WeightUnionBound |
| stage_calculation.py:785 | the vendor-API loop assigns into `frame["Smart ring wear (~19h/day)"]`, which the dict of lines 768-774 does not hold | not postpartum, ring vendor not Oura, `UH_API_CALL` set, first_week = last_week = 1: `KeyError` | a ring row of weekly vendor-API wear counts under that key | not executed; high | Stage.GestationalApiKeyError | Stage.IntendedGestationalRows |
| stage_calculation.py:758 | the postpartum vendor-API ring row's key matches none of the normalizer's ring branches (lines 826-829), so its raw day counts enter the biometrics average | a week with 2 weight days, 2 pressure days and 7 worn ring days averages 69 | the row converted as days/7 of 100, averaging 100 here | not executed; high | Stage.PostpartumApiRingNeverPaysBiometrics | Normalizer.RingApiConverted |
| stage_calculation.py:768-789 | without a due date the queries return no rows and the DataFrame rejects rows of unequal length | due date missing, first_week = last_week = 1, table-based ring: `LengthMismatch` | an error that names the missing due date | not executed; medium | Stage.MissingDueDateLengthError | Stage.IntendedMissingDueDate |
| stage_calculation.py:197 | `date < datetime.today()` holds for today's midnight once today has begun, so today's incomplete body is cached | a day-5 body of 100 samples stored at 1 am on day 5 is served on day 6 as 100/288 of 100, while the endpoint then serves 288 samples | store only finished days, so a later call returns what the endpoint serves | not executed; high | WearCache.StaleTodayServed | WearCache.NoStaleBody |
