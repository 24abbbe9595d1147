/**
 * The seven postpartum adapters. Each builds a set of qualifying days from
 * its query rows, counts per postpartum window the days of that set, and
 * pads the series with zeros to the length of the stage.
 */
module Postpartum {
  import opened Wrappers
  import opened Windows
  import opened DayCount
  import opened Evidence

  /** Per-window day counts, then zeros up to `n` entries. */
  function PaddedCounts(days: set<int>, ws: seq<Window>, n: nat): seq<int> {
    seq(if |ws| <= n then n else |ws|,
        i requires 0 <= i => if i < |ws| then |DaysIn(days, ws[i].start, ws[i].end)| else 0)
  }

  /**
   * The series a day-set adapter returns: all zeros without delivery
   * information, otherwise, for each window, the number of days of
   * `days` that lie in the postpartum period (the query's date filter)
   * and in the window, padded with zeros.
   */
  function DaySeries(first: int, last: int, delivery: Option<int>, ppDays: Option<int>, days: set<int>): seq<int> {
    var n := StageLength(first, last);
    if !HasDeliveryInfo(delivery, ppDays) then Zeros(n)
    else
      var d, p := delivery.value, ppDays.value;
      PaddedCounts(DaysIn(days, d, PeriodEnd(d, p)), WindowsUpTo(d, p, first, last), n)
  }

  /**
   * The count for one postpartum week, stated without windows: zero when
   * delivery information is missing or the week starts after the period;
   * otherwise the qualifying days that fall in the period and in the week.
   */
  function WeekCount(delivery: Option<int>, ppDays: Option<int>, days: set<int>, week: int): int {
    if !HasDeliveryInfo(delivery, ppDays) || !Included(delivery.value, ppDays.value, week) then 0
    else
      var d, p := delivery.value, ppDays.value;
      var win := MakeWindow(d, p, week);
      |DaysIn(DaysIn(days, d, PeriodEnd(d, p)), win.start, win.end)|
  }

  /**
   * The series has one entry per stage week; entry i is the count of week
   * first + i, so weeks past the last included window read 0; every entry
   * lies between 0 and the length of its window, at most 7.
   */
  lemma DaySeriesMeaning(first: int, last: int, delivery: Option<int>, ppDays: Option<int>, days: set<int>)
    ensures var r := DaySeries(first, last, delivery, ppDays, days);
      |r| == StageLength(first, last)
      && (forall i :: 0 <= i < |r| ==> r[i] == WeekCount(delivery, ppDays, days, first + i))
      && (forall i :: 0 <= i < |r| ==> 0 <= r[i] <= 7)
  {
    var r := DaySeries(first, last, delivery, ppDays, days);
    if HasDeliveryInfo(delivery, ppDays) {
      var d, p := delivery.value, ppDays.value;
      WindowsShape(d, p, first, last);
      var ws := WindowsUpTo(d, p, first, last);
      forall i | 0 <= i < |r|
        ensures r[i] == WeekCount(delivery, ppDays, days, first + i) && 0 <= r[i] <= 7
      {
        if i < |ws| {
          var win := ws[i];
          DaysInBound(DaysIn(days, d, PeriodEnd(d, p)), win.start, win.end);
        }
      }
    }
  }

  /** A week that starts after the period, or any week without delivery information, counts 0. */
  lemma WeekCountZero(delivery: Option<int>, ppDays: Option<int>, days: set<int>, week: int)
    requires !HasDeliveryInfo(delivery, ppDays) || !Included(delivery.value, ppDays.value, week)
    ensures WeekCount(delivery, ppDays, days, week) == 0
  {
  }

  /**
   * From week 1 on every window lies inside the postpartum period, so the
   * query's date filter changes nothing: the count is the qualifying days
   * of the window.
   */
  lemma WeekCountInWindow(delivery: Option<int>, ppDays: Option<int>, days: set<int>, week: int)
    requires 1 <= week && HasDeliveryInfo(delivery, ppDays) && Included(delivery.value, ppDays.value, week)
    ensures var win := MakeWindow(delivery.value, ppDays.value, week);
      WeekCount(delivery, ppDays, days, week) == |DaysIn(days, win.start, win.end)|
  {
    var d, p := delivery.value, ppDays.value;
    var win := MakeWindow(d, p, week);
    assert DaysIn(DaysIn(days, d, PeriodEnd(d, p)), win.start, win.end) == DaysIn(days, win.start, win.end);
  }

  /** A qualifying day outside every window of the stage changes no entry. */
  lemma OutsideDayIgnored(first: int, last: int, delivery: Option<int>, ppDays: Option<int>, days: set<int>, extra: int)
    requires HasDeliveryInfo(delivery, ppDays) ==>
      forall win :: win in WindowsUpTo(delivery.value, ppDays.value, first, last) ==> !(win.start <= extra <= win.end)
    ensures DaySeries(first, last, delivery, ppDays, days + {extra}) == DaySeries(first, last, delivery, ppDays, days)
  {
    if HasDeliveryInfo(delivery, ppDays) {
      var d, p := delivery.value, ppDays.value;
      var ws := WindowsUpTo(d, p, first, last);
      var a, b := DaySeries(first, last, delivery, ppDays, days + {extra}), DaySeries(first, last, delivery, ppDays, days);
      forall i | 0 <= i < |ws|
        ensures DaysIn(DaysIn(days + {extra}, d, PeriodEnd(d, p)), ws[i].start, ws[i].end)
             == DaysIn(DaysIn(days, d, PeriodEnd(d, p)), ws[i].start, ws[i].end)
      {
        assert ws[i] in ws;
      }
      assert |a| == |b|;
      forall i | 0 <= i < |a| ensures a[i] == b[i] {
        if i < |ws| {
          assert a[i] == |DaysIn(DaysIn(days + {extra}, d, PeriodEnd(d, p)), ws[i].start, ws[i].end)|;
        }
      }
    }
  }

  /**
   * The per-window loop and the zero padding of lines 1014-1028: count the
   * qualifying days of every window, then append zeros up to `n` entries.
   */
  method CountWindows(days: set<int>, ws: seq<Window>, n: nat) returns (counts: seq<int>)
    ensures counts == PaddedCounts(days, ws, n)
  {
    counts := [];
    for k := 0 to |ws|
      invariant |counts| == k
      invariant forall j :: 0 <= j < k ==> counts[j] == |DaysIn(days, ws[j].start, ws[j].end)|
    {
      var c := CountDays(days, ws[k].start, ws[k].end);
      counts := counts + [c];
    }
    while |counts| < n
      invariant |ws| <= |counts| <= if |ws| <= n then n else |ws|
      invariant forall j :: 0 <= j < |ws| ==> counts[j] == |DaysIn(days, ws[j].start, ws[j].end)|
      invariant forall j :: |ws| <= j < |counts| ==> counts[j] == 0
      decreases n - |counts|
    {
      counts := counts + [0];
    }
  }


  /** Without delivery information, or when no window starts within the period, the series is all zeros. */
  lemma NoWindowsAllZero(first: int, last: int, delivery: Option<int>, ppDays: Option<int>, days: set<int>)
    requires !HasDeliveryInfo(delivery, ppDays) || WindowsUpTo(delivery.value, ppDays.value, first, last) == []
    ensures DaySeries(first, last, delivery, ppDays, days) == Zeros(StageLength(first, last))
  {
  }

  /** calculate_daily_symptoms_postpartum: days with a symptom check-in. */
  method SymptomsPostpartum(first: int, last: int, delivery: Option<int>, ppDays: Option<int>, checkins: set<int>)
    returns (r: seq<int>)
    ensures r == DaySeries(first, last, delivery, ppDays, checkins)
  {
    var n := StageLength(first, last);
    var ranges := PostpartumWeeks(first, last, delivery, ppDays);
    if ranges.None? || ranges.value == [] {
      NoWindowsAllZero(first, last, delivery, ppDays, checkins);
      return Zeros(n);
    }
    var d, periodEnd := delivery.value, delivery.value + ppDays.value;
    var checkinDates := DaysIn(checkins, d, periodEnd);
    r := CountWindows(checkinDates, ranges.value, n);
  }

  /** calculate_daily_questions_postpartum: days with at least six distinct EMA answers. */
  method QuestionsPostpartum(first: int, last: int, delivery: Option<int>, ppDays: Option<int>, answers: set<Answer>)
    returns (r: seq<int>)
    ensures r == DaySeries(first, last, delivery, ppDays, QuestionDays(answers))
  {
    var n := StageLength(first, last);
    var ranges := PostpartumWeeks(first, last, delivery, ppDays);
    if ranges.None? || ranges.value == [] {
      NoWindowsAllZero(first, last, delivery, ppDays, QuestionDays(answers));
      return Zeros(n);
    }
    var d, periodEnd := delivery.value, delivery.value + ppDays.value;
    var questionDates := QuestionDays(AnswersIn(answers, d, periodEnd));
    QuestionDaysIn(answers, d, periodEnd);
    r := CountWindows(questionDates, ranges.value, n);
  }

  /** calculate_weight_measurements_postpartum: the union of Google Fit and HealthKit weight days. */
  method WeightPostpartum(first: int, last: int, delivery: Option<int>, ppDays: Option<int>, gfWeight: set<int>, hkWeight: set<int>)
    returns (r: seq<int>)
    ensures r == DaySeries(first, last, delivery, ppDays, gfWeight + hkWeight)
  {
    var n := StageLength(first, last);
    var ranges := PostpartumWeeks(first, last, delivery, ppDays);
    if ranges.None? || ranges.value == [] {
      NoWindowsAllZero(first, last, delivery, ppDays, gfWeight + hkWeight);
      return Zeros(n);
    }
    var d, periodEnd := delivery.value, delivery.value + ppDays.value;
    var weightDates := DaysIn(gfWeight, d, periodEnd) + DaysIn(hkWeight, d, periodEnd);
    assert weightDates == DaysIn(gfWeight + hkWeight, d, periodEnd);
    r := CountWindows(weightDates, ranges.value, n);
  }

  /** calculate_bp_measurements_postpartum: the union of Omron, Google Fit and HealthKit blood-pressure days. */
  method BpPostpartum(first: int, last: int, delivery: Option<int>, ppDays: Option<int>,
                      omronBp: set<int>, gfBp: set<int>, hkBp: set<int>)
    returns (r: seq<int>)
    ensures r == DaySeries(first, last, delivery, ppDays, omronBp + gfBp + hkBp)
  {
    var n := StageLength(first, last);
    var ranges := PostpartumWeeks(first, last, delivery, ppDays);
    if ranges.None? || ranges.value == [] {
      NoWindowsAllZero(first, last, delivery, ppDays, omronBp + gfBp + hkBp);
      return Zeros(n);
    }
    var d, periodEnd := delivery.value, delivery.value + ppDays.value;
    var bpDates := DaysIn(omronBp, d, periodEnd) + DaysIn(gfBp, d, periodEnd) + DaysIn(hkBp, d, periodEnd);
    assert bpDates == DaysIn(omronBp + gfBp + hkBp, d, periodEnd);
    r := CountWindows(bpDates, ranges.value, n);
  }

  /** The Python loop of lines 1354-1358: the days of the rows worn at least three quarters. */
  method CollectOuraWornDays(rows: seq<OuraDay>) returns (days: set<int>)
    ensures days == OuraWornDays(rows)
  {
    days := {};
    for i := 0 to |rows|
      invariant days == OuraWornDays(rows[..i])
    {
      assert rows[..i + 1] == rows[..i] + [rows[i]];
      if rows[i].wearFraction >= 0.75 {
        days := days + {rows[i].day};
      }
    }
    assert rows[..|rows|] == rows;
  }

  /** The Python loop of lines 1399-1403: the days with at least 0.75 * 288 samples. */
  method CollectUhWornDays(rows: seq<UhDay>) returns (days: set<int>)
    ensures days == UhWornDays(rows)
  {
    days := {};
    for i := 0 to |rows|
      invariant days == UhWornDays(rows[..i])
    {
      assert rows[..i + 1] == rows[..i] + [rows[i]];
      if rows[i].samples as real >= 0.75 * 288.0 {
        days := days + {rows[i].day};
      }
    }
    assert rows[..|rows|] == rows;
  }

  /** calculate_daily_wear_from_oura_postpartum: days whose Oura wear fraction is at least 0.75. */
  method OuraPostpartum(first: int, last: int, delivery: Option<int>, ppDays: Option<int>, oura: seq<OuraDay>)
    returns (r: seq<int>)
    ensures r == DaySeries(first, last, delivery, ppDays, OuraWornDays(oura))
  {
    var n := StageLength(first, last);
    var ranges := PostpartumWeeks(first, last, delivery, ppDays);
    if ranges.None? || ranges.value == [] {
      NoWindowsAllZero(first, last, delivery, ppDays, OuraWornDays(oura));
      return Zeros(n);
    }
    var d, periodEnd := delivery.value, delivery.value + ppDays.value;
    var rows := Filter(oura, (x: OuraDay) => d <= x.day <= periodEnd);
    var wearDays := CollectOuraWornDays(rows);
    assert wearDays == DaysIn(OuraWornDays(oura), d, periodEnd);
    r := CountWindows(wearDays, ranges.value, n);
  }

  /** calculate_daily_wear_from_uh_postpartum: days with at least 216 Ultrahuman samples. */
  method UhPostpartum(first: int, last: int, delivery: Option<int>, ppDays: Option<int>, uh: seq<UhDay>)
    returns (r: seq<int>)
    ensures r == DaySeries(first, last, delivery, ppDays, UhWornDays(uh))
  {
    var n := StageLength(first, last);
    var ranges := PostpartumWeeks(first, last, delivery, ppDays);
    if ranges.None? || ranges.value == [] {
      NoWindowsAllZero(first, last, delivery, ppDays, UhWornDays(uh));
      return Zeros(n);
    }
    var d, periodEnd := delivery.value, delivery.value + ppDays.value;
    var rows := Filter(uh, (x: UhDay) => d <= x.day <= periodEnd);
    var wearDays := CollectUhWornDays(rows);
    assert wearDays == DaysIn(UhWornDays(uh), d, periodEnd);
    r := CountWindows(wearDays, ranges.value, n);
  }

  /** Per-window worn-day counts from the per-day percentages, then zeros up to `n` entries. */
  function PaddedWorn(wear: int -> Option<real>, ws: seq<Window>, n: nat): seq<int> {
    seq(if |ws| <= n then n else |ws|,
        i requires 0 <= i => if i < |ws| then |WornDays(wear, ws[i].start, ws[i].end)| else 0)
  }

  /** What the vendor-API branch of the postpartum stage puts in the frame. */
  function ApiWearSeries(first: int, last: int, delivery: Option<int>, ppDays: Option<int>, wear: int -> Option<real>): seq<int> {
    var n := StageLength(first, last);
    if !HasDeliveryInfo(delivery, ppDays) then Zeros(n)
    else PaddedWorn(wear, WindowsUpTo(delivery.value, ppDays.value, first, last), n)
  }

  /** One entry per stage week: the worn days of the week's window, 0 past the period, never above 7. */
  lemma ApiWearSeriesMeaning(first: int, last: int, delivery: Option<int>, ppDays: Option<int>, wear: int -> Option<real>)
    requires HasDeliveryInfo(delivery, ppDays)
    ensures var r := ApiWearSeries(first, last, delivery, ppDays, wear);
      |r| == StageLength(first, last)
      && (forall i :: 0 <= i < |r| ==>
            r[i] == if Included(delivery.value, ppDays.value, first + i)
                    then |WornDays(wear, WeekStart(delivery.value, first + i), MakeWindow(delivery.value, ppDays.value, first + i).end)|
                    else 0)
      && (forall i :: 0 <= i < |r| ==> 0 <= r[i] <= 7)
  {
    var d, p := delivery.value, ppDays.value;
    WindowsShape(d, p, first, last);
    var ws := WindowsUpTo(d, p, first, last);
    var r := ApiWearSeries(first, last, delivery, ppDays, wear);
    forall i | 0 <= i < |r| && i < |ws| ensures r[i] <= 7 {
      WornDaysBound(wear, ws[i].start, ws[i].end);
    }
  }

  /**
   * The vendor-API branch of the postpartum stage (lines 750-757): the
   * worn-day count of every window, then zeros. `wear` stands for the
   * per-day percentage calculate_daily_wear looks up.
   */
  method WearApiPostpartum(first: int, last: int, delivery: Option<int>, ppDays: Option<int>, wear: int -> Option<real>)
    returns (r: seq<int>)
    requires HasDeliveryInfo(delivery, ppDays)
    ensures r == ApiWearSeries(first, last, delivery, ppDays, wear)
  {
    var n := StageLength(first, last);
    var ranges := PostpartumWeeks(first, last, delivery, ppDays);
    var ws := ranges.value;
    WindowsShape(delivery.value, ppDays.value, first, last);
    r := [];
    for k := 0 to |ws|
      invariant |r| == k
      invariant forall j :: 0 <= j < k ==> r[j] == |WornDays(wear, ws[j].start, ws[j].end)|
    {
      var c := WeeklyWearCount(wear, ws[k].start, ws[k].end);
      r := r + [c];
    }
    while |r| < n
      invariant |ws| <= |r| <= n
      invariant forall j :: 0 <= j < |ws| ==> r[j] == |WornDays(wear, ws[j].start, ws[j].end)|
      invariant forall j :: |ws| <= j < |r| ==> r[j] == 0
      decreases n - |r|
    {
      r := r + [0];
    }
  }

  // ---- The questionnaire adapter

  /** Survey names per day, as the loop of lines 1146-1152 groups the rows. */
  function SurveysByDate(rows: seq<Submission>): map<int, set<string>>
    decreases |rows|
  {
    if rows == [] then map[]
    else
      var m := SurveysByDate(rows[..|rows| - 1]);
      var row := rows[|rows| - 1];
      m[row.day := (if row.day in m then m[row.day] else {}) + {row.survey}]
  }

  /** A day is grouped iff some row has it, and its names are exactly the names of its rows. */
  lemma {:induction false} SurveysByDateMeaning(rows: seq<Submission>)
    ensures var m := SurveysByDate(rows);
      (forall d :: d in m <==> exists row :: row in rows && row.day == d)
      && (forall d, name :: d in m ==> (name in m[d] <==> Submission(name, d) in rows))
    decreases |rows|
  {
    if rows != [] {
      var init := rows[..|rows| - 1];
      SurveysByDateMeaning(init);
      assert rows == init + [rows[|rows| - 1]];
    }
  }

  /** Total number of distinct surveys over the days of [start, end]. */
  function SurveyTotal(m: map<int, set<string>>, start: int, end: int): nat
    decreases end - start
  {
    if end < start then 0
    else SurveyTotal(m, start, end - 1) + (if end in m then |m[end]| else 0)
  }

  /** With no empty day, the total is positive iff some day of the window is grouped. */
  lemma {:induction false} SurveyTotalPositive(m: map<int, set<string>>, start: int, end: int)
    requires forall d :: d in m ==> m[d] != {}
    ensures SurveyTotal(m, start, end) >= 1 <==> exists d :: start <= d <= end && d in m
    decreases end - start
  {
    if end >= start {
      SurveyTotalPositive(m, start, end - 1);
      if end in m {
        assert |m[end]| >= 1;
      }
    }
  }

  /** Per-window questionnaire flags (the total capped at 1), then zeros up to `n` entries. */
  function PaddedSurveys(m: map<int, set<string>>, ws: seq<Window>, n: nat): seq<int> {
    seq(if |ws| <= n then n else |ws|,
        i requires 0 <= i => if i < |ws| then Min(SurveyTotal(m, ws[i].start, ws[i].end), 1) else 0)
  }

  /** The rows the postpartum questionnaire query returns: tracked surveys submitted within the period. */
  function PeriodSubmissions(subs: seq<Submission>, d: int, periodEnd: int): seq<Submission> {
    Filter(subs, (s: Submission) => Tracked(s.survey) && d <= s.day <= periodEnd)
  }

  /** What calculate_weekly_bimontly_surveys_postpartum returns. */
  function SurveySeries(first: int, last: int, delivery: Option<int>, ppDays: Option<int>, subs: seq<Submission>): seq<int> {
    var n := StageLength(first, last);
    if !HasDeliveryInfo(delivery, ppDays) then Zeros(n)
    else
      var d, p := delivery.value, ppDays.value;
      PaddedSurveys(SurveysByDate(PeriodSubmissions(subs, d, PeriodEnd(d, p))), WindowsUpTo(d, p, first, last), n)
  }

  /** A tracked survey was submitted on a day of [start, end] that also lies in [lo, hi]. */
  predicate SubmittedIn(subs: seq<Submission>, lo: int, hi: int, start: int, end: int) {
    exists s :: s in subs && Tracked(s.survey) && lo <= s.day <= hi && start <= s.day <= end
  }

  /** Every grouped day holds at least one survey name. */
  lemma GroupsNonEmpty(rows: seq<Submission>)
    ensures forall d :: d in SurveysByDate(rows) ==> SurveysByDate(rows)[d] != {}
  {
    var m := SurveysByDate(rows);
    SurveysByDateMeaning(rows);
    forall dd | dd in m ensures m[dd] != {} {
      var row :| row in rows && row.day == dd;
      assert row.survey in m[dd];
    }
  }

  /** One window's flag is 1 iff a tracked survey was submitted within the period on a day of the window. */
  lemma WindowFlagMeaning(subs: seq<Submission>, d: int, periodEnd: int, win: Window)
    ensures var m := SurveysByDate(PeriodSubmissions(subs, d, periodEnd));
      var flag := Min(SurveyTotal(m, win.start, win.end), 1);
      (flag == 0 || flag == 1) && (flag == 1 <==> SubmittedIn(subs, d, periodEnd, win.start, win.end))
  {
    var rows := PeriodSubmissions(subs, d, periodEnd);
    var m := SurveysByDate(rows);
    assert forall dd :: dd in m <==> exists row :: row in rows && row.day == dd by {
      SurveysByDateMeaning(rows);
    }
    GroupsNonEmpty(rows);
    SurveyTotalPositive(m, win.start, win.end);
    if SurveyTotal(m, win.start, win.end) >= 1 {
      var dd :| win.start <= dd <= win.end && dd in m;
      var row :| row in rows && row.day == dd;
      assert row in subs;
    }
    if SubmittedIn(subs, d, periodEnd, win.start, win.end) {
      var s :| s in subs && Tracked(s.survey) && d <= s.day <= periodEnd && win.start <= s.day <= win.end;
      assert s in rows;
      assert s.day in m;
    }
  }

  /**
   * Every questionnaire entry is 0 or 1, and it is 1 exactly when the week
   * has a window and a tracked survey was submitted on a day of that window
   * within the postpartum period; the series has one entry per stage week.
   */
  lemma SurveySeriesMeaning(first: int, last: int, delivery: Option<int>, ppDays: Option<int>, subs: seq<Submission>, i: int)
    requires 0 <= i < StageLength(first, last)
    ensures var r := SurveySeries(first, last, delivery, ppDays, subs);
      |r| == StageLength(first, last)
      && (r[i] == 0 || r[i] == 1)
      && (r[i] == 1 <==>
            HasDeliveryInfo(delivery, ppDays) && Included(delivery.value, ppDays.value, first + i)
            && SubmittedIn(subs, delivery.value, PeriodEnd(delivery.value, ppDays.value),
                           WeekStart(delivery.value, first + i), MakeWindow(delivery.value, ppDays.value, first + i).end))
  {
    if HasDeliveryInfo(delivery, ppDays) {
      var d, p := delivery.value, ppDays.value;
      WindowsShape(d, p, first, last);
      var ws := WindowsUpTo(d, p, first, last);
      if i < |ws| {
        WindowFlagMeaning(subs, d, PeriodEnd(d, p), ws[i]);
      }
    }
  }

  /** The grouping loop of lines 1146-1152: the set of survey names of every day. */
  method GroupSurveys(rows: seq<Submission>) returns (byDate: map<int, set<string>>)
    ensures byDate == SurveysByDate(rows)
  {
    byDate := map[];
    for i := 0 to |rows|
      invariant byDate == SurveysByDate(rows[..i])
    {
      assert rows[..i + 1][..i] == rows[..i];
      var row := rows[i];
      if row.day !in byDate {
        byDate := byDate[row.day := {}];
      }
      byDate := byDate[row.day := byDate[row.day] + {row.survey}];
    }
    assert rows[..|rows|] == rows;
  }

  /** The inner loop of lines 1157-1162: the number of surveys over the days of [start, end]. */
  method CountSurveys(byDate: map<int, set<string>>, start: int, end: int) returns (count: nat)
    ensures count == SurveyTotal(byDate, start, end)
  {
    count := 0;
    var current := start;
    while current <= end
      invariant start <= current
      invariant current <= end + 1 || current == start
      invariant count == SurveyTotal(byDate, start, current - 1)
      decreases end - current
    {
      if current in byDate {
        count := count + |byDate[current]|;
      }
      current := current + 1;
    }
  }

  /** calculate_weekly_bimontly_surveys_postpartum. */
  method SurveysPostpartum(first: int, last: int, delivery: Option<int>, ppDays: Option<int>, subs: seq<Submission>)
    returns (r: seq<int>)
    ensures r == SurveySeries(first, last, delivery, ppDays, subs)
  {
    var n := StageLength(first, last);
    var ranges := PostpartumWeeks(first, last, delivery, ppDays);
    if ranges.None? || ranges.value == [] {
      return Zeros(n);
    }
    var d, periodEnd := delivery.value, delivery.value + ppDays.value;
    var ws := ranges.value;
    WindowsShape(d, ppDays.value, first, last);
    var byDate := GroupSurveys(PeriodSubmissions(subs, d, periodEnd));
    r := [];
    for k := 0 to |ws|
      invariant |r| == k
      invariant forall j :: 0 <= j < k ==> r[j] == Min(SurveyTotal(byDate, ws[j].start, ws[j].end), 1)
    {
      var count := CountSurveys(byDate, ws[k].start, ws[k].end);
      r := r + [Min(count, 1)];
    }
    while |r| < n
      invariant |ws| <= |r| <= n
      invariant forall j :: 0 <= j < |ws| ==> r[j] == Min(SurveyTotal(byDate, ws[j].start, ws[j].end), 1)
      invariant forall j :: |ws| <= j < |r| ==> r[j] == 0
      decreases n - |r|
    {
      r := r + [0];
    }
    assert r == PaddedSurveys(byDate, ws, n);
  }
}
