/**
 * The gestational adapters. Each is one SQL query; here each is a function
 * of the query's input rows. Week 1 starts 280 days before the estimated
 * due date (edd), and a day maps to week 1 + date_diff / 7, where the
 * division truncates toward zero as Trino's integer division does.
 */
module Gestational {
  import opened Wrappers
  import opened DayCount
  import opened Evidence

  /** Days from the start of week 1 to the due date: 40 weeks. */
  const PregnancyDays: int := 280

  /** The w1 anchor: the first day of gestational week 1. */
  function Anchor(edd: int): int { edd - PregnancyDays }

  /** Integer division rounding toward zero, as in Trino (and C, Java). */
  function TruncDiv(a: int, b: int): int
    requires b > 0
  {
    if a >= 0 then a / b else -((-a) / b)
  }

  /** The gestational week of `day`: 1 + CAST(date_diff('day', w1, day) / 7 AS integer). */
  function GaWeek(w1: int, day: int): int { 1 + TruncDiv(day - w1, 7) }

  /** Week w >= 2 is the seven days starting w1 + 7(w - 1). */
  lemma GaWeekLater(w1: int, day: int, w: int)
    requires w >= 2
    ensures GaWeek(w1, day) == w <==> w1 + 7 * (w - 1) <= day <= w1 + 7 * w - 1
  {
    var o := day - w1;
    if o >= 0 {
      assert o == 7 * (o / 7) + o % 7;
    } else {
      assert -o == 7 * ((-o) / 7) + (-o) % 7;
    }
  }

  /**
   * Week 1 is thirteen days: truncation sends the six days before w1
   * (offsets -6..-1) to week 1 as well, where floor division would send
   * them to week 0.
   */
  lemma GaWeekOne(w1: int, day: int)
    ensures GaWeek(w1, day) == 1 <==> w1 - 6 <= day <= w1 + 6
  {
    var o := day - w1;
    if o >= 0 {
      assert o == 7 * (o / 7) + o % 7;
    } else {
      assert -o == 7 * ((-o) / 7) + (-o) % 7;
    }
  }

  /** From the anchor on, truncation and floor division agree. */
  lemma GaWeekFromAnchor(w1: int, day: int)
    requires day >= w1
    ensures GaWeek(w1, day) == 1 + (day - w1) / 7
  {
  }

  /**
   * The weeks CTE and its LEFT JOIN / COALESCE: one entry per week from
   * first to last in increasing order, `count(week)` for each. When first
   * exceeds last, Trino's sequence(first, last) runs downward, ORDER BY
   * puts it back in increasing order, and no week passes the BETWEEN
   * filter, so every entry is 0.
   */
  function Weekly(first: int, last: int, count: int -> int): (r: seq<int>)
    ensures first <= last ==> |r| == last - first + 1 && forall i :: 0 <= i < |r| ==> r[i] == count(first + i)
    ensures last < first ==> r == Zeros(first - last + 1)
  {
    if first <= last then seq(last - first + 1, i => count(first + i)) else Zeros(first - last + 1)
  }

  /** The qualifying days of a day set that fall in gestational week w. */
  function WeekDays(days: set<int>, w1: int, w: int): set<int> {
    set d | d in days && GaWeek(w1, d) == w
  }

  /** In week w >= 2 the count is the qualifying days of a seven-day window, so at most 7. */
  lemma WeekDaysLater(days: set<int>, w1: int, w: int)
    requires w >= 2
    ensures WeekDays(days, w1, w) == DaysIn(days, w1 + 7 * (w - 1), w1 + 7 * w - 1)
    ensures |WeekDays(days, w1, w)| <= 7
  {
    forall d | d in days ensures GaWeek(w1, d) == w <==> w1 + 7 * (w - 1) <= d <= w1 + 7 * w - 1 {
      GaWeekLater(w1, d, w);
    }
    assert WeekDays(days, w1, w) == DaysIn(days, w1 + 7 * (w - 1), w1 + 7 * w - 1);
    DaysInBound(days, w1 + 7 * (w - 1), w1 + 7 * w - 1);
  }

  /** In week 1 the count covers thirteen days, so it can reach 13. */
  lemma WeekDaysOne(days: set<int>, w1: int)
    ensures WeekDays(days, w1, 1) == DaysIn(days, w1 - 6, w1 + 6)
    ensures |WeekDays(days, w1, 1)| <= 13
  {
    forall d | d in days ensures GaWeek(w1, d) == 1 <==> w1 - 6 <= d <= w1 + 6 {
      GaWeekOne(w1, d);
    }
    assert WeekDays(days, w1, 1) == DaysIn(days, w1 - 6, w1 + 6);
    DaysInBound(days, w1 - 6, w1 + 6);
  }

  // ---- Symptom check-ins (calculate_daily_symptoms)

  /** First and last day of the explicit calendar: start of first_week to end of last_week. */
  function CalendarStart(w1: int, first: int): int { w1 + 7 * (first - 1) }
  function CalendarEnd(w1: int, last: int): int { w1 + 7 * last - 1 }

  /** Check-in days of the calendar whose gestational week is w. */
  function CheckinsInWeek(checkins: set<int>, w1: int, first: int, last: int, w: int): nat {
    |set d | d in checkins && CalendarStart(w1, first) <= d <= CalendarEnd(w1, last) && GaWeek(w1, d) == w|
  }

  /**
   * calculate_daily_symptoms: no rows without an edd; a query error when
   * first exceeds last (the day SEQUENCE cannot run backwards with a
   * positive step); otherwise one row per week of the calendar.
   */
  function SymptomsGestational(edd: Option<int>, first: int, last: int, checkins: set<int>): Result<seq<int>> {
    if edd.None? then Ok([])
    else if last < first then Err(QueryError)
    else
      var w1 := Anchor(edd.value);
      Ok(Weekly(first, last, w => CheckinsInWeek(checkins, w1, first, last, w)))
  }

  /** Every week of the stage has a calendar day, its first day, so GROUP BY yields a row for each. */
  lemma CalendarCoversEveryWeek(w1: int, first: int, last: int, w: int)
    requires first <= w <= last
    ensures CalendarStart(w1, first) <= w1 + 7 * (w - 1) <= CalendarEnd(w1, last)
    ensures GaWeek(w1, w1 + 7 * (w - 1)) == w
  {
    var o := 7 * (w - 1);
    if o < 0 {
      assert (-o) / 7 == -(w - 1);
    }
  }

  /**
   * From week 1 on, the calendar starts at w1, so every week's count is the
   * check-in days of its own seven days, at most 7 (week 1 included).
   */
  lemma SymptomsWeekBound(checkins: set<int>, w1: int, first: int, last: int, w: int)
    requires 1 <= first <= w <= last
    ensures CheckinsInWeek(checkins, w1, first, last, w) == |DaysIn(checkins, w1 + 7 * (w - 1), w1 + 7 * w - 1)|
    ensures CheckinsInWeek(checkins, w1, first, last, w) <= 7
  {
    var s := set d | d in checkins && CalendarStart(w1, first) <= d <= CalendarEnd(w1, last) && GaWeek(w1, d) == w;
    forall d | d in checkins
      ensures (CalendarStart(w1, first) <= d <= CalendarEnd(w1, last) && GaWeek(w1, d) == w)
              <==> w1 + 7 * (w - 1) <= d <= w1 + 7 * w - 1
    {
      if w >= 2 { GaWeekLater(w1, d, w); } else { GaWeekOne(w1, d); }
    }
    assert s == DaysIn(checkins, w1 + 7 * (w - 1), w1 + 7 * w - 1);
    DaysInBound(checkins, w1 + 7 * (w - 1), w1 + 7 * w - 1);
  }

  // ---- Structured questions (calculate_daily_questions)

  /** calculate_daily_questions: days with at least six distinct answers, per week. */
  function QuestionsGestational(edd: Option<int>, first: int, last: int, answers: set<Answer>): seq<int> {
    if edd.None? then []
    else
      var w1 := Anchor(edd.value);
      Weekly(first, last, w => |WeekDays(QuestionDays(answers), w1, w)|)
  }

  // ---- Questionnaires (calculate_weekly_bimontly_surveys)

  /** A survey of this name was submitted in week w (a MAX over CASE flags). */
  predicate Done(subs: seq<Submission>, w1: int, survey: string, w: int) {
    exists s :: s in subs && s.survey == survey && GaWeek(w1, s.day) == w
  }

  function Flag(b: bool): int { if b then 1 else 0 }

  /** The designated weeks of the three exception surveys. */
  const MaasWeek: int := 20
  const EpdsWeek: int := 28
  const PassWeek: int := 32

  /** The weekly_completed_count of week w: four weekly flags and three exception flags. */
  function QuestionnaireCount(subs: seq<Submission>, w1: int, w: int): int {
    Flag(Done(subs, w1, MMOS, w)) + Flag(Done(subs, w1, PromisSleep, w))
    + Flag(Done(subs, w1, BRCS, w)) + Flag(Done(subs, w1, PES, w))
    + Flag(w == MaasWeek && Done(subs, w1, MAAS, w))
    + Flag(w == EpdsWeek && Done(subs, w1, EPDS, w))
    + Flag(w == PassWeek && Done(subs, w1, PASS, w))
  }

  /** The submissions of the seven surveys the query selects. */
  function TrackedSubmissions(subs: seq<Submission>): (r: seq<Submission>)
    ensures forall s :: s in r <==> s in subs && Tracked(s.survey)
  {
    Filter(subs, (s: Submission) => Tracked(s.survey))
  }

  /** calculate_weekly_bimontly_surveys. */
  function SurveysGestational(edd: Option<int>, first: int, last: int, subs: seq<Submission>): seq<int> {
    if edd.None? then []
    else
      var w1 := Anchor(edd.value);
      Weekly(first, last, w => QuestionnaireCount(TrackedSubmissions(subs), w1, w))
  }

  /** A submission of this survey counts in week w: a weekly survey, or an exception survey in its own week. */
  predicate CountsIn(survey: string, w: int) {
    survey == MMOS || survey == PromisSleep || survey == BRCS || survey == PES
    || (survey == MAAS && w == MaasWeek) || (survey == EPDS && w == EpdsWeek) || (survey == PASS && w == PassWeek)
  }

  /** A week's questionnaire count is 0 exactly when no submission in it counts there. */
  lemma QuestionnaireCountZero(subs: seq<Submission>, w1: int, w: int)
    ensures QuestionnaireCount(TrackedSubmissions(subs), w1, w) == 0
            <==> forall s :: s in subs && GaWeek(w1, s.day) == w ==> !CountsIn(s.survey, w)
  {
    var tracked := TrackedSubmissions(subs);
    if exists s :: s in subs && GaWeek(w1, s.day) == w && CountsIn(s.survey, w) {
      var s :| s in subs && GaWeek(w1, s.day) == w && CountsIn(s.survey, w);
      assert s in tracked;
      assert Done(tracked, w1, s.survey, w);
    }
  }

  /** Seven 0/1 flags: every weekly count lies in 0..7. */
  lemma QuestionnaireCountRange(subs: seq<Submission>, w1: int, w: int)
    ensures 0 <= QuestionnaireCount(subs, w1, w) <= 7
  {
  }

  /** A survey is done in a week after one more submission iff it was before, or the new one is it, in that week. */
  lemma DoneAppend(subs: seq<Submission>, w1: int, x: Submission, name: string, w: int)
    ensures Done(subs + [x], w1, name, w) <==> Done(subs, w1, name, w) || (x.survey == name && GaWeek(w1, x.day) == w)
  {
    if Done(subs + [x], w1, name, w) {
      var s :| s in subs + [x] && s.survey == name && GaWeek(w1, s.day) == w;
      if s != x { assert s in subs; }
    }
    if Done(subs, w1, name, w) {
      var s :| s in subs && s.survey == name && GaWeek(w1, s.day) == w;
      assert s in subs + [x];
    }
    if x.survey == name && GaWeek(w1, x.day) == w {
      assert x in subs + [x];
    }
  }

  /** One more submission of a survey in a week other than the one it matters in changes no weekly count. */
  lemma ExceptionOutsideItsWeek(subs: seq<Submission>, w1: int, survey: string, designated: int, day: int, w: int)
    requires (survey == MAAS && designated == MaasWeek) || (survey == EPDS && designated == EpdsWeek)
             || (survey == PASS && designated == PassWeek)
    requires GaWeek(w1, day) != designated
    ensures QuestionnaireCount(subs + [Submission(survey, day)], w1, w) == QuestionnaireCount(subs, w1, w)
  {
    var x, more := Submission(survey, day), subs + [Submission(survey, day)];
    SurveyNameLengths();
    forall name | name in [MMOS, PromisSleep, BRCS, PES] ensures Done(more, w1, name, w) == Done(subs, w1, name, w) {
      DoneAppend(subs, w1, x, name, w);
    }
    forall name, week | (name, week) in [(MAAS, MaasWeek), (EPDS, EpdsWeek), (PASS, PassWeek)]
      ensures (w == week && Done(more, w1, name, w)) == (w == week && Done(subs, w1, name, w))
    {
      DoneAppend(subs, w1, x, name, w);
    }
  }

  /** An EPDS submission in week 28 counts there; one in week 27 or 29 counts in no week. */
  lemma EpdsOnlyInWeek28(w1: int, w: int)
    ensures QuestionnaireCount([Submission(EPDS, w1 + 7 * 27)], w1, 28) == 1
    ensures QuestionnaireCount([Submission(EPDS, w1 + 7 * 26)], w1, w) == 0
    ensures QuestionnaireCount([Submission(EPDS, w1 + 7 * 28)], w1, w) == 0
  {
    assert GaWeek(w1, w1 + 7 * 27) == 28;
    assert GaWeek(w1, w1 + 7 * 26) == 27;
    assert GaWeek(w1, w1 + 7 * 28) == 29;
    ExceptionOutsideItsWeek([], w1, EPDS, EpdsWeek, w1 + 7 * 26, w);
    assert [] + [Submission(EPDS, w1 + 7 * 26)] == [Submission(EPDS, w1 + 7 * 26)];
    ExceptionOutsideItsWeek([], w1, EPDS, EpdsWeek, w1 + 7 * 28, w);
    assert [] + [Submission(EPDS, w1 + 7 * 28)] == [Submission(EPDS, w1 + 7 * 28)];
  }

  // ---- Weight (calculate_weight_measurements)

  /**
   * COALESCE(healthkit, googlefit, 0): HealthKit's weight days of the week
   * when it has any, otherwise Google Fit's.
   */
  function WeightCount(hkWeight: set<int>, gfWeight: set<int>, w1: int, w: int): int {
    var hk := |WeekDays(hkWeight, w1, w)|;
    if hk > 0 then hk else |WeekDays(gfWeight, w1, w)|
  }

  /** calculate_weight_measurements. */
  function WeightGestational(edd: Option<int>, first: int, last: int, hkWeight: set<int>, gfWeight: set<int>): seq<int> {
    if edd.None? then []
    else
      var w1 := Anchor(edd.value);
      Weekly(first, last, w => WeightCount(hkWeight, gfWeight, w1, w))
  }

  /**
   * The weight count is neither the union of the two sources nor their
   * maximum: one HealthKit day hides two Google Fit days of the same week.
   */
  lemma WeightIsNotUnion(w1: int)
    ensures var hk, gf := {w1 + 7}, {w1 + 8, w1 + 9};
      WeightCount(hk, gf, w1, 2) == 1
      && |WeekDays(hk + gf, w1, 2)| == 3
      && |WeekDays(gf, w1, 2)| == 2
  {
    var hk, gf := {w1 + 7}, {w1 + 8, w1 + 9};
    assert GaWeek(w1, w1 + 7) == 2 && GaWeek(w1, w1 + 8) == 2 && GaWeek(w1, w1 + 9) == 2;
    assert WeekDays(hk, w1, 2) == hk;
    assert WeekDays(gf, w1, 2) == gf;
    assert WeekDays(hk + gf, w1, 2) == {w1 + 7, w1 + 8, w1 + 9};
  }

  /** Whichever source it takes, the weight count never exceeds the days of the two sources together. */
  lemma WeightCountBound(hkWeight: set<int>, gfWeight: set<int>, w1: int, w: int)
    ensures WeightCount(hkWeight, gfWeight, w1, w) <= |WeekDays(hkWeight + gfWeight, w1, w)|
  {
    SubsetCardinality(WeekDays(hkWeight, w1, w), WeekDays(hkWeight + gfWeight, w1, w));
    SubsetCardinality(WeekDays(gfWeight, w1, w), WeekDays(hkWeight + gfWeight, w1, w));
  }

  // ---- Blood pressure (calculate_bp_measurements)

  function Max(a: int, b: int): int { if a >= b then a else b }

  /** GREATEST of the HealthKit, Omron and Google Fit day counts of the week. */
  function BpCount(hkBp: set<int>, omronBp: set<int>, gfBp: set<int>, w1: int, w: int): int {
    Max(Max(|WeekDays(hkBp, w1, w)|, |WeekDays(omronBp, w1, w)|), |WeekDays(gfBp, w1, w)|)
  }

  /** calculate_bp_measurements. */
  function BpGestational(edd: Option<int>, first: int, last: int, hkBp: set<int>, omronBp: set<int>, gfBp: set<int>): seq<int> {
    if edd.None? then []
    else
      var w1 := Anchor(edd.value);
      Weekly(first, last, w => BpCount(hkBp, omronBp, gfBp, w1, w))
  }

  /** The blood-pressure count is the largest source's count: at least each, at most their union. */
  lemma BpCountMeaning(hkBp: set<int>, omronBp: set<int>, gfBp: set<int>, w1: int, w: int)
    ensures var c := BpCount(hkBp, omronBp, gfBp, w1, w);
      c >= |WeekDays(hkBp, w1, w)| && c >= |WeekDays(omronBp, w1, w)| && c >= |WeekDays(gfBp, w1, w)|
      && (c == |WeekDays(hkBp, w1, w)| || c == |WeekDays(omronBp, w1, w)| || c == |WeekDays(gfBp, w1, w)|)
      && c <= |WeekDays(hkBp + omronBp + gfBp, w1, w)|
  {
    var all := WeekDays(hkBp + omronBp + gfBp, w1, w);
    SubsetCardinality(WeekDays(hkBp, w1, w), all);
    SubsetCardinality(WeekDays(omronBp, w1, w), all);
    SubsetCardinality(WeekDays(gfBp, w1, w), all);
  }

  // ---- Ring wear (calculate_daily_wear_from_oura, calculate_daily_wear_from_uh)

  /** The wear_day_flag of an Oura row counted for week w. */
  function OuraInWeek(w1: int, w: int): OuraDay -> bool {
    r => OuraWorn(r) && GaWeek(w1, r.day) == w
  }

  /** SUM(wear_day_flag) over the Oura rows of week w. */
  function OuraCount(oura: seq<OuraDay>, w1: int, w: int): nat {
    |Filter(oura, OuraInWeek(w1, w))|
  }

  /** calculate_daily_wear_from_oura. */
  function OuraGestational(edd: Option<int>, first: int, last: int, oura: seq<OuraDay>): seq<int> {
    if edd.None? then []
    else
      var w1 := Anchor(edd.value);
      Weekly(first, last, w => OuraCount(oura, w1, w))
  }

  /** The wear_day_flag of an Ultrahuman day counted for week w. */
  function UhInWeek(w1: int, w: int): UhDay -> bool {
    r => UhWorn(r) && GaWeek(w1, r.day) == w
  }

  /** SUM(wear_day_flag) over the Ultrahuman day rows of week w. */
  function UhCount(uh: seq<UhDay>, w1: int, w: int): nat {
    |Filter(uh, UhInWeek(w1, w))|
  }

  /**
   * calculate_daily_wear_from_uh: the anchor is passed in, so the w1 CTE
   * always holds one row and the series is never empty.
   */
  function UhGestational(w1: int, first: int, last: int, uh: seq<UhDay>): seq<int> {
    Weekly(first, last, w => UhCount(uh, w1, w))
  }

  /**
   * The Oura count is a SUM over rows, not a count of days: no rows count
   * 0, and each further row adds its flag, so two worn rows of one day
   * count twice.
   */
  lemma OuraCountSumsRows(oura: seq<OuraDay>, row: OuraDay, w1: int, w: int)
    ensures OuraCount([], w1, w) == 0
    ensures OuraCount(oura + [row], w1, w)
            == OuraCount(oura, w1, w) + (if OuraWorn(row) && GaWeek(w1, row.day) == w then 1 else 0)
    ensures OuraCount(oura, w1, w) <= |oura|
  {
    FilterAppend(oura, row, OuraInWeek(w1, w));
  }

  /** Two worn Oura rows on one day of week 2: the week counts 2 while it has one worn day. */
  lemma OuraRowsNotDays(w1: int)
    ensures var rows := [OuraDay(w1 + 7, 1.0), OuraDay(w1 + 7, 0.9)];
      OuraCount(rows, w1, 2) == 2 && |WeekDays(OuraWornDays(rows), w1, 2)| == 1
  {
    var rows := [OuraDay(w1 + 7, 1.0), OuraDay(w1 + 7, 0.9)];
    assert GaWeek(w1, w1 + 7) == 2;
    OuraCountSumsRows([], rows[0], w1, 2);
    assert [] + [rows[0]] == [rows[0]];
    OuraCountSumsRows([rows[0]], rows[1], w1, 2);
    assert [rows[0]] + [rows[1]] == rows;
    assert OuraWornDays(rows) == {w1 + 7};
    assert WeekDays(OuraWornDays(rows), w1, 2) == {w1 + 7};
  }

  /** With one row per day the Oura count is the number of worn days of the week. */
  lemma OuraCountOneRowPerDay(oura: seq<OuraDay>, w1: int, w: int)
    requires forall i, j :: 0 <= i < j < |oura| ==> oura[i].day != oura[j].day
    ensures OuraCount(oura, w1, w) == |WeekDays(OuraWornDays(oura), w1, w)|
  {
    var day := (r: OuraDay) => r.day;
    FilterDistinctDays(oura, OuraInWeek(w1, w), day);
    var flagged := KeptDays(oura, OuraInWeek(w1, w), day);
    forall d | d in WeekDays(OuraWornDays(oura), w1, w) ensures d in flagged {
      var r :| r in oura && OuraWorn(r) && r.day == d;
      assert OuraInWeek(w1, w)(r);
    }
    assert flagged == WeekDays(OuraWornDays(oura), w1, w);
  }

  /**
   * The Ultrahuman query groups its samples by day, so it has one row per
   * day, and the count is the number of worn days of the week.
   */
  lemma UhCountMeaning(uh: seq<UhDay>, w1: int, w: int)
    requires forall i, j :: 0 <= i < j < |uh| ==> uh[i].day != uh[j].day
    ensures UhCount(uh, w1, w) == |WeekDays(UhWornDays(uh), w1, w)|
    ensures w >= 2 ==> UhCount(uh, w1, w) <= 7
  {
    var day := (r: UhDay) => r.day;
    FilterDistinctDays(uh, UhInWeek(w1, w), day);
    var flagged := KeptDays(uh, UhInWeek(w1, w), day);
    forall d | d in WeekDays(UhWornDays(uh), w1, w) ensures d in flagged {
      var r :| r in uh && UhWorn(r) && r.day == d;
      assert UhInWeek(w1, w)(r);
    }
    forall d | d in flagged ensures d in WeekDays(UhWornDays(uh), w1, w) {
      var r :| r in uh && UhInWeek(w1, w)(r) && day(r) == d;
      assert r.day in UhWornDays(uh);
    }
    assert flagged == WeekDays(UhWornDays(uh), w1, w);
    if w >= 2 {
      WeekDaysLater(UhWornDays(uh), w1, w);
    }
  }

  // ---- Intended definitions

  /**
   * The intended week index: floor division of the days since w1, so that
   * every week, week 1 included, is the seven days w1 + 7(w - 1) onwards.
   * Dafny's division by a positive divisor is floor division.
   */
  function FloorWeek(w1: int, day: int): int { 1 + (day - w1) / 7 }

  /** Under floor division every week is seven days, and no more than seven days fall in it. */
  lemma FloorWeekSevenDays(days: set<int>, w1: int, w: int)
    ensures forall d :: FloorWeek(w1, d) == w <==> w1 + 7 * (w - 1) <= d <= w1 + 7 * w - 1
    ensures |set d | d in days && FloorWeek(w1, d) == w| <= 7
  {
    forall d ensures FloorWeek(w1, d) == w <==> w1 + 7 * (w - 1) <= d <= w1 + 7 * w - 1 {
      var o := d - w1;
      assert o == 7 * (o / 7) + o % 7;
    }
    assert (set d | d in days && FloorWeek(w1, d) == w) == DaysIn(days, w1 + 7 * (w - 1), w1 + 7 * w - 1);
    DaysInBound(days, w1 + 7 * (w - 1), w1 + 7 * w - 1);
  }

  /** The day before w1 falls in week 1 as written and in week 0 under floor division. */
  lemma WeekOneDiffers(w1: int)
    ensures GaWeek(w1, w1 - 1) == 1 && FloorWeek(w1, w1 - 1) == 0
  {
  }

  /** The intended weight count: the days of the week with a weight from either source. */
  function WeightUnionCount(hkWeight: set<int>, gfWeight: set<int>, w1: int, w: int): nat {
    |WeekDays(hkWeight + gfWeight, w1, w)|
  }

  /**
   * The union count is at least each source's days and the coalesced count
   * as written, at most the two sources' days added, and at most 7 from week 2 on.
   */
  lemma WeightUnionBound(hkWeight: set<int>, gfWeight: set<int>, w1: int, w: int)
    ensures var u := WeightUnionCount(hkWeight, gfWeight, w1, w);
      |WeekDays(hkWeight, w1, w)| <= u && |WeekDays(gfWeight, w1, w)| <= u
      && WeightCount(hkWeight, gfWeight, w1, w) <= u
      && u <= |WeekDays(hkWeight, w1, w)| + |WeekDays(gfWeight, w1, w)|
      && (w >= 2 ==> u <= 7)
  {
    WeightCountBound(hkWeight, gfWeight, w1, w);
    WeekDaysUnion(hkWeight, gfWeight, w1, w);
    SubsetCardinality(WeekDays(gfWeight, w1, w), WeekDays(hkWeight + gfWeight, w1, w));
    if w >= 2 {
      WeekDaysLater(hkWeight + gfWeight, w1, w);
    }
  }

  // ---- The adapters, entry by entry

  /** A gestational week counts 0 exactly when none of the days fall in it. */
  lemma NoDayNoCount(days: set<int>, w1: int, w: int)
    ensures |WeekDays(days, w1, w)| == 0 <==> forall d :: d in days ==> GaWeek(w1, d) != w
  {
    if exists d :: d in days && GaWeek(w1, d) == w {
      var d :| d in days && GaWeek(w1, d) == w;
      assert d in WeekDays(days, w1, w);
    }
  }

  lemma WeekDaysUnion(a: set<int>, b: set<int>, w1: int, w: int)
    ensures WeekDays(a + b, w1, w) == WeekDays(a, w1, w) + WeekDays(b, w1, w)
  {
  }

  /**
   * calculate_daily_symptoms: no rows without an edd, a query error for a
   * reversed range, otherwise one entry per week; from week 1 on, entry i
   * is the check-in days of week first + i's seven days, 0 exactly when
   * there is none.
   */
  lemma SymptomsGestationalMeaning(edd: Option<int>, first: int, last: int, checkins: set<int>, i: int)
    ensures edd.None? ==> SymptomsGestational(edd, first, last, checkins) == Ok([])
    ensures edd.Some? && last < first ==> SymptomsGestational(edd, first, last, checkins) == Err(QueryError)
    ensures edd.Some? && first <= last ==>
      var r := SymptomsGestational(edd, first, last, checkins);
      r.Ok? && |r.value| == last - first + 1
    ensures edd.Some? && 1 <= first && 0 <= i <= last - first ==>
      var r := SymptomsGestational(edd, first, last, checkins);
      var w1, w := Anchor(edd.value), first + i;
      r.Ok? && |r.value| == last - first + 1
      && r.value[i] == |DaysIn(checkins, w1 + 7 * (w - 1), w1 + 7 * w - 1)| && r.value[i] <= 7
      && (r.value[i] == 0 <==> forall d :: d in checkins ==> !(w1 + 7 * (w - 1) <= d <= w1 + 7 * w - 1))
  {
    if edd.Some? && 1 <= first && 0 <= i <= last - first {
      var w1, w := Anchor(edd.value), first + i;
      SymptomsWeekBound(checkins, w1, first, last, w);
      DaysInNone(checkins, w1 + 7 * (w - 1), w1 + 7 * w - 1);
    }
  }

  /**
   * calculate_daily_questions: entry i is the number of days of week
   * first + i with at least six distinct answers, 0 exactly when there is
   * none; at most 7 from week 2 on, and week 1 covers thirteen days.
   */
  lemma QuestionsGestationalMeaning(edd: Option<int>, first: int, last: int, answers: set<Answer>, i: int)
    ensures edd.None? ==> QuestionsGestational(edd, first, last, answers) == []
    ensures edd.Some? && last < first ==> QuestionsGestational(edd, first, last, answers) == Zeros(first - last + 1)
    ensures edd.Some? && 0 <= i <= last - first ==>
      var r := QuestionsGestational(edd, first, last, answers);
      var w1, w, days := Anchor(edd.value), first + i, QuestionDays(answers);
      |r| == last - first + 1 && r[i] == |WeekDays(days, w1, w)|
      && (r[i] == 0 <==> forall d :: d in days ==> GaWeek(w1, d) != w)
      && (w >= 2 ==> r[i] == |DaysIn(days, w1 + 7 * (w - 1), w1 + 7 * w - 1)| && r[i] <= 7)
      && (w == 1 ==> r[i] == |DaysIn(days, w1 - 6, w1 + 6)| && r[i] <= 13)
  {
    if edd.Some? && 0 <= i <= last - first {
      var w1, w, days := Anchor(edd.value), first + i, QuestionDays(answers);
      NoDayNoCount(days, w1, w);
      if w >= 2 { WeekDaysLater(days, w1, w); }
      if w == 1 { WeekDaysOne(days, w1); }
    }
  }

  /**
   * calculate_weekly_bimontly_surveys: entry i lies in 0..7 and is 0
   * exactly when no submission of week first + i counts in that week.
   */
  lemma SurveysGestationalMeaning(edd: Option<int>, first: int, last: int, subs: seq<Submission>, i: int)
    ensures edd.None? ==> SurveysGestational(edd, first, last, subs) == []
    ensures edd.Some? && last < first ==> SurveysGestational(edd, first, last, subs) == Zeros(first - last + 1)
    ensures edd.Some? && 0 <= i <= last - first ==>
      var r := SurveysGestational(edd, first, last, subs);
      var w1, w := Anchor(edd.value), first + i;
      |r| == last - first + 1 && 0 <= r[i] <= 7
      && (r[i] == 0 <==> forall s :: s in subs && GaWeek(w1, s.day) == w ==> !CountsIn(s.survey, w))
  {
    if edd.Some? && 0 <= i <= last - first {
      var w1, w := Anchor(edd.value), first + i;
      QuestionnaireCountRange(TrackedSubmissions(subs), w1, w);
      QuestionnaireCountZero(subs, w1, w);
    }
  }

  /**
   * calculate_weight_measurements: entry i is HealthKit's weight days of
   * week first + i when it has any, otherwise Google Fit's; never more
   * than the two together, 0 exactly when neither has a day in the week,
   * at most 7 from week 2 on.
   */
  lemma WeightGestationalMeaning(edd: Option<int>, first: int, last: int, hkWeight: set<int>, gfWeight: set<int>, i: int)
    ensures edd.None? ==> WeightGestational(edd, first, last, hkWeight, gfWeight) == []
    ensures edd.Some? && last < first ==> WeightGestational(edd, first, last, hkWeight, gfWeight) == Zeros(first - last + 1)
    ensures edd.Some? && 0 <= i <= last - first ==>
      var r := WeightGestational(edd, first, last, hkWeight, gfWeight);
      var w1, w := Anchor(edd.value), first + i;
      |r| == last - first + 1
      && (WeekDays(hkWeight, w1, w) != {} ==> r[i] == |WeekDays(hkWeight, w1, w)|)
      && (WeekDays(hkWeight, w1, w) == {} ==> r[i] == |WeekDays(gfWeight, w1, w)|)
      && r[i] <= |WeekDays(hkWeight + gfWeight, w1, w)|
      && (r[i] == 0 <==> WeekDays(hkWeight + gfWeight, w1, w) == {})
      && (w >= 2 ==> r[i] <= 7)
  {
    if edd.Some? && 0 <= i <= last - first {
      var w1, w := Anchor(edd.value), first + i;
      WeightCountBound(hkWeight, gfWeight, w1, w);
      WeekDaysUnion(hkWeight, gfWeight, w1, w);
      if w >= 2 {
        WeekDaysLater(hkWeight, w1, w);
        WeekDaysLater(gfWeight, w1, w);
      }
    }
  }

  /**
   * calculate_bp_measurements: entry i is the largest of the three
   * sources' day counts of week first + i, never more than their union,
   * 0 exactly when no source has a day in the week, at most 7 from week 2 on.
   */
  lemma BpGestationalMeaning(edd: Option<int>, first: int, last: int, hkBp: set<int>, omronBp: set<int>, gfBp: set<int>, i: int)
    ensures edd.None? ==> BpGestational(edd, first, last, hkBp, omronBp, gfBp) == []
    ensures edd.Some? && last < first ==> BpGestational(edd, first, last, hkBp, omronBp, gfBp) == Zeros(first - last + 1)
    ensures edd.Some? && 0 <= i <= last - first ==>
      var r := BpGestational(edd, first, last, hkBp, omronBp, gfBp);
      var w1, w := Anchor(edd.value), first + i;
      |r| == last - first + 1
      && r[i] >= |WeekDays(hkBp, w1, w)| && r[i] >= |WeekDays(omronBp, w1, w)| && r[i] >= |WeekDays(gfBp, w1, w)|
      && (r[i] == |WeekDays(hkBp, w1, w)| || r[i] == |WeekDays(omronBp, w1, w)| || r[i] == |WeekDays(gfBp, w1, w)|)
      && r[i] <= |WeekDays(hkBp + omronBp + gfBp, w1, w)|
      && (r[i] == 0 <==> WeekDays(hkBp + omronBp + gfBp, w1, w) == {})
      && (w >= 2 ==> r[i] <= 7)
  {
    if edd.Some? && 0 <= i <= last - first {
      var w1, w := Anchor(edd.value), first + i;
      var r := BpGestational(edd, first, last, hkBp, omronBp, gfBp);
      assert r[i] == BpCount(hkBp, omronBp, gfBp, w1, w);
      BpCountMeaning(hkBp, omronBp, gfBp, w1, w);
      assert WeekDays(hkBp + omronBp + gfBp, w1, w)
             == WeekDays(hkBp, w1, w) + WeekDays(omronBp, w1, w) + WeekDays(gfBp, w1, w) by {
        WeekDaysUnion(hkBp, omronBp, w1, w);
        WeekDaysUnion(hkBp + omronBp, gfBp, w1, w);
      }
      if w >= 2 {
        WeekDaysLater(hkBp, w1, w);
        WeekDaysLater(omronBp, w1, w);
        WeekDaysLater(gfBp, w1, w);
      }
    }
  }

  /**
   * calculate_daily_wear_from_oura: entry i is the SUM of the worn flags
   * of the rows of week first + i, at most the number of rows; with one
   * row per day it is the number of worn days of the week, at most 7 from
   * week 2 on.
   */
  lemma OuraGestationalMeaning(edd: Option<int>, first: int, last: int, oura: seq<OuraDay>, i: int)
    ensures edd.None? ==> OuraGestational(edd, first, last, oura) == []
    ensures edd.Some? && last < first ==> OuraGestational(edd, first, last, oura) == Zeros(first - last + 1)
    ensures edd.Some? && 0 <= i <= last - first ==>
      var r := OuraGestational(edd, first, last, oura);
      var w1, w := Anchor(edd.value), first + i;
      |r| == last - first + 1 && r[i] == OuraCount(oura, w1, w) && r[i] <= |oura|
      && ((forall a, b :: 0 <= a < b < |oura| ==> oura[a].day != oura[b].day) ==>
            r[i] == |WeekDays(OuraWornDays(oura), w1, w)| && (w >= 2 ==> r[i] <= 7))
  {
    if edd.Some? && 0 <= i <= last - first {
      var w1, w := Anchor(edd.value), first + i;
      var r := OuraGestational(edd, first, last, oura);
      assert r[i] == OuraCount(oura, w1, w);
      OuraCountSumsRows(oura, OuraDay(0, 0.0), w1, w);
      if forall a, b :: 0 <= a < b < |oura| ==> oura[a].day != oura[b].day {
        OuraCountOneRowPerDay(oura, w1, w);
        if w >= 2 {
          WeekDaysLater(OuraWornDays(oura), w1, w);
          assert r[i] <= 7;
        }
      }
    }
  }

  /**
   * calculate_daily_wear_from_uh: one entry per week first..last; with the
   * query's one row per day, entry i is the number of worn days of week
   * first + i, 0 exactly when there is none, at most 7 from week 2 on.
   */
  lemma UhGestationalMeaning(w1: int, first: int, last: int, uh: seq<UhDay>, i: int)
    ensures last < first ==> UhGestational(w1, first, last, uh) == Zeros(first - last + 1)
    ensures 0 <= i <= last - first ==>
      var r := UhGestational(w1, first, last, uh);
      var w := first + i;
      |r| == last - first + 1
      && ((forall a, b :: 0 <= a < b < |uh| ==> uh[a].day != uh[b].day) ==>
            r[i] == |WeekDays(UhWornDays(uh), w1, w)|
            && (r[i] == 0 <==> forall d :: d in UhWornDays(uh) ==> GaWeek(w1, d) != w)
            && (w >= 2 ==> r[i] <= 7))
  {
    if (0 <= i <= last - first) && forall a, b :: 0 <= a < b < |uh| ==> uh[a].day != uh[b].day {
      var r, w := UhGestational(w1, first, last, uh), first + i;
      assert r[i] == UhCount(uh, w1, w);
      UhCountMeaning(uh, w1, w);
      NoDayNoCount(UhWornDays(uh), w1, w);
    }
  }
}
