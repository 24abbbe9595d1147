/**
 * The query results the adapters consume, as abstract rows and day sets,
 * and the qualifying rules the queries apply to them. Dates are day numbers.
 */
module Evidence {
  import opened DayCount

  /** One answered EMA question: the study day (start time shifted by seven hours) and the question id. */
  datatype Answer = Answer(day: int, question: string)

  /**
   * One survey submission: the survey's name and its day, the earliest
   * answer's start time shifted by seven hours (the gestational query's
   * MIN over all of the response's answers).
   */
  datatype Submission = Submission(survey: string, day: int)

  /** One Oura daily-activity row: its day and the worn fraction of the day, in [0, 1]. */
  datatype OuraDay = OuraDay(day: int, wearFraction: real)

  /** One Ultrahuman day: its day and the number of distinct sample timestamps recorded. */
  datatype UhDay = UhDay(day: int, samples: nat)

  /** Everything the queries of one participant return. */
  datatype Evidence = Evidence(
    checkins: set<int>,        // days with a symptom check-in
    answers: set<Answer>,      // EMA AM/PM question results
    submissions: seq<Submission>,
    hkWeight: set<int>,        // HealthKit weight days
    gfWeight: set<int>,        // Google Fit weight days
    omronBp: set<int>,         // Omron blood-pressure days
    gfBp: set<int>,            // Google Fit blood-pressure days
    hkBp: set<int>,            // HealthKit blood-pressure days
    oura: seq<OuraDay>,
    uh: seq<UhDay>)

  /** Keep the elements of `s` that satisfy `keep`, in order (a SQL WHERE). */
  function Filter<T(!new)>(s: seq<T>, keep: T -> bool): (r: seq<T>)
    ensures |r| <= |s|
    ensures forall x :: x in r <==> x in s && keep(x)
  {
    if s == [] then []
    else (if keep(s[0]) then [s[0]] else []) + Filter(s[1..], keep)
  }

  /** Filtering a sequence with one more element at the end (a SUM over rows, one row at a time). */
  lemma {:induction false} FilterAppend<T(!new)>(s: seq<T>, x: T, keep: T -> bool)
    ensures Filter(s + [x], keep) == Filter(s, keep) + (if keep(x) then [x] else [])
    decreases |s|
  {
    if s == [] {
      assert [] + [x] == [x];
    } else {
      assert (s + [x])[1..] == s[1..] + [x];
      FilterAppend(s[1..], x, keep);
    }
  }

  /** The days the kept rows fall on. */
  ghost function KeptDays<T(!new)>(rows: seq<T>, keep: T -> bool, day: T -> int): set<int> {
    set r | r in rows && keep(r) :: day(r)
  }

  /** The kept days of a non-empty sequence: those of its tail, and its head's day if the head is kept. */
  lemma KeptDaysCons<T(!new)>(rows: seq<T>, keep: T -> bool, day: T -> int)
    requires rows != []
    ensures KeptDays(rows, keep, day)
            == KeptDays(rows[1..], keep, day) + (if keep(rows[0]) then {day(rows[0])} else {})
  {
    var rest := rows[1..];
    forall d | d in KeptDays(rows, keep, day)
      ensures d in KeptDays(rest, keep, day) + (if keep(rows[0]) then {day(rows[0])} else {})
    {
      var r :| r in rows && keep(r) && day(r) == d;
      if r != rows[0] {
        var k :| 0 <= k < |rows| && rows[k] == r;
        assert rest[k - 1] == r;
      }
    }
  }

  /** When no two rows share a day, the head's day is not a day of the tail. */
  lemma HeadDayFresh<T(!new)>(rows: seq<T>, keep: T -> bool, day: T -> int)
    requires rows != []
    requires forall i, j :: 0 <= i < j < |rows| ==> day(rows[i]) != day(rows[j])
    ensures day(rows[0]) !in KeptDays(rows[1..], keep, day)
  {
    var rest := rows[1..];
    forall r | r in rest && keep(r) ensures day(r) != day(rows[0]) {
      var k :| 0 <= k < |rest| && rest[k] == r;
      assert rows[k + 1] == r;
    }
  }

  /**
   * When no two rows share a day, the kept rows are as many as the days
   * they fall on: a row count is then a day count.
   */
  lemma {:induction false} FilterDistinctDays<T(!new)>(rows: seq<T>, keep: T -> bool, day: T -> int)
    requires forall i, j :: 0 <= i < j < |rows| ==> day(rows[i]) != day(rows[j])
    ensures |Filter(rows, keep)| == |KeptDays(rows, keep, day)|
    decreases |rows|
  {
    if rows != [] {
      var rest := rows[1..];
      assert forall i, j :: 0 <= i < j < |rest| ==> day(rest[i]) != day(rest[j]) by {
        forall i, j | 0 <= i < j < |rest| ensures day(rest[i]) != day(rest[j]) {
          assert rest[i] == rows[i + 1] && rest[j] == rows[j + 1];
        }
      }
      FilterDistinctDays(rest, keep, day);
      KeptDaysCons(rows, keep, day);
      HeadDayFresh(rows, keep, day);
    }
  }

  function DistinctQuestions(answers: set<Answer>, d: int): nat {
    |set a | a in answers && a.day == d :: a.question|
  }

  /** Minimum number of distinct questions for a day to count. */
  const MinQuestions: nat := 6

  /** Days on which at least six distinct questions were answered. */
  function QuestionDays(answers: set<Answer>): set<int> {
    set a | a in answers && DistinctQuestions(answers, a.day) >= MinQuestions :: a.day
  }

  /** A day qualifies iff it has an answer and at least six distinct questions were answered on it. */
  lemma QuestionDaysMeaning(answers: set<Answer>, d: int)
    ensures d in QuestionDays(answers) <==>
      (exists a :: a in answers && a.day == d) && DistinctQuestions(answers, d) >= MinQuestions
  {
  }

  /** The answers of days in [lo, hi] (the day filter of the postpartum query). */
  function AnswersIn(answers: set<Answer>, lo: int, hi: int): set<Answer> {
    set a | a in answers && lo <= a.day <= hi
  }

  /** Filtering the days before counting keeps exactly the qualifying days in range. */
  lemma QuestionDaysIn(answers: set<Answer>, lo: int, hi: int)
    ensures QuestionDays(AnswersIn(answers, lo, hi)) == DaysIn(QuestionDays(answers), lo, hi)
  {
    var sub := AnswersIn(answers, lo, hi);
    forall d | lo <= d <= hi
      ensures DistinctQuestions(sub, d) == DistinctQuestions(answers, d)
    {
      assert (set a | a in sub && a.day == d :: a.question)
          == (set a | a in answers && a.day == d :: a.question);
    }
  }

  // ---- Surveys

  const MMOS := "mMOS (Weekly)"
  const PromisSleep := "PROMIS Sleep (Weekly)"
  const BRCS := "BRCS (Weekly)"
  const PES := "Pregnancy Experience Scale"
  const MAAS := "Maternal Antenatal Attachment Scale"
  const EPDS := "Edinburgh Postnatal Depression Scale (EPDS)"
  const PASS := "Perinatal Anxiety Screening Scale (PASS)"

  /** The three exception surveys' names are longer than, so distinct from, every other tracked name. */
  lemma SurveyNameLengths()
    ensures |MMOS| == 13 && |PromisSleep| == 21 && |BRCS| == 13 && |PES| == 26
    ensures |MAAS| == 35 && |EPDS| == 43 && |PASS| == 40
  {
  }

  /** The surveys the questionnaire queries select: four weekly and three exception surveys. */
  predicate Tracked(survey: string) {
    survey == MMOS || survey == PromisSleep || survey == BRCS || survey == PES
    || survey == MAAS || survey == EPDS || survey == PASS
  }

  // ---- Ring wear

  /** An Oura day is worn when at least three quarters of it were worn. */
  predicate OuraWorn(row: OuraDay) { row.wearFraction >= 0.75 }

  /** An Ultrahuman day is worn when it has at least 75% of the 288 expected samples. */
  predicate UhWorn(row: UhDay) { row.samples as real >= 0.75 * ExpectedSamples as real }

  /** The Ultrahuman threshold is 216 samples. */
  lemma UhWornThreshold(row: UhDay)
    ensures UhWorn(row) <==> row.samples >= 216
  {
  }

  function OuraWornDays(rows: seq<OuraDay>): set<int> {
    set r | r in rows && OuraWorn(r) :: r.day
  }

  function UhWornDays(rows: seq<UhDay>): set<int> {
    set r | r in rows && UhWorn(r) :: r.day
  }
}
