/**
 * show_heatmap_for_stage, frame-building part: choose the postpartum or
 * the gestational adapters, fill the frame in a fixed row order, and hand
 * it to the percentage summary. The row order matters: the averages take
 * the first three rows as self-report and the rest as biometrics.
 */
module Stage {
  import opened Wrappers
  import opened Windows
  import opened DayCount
  import opened Evidence
  import opened Postpartum
  import opened Gestational
  import opened Frames
  import opened Normalizer

  /** The raw compliance matrix and its percentage summary. */
  datatype Report = Report(raw: seq<Row>, summary: Summary)

  /** The delivery-anchored branch runs only for a postpartum stage whose delivery fields are both truthy. */
  predicate PostpartumBranch(isPostpartum: bool, delivery: Option<int>, ppDays: Option<int>) {
    isPostpartum && HasDeliveryInfo(delivery, ppDays)
  }

  /** The ring row of the postpartum branch: Oura, the vendor API, or the Ultrahuman tables. */
  function PostpartumRing(first: int, last: int, delivery: Option<int>, ppDays: Option<int>,
                          ringVendor: string, uhApiCall: bool, ev: Evidence, wear: int -> Option<real>): Row {
    if ringVendor == "oura" then Row(OuraKey, Reals(DaySeries(first, last, delivery, ppDays, OuraWornDays(ev.oura))))
    else if uhApiCall then Row(RingApiKey, Reals(ApiWearSeries(first, last, delivery, ppDays, wear)))
    else Row(UhKey, Reals(DaySeries(first, last, delivery, ppDays, UhWornDays(ev.uh))))
  }

  /** The frame of the postpartum branch (lines 737-760), in insertion order. */
  function PostpartumTable(first: int, last: int, delivery: Option<int>, ppDays: Option<int>,
                           ringVendor: string, uhApiCall: bool, ev: Evidence, wear: int -> Option<real>): seq<Row> {
    [ Row(SymptomKey, Reals(DaySeries(first, last, delivery, ppDays, ev.checkins))),
      Row(QuestionsKey, Reals(DaySeries(first, last, delivery, ppDays, QuestionDays(ev.answers)))),
      Row(QuestionnaireKey, Reals(SurveySeries(first, last, delivery, ppDays, ev.submissions))),
      Row(WeightKey, Reals(DaySeries(first, last, delivery, ppDays, ev.gfWeight + ev.hkWeight))),
      Row(BpKey, Reals(DaySeries(first, last, delivery, ppDays, ev.omronBp + ev.gfBp + ev.hkBp))),
      PostpartumRing(first, last, delivery, ppDays, ringVendor, uhApiCall, ev, wear) ]
  }

  /** The first five rows of the gestational branch (lines 768-774). */
  function GestationalRows(first: int, last: int, edd: Option<int>, symptoms: seq<int>, ev: Evidence): seq<Row> {
    [ Row(SymptomKey, Reals(symptoms)),
      Row(QuestionsKey, Reals(QuestionsGestational(edd, first, last, ev.answers))),
      Row(QuestionnaireKey, Reals(SurveysGestational(edd, first, last, ev.submissions))),
      Row(WeightKey, Reals(WeightGestational(edd, first, last, ev.hkWeight, ev.gfWeight))),
      Row(BpKey, Reals(BpGestational(edd, first, last, ev.hkBp, ev.omronBp, ev.gfBp))) ]
  }

  /**
   * The frame of the gestational branch (lines 768-787). The vendor-API
   * loop of line 785 indexes a key the frame never holds, so it raises
   * KeyError on its first week; with no week to loop over the frame keeps
   * five rows.
   */
  function GestationalTable(first: int, last: int, w1: int, edd: Option<int>,
                            ringVendor: string, uhApiCall: bool, ev: Evidence): Result<seq<Row>> {
    match SymptomsGestational(edd, first, last, ev.checkins)
    case Err(e) => Err(e)
    case Ok(symptoms) =>
      var five := GestationalRows(first, last, edd, symptoms, ev);
      if ringVendor == "oura" then Ok(five + [Row(OuraKey, Reals(OuraGestational(edd, first, last, ev.oura)))])
      else if uhApiCall then (if first <= last then Err(KeyError(RingApiKey)) else Ok(five))
      else Ok(five + [Row(UhKey, Reals(UhGestational(w1, first, last, ev.uh)))])
  }

  function RawTable(first: int, last: int, w1: int, ringVendor: string, isPostpartum: bool,
                    edd: Option<int>, delivery: Option<int>, ppDays: Option<int>, uhApiCall: bool,
                    ev: Evidence, wear: int -> Option<real>): Result<seq<Row>> {
    if PostpartumBranch(isPostpartum, delivery, ppDays)
    then Ok(PostpartumTable(first, last, delivery, ppDays, ringVendor, uhApiCall, ev, wear))
    else GestationalTable(first, last, w1, edd, ringVendor, uhApiCall, ev)
  }

  /**
   * The whole stage report: the frame, the raw DataFrame of line 789 (which
   * fails when a row does not have one value per week), and the summary of
   * the converted frame.
   */
  function StageReport(first: int, last: int, w1: int, ringVendor: string, isPostpartum: bool,
                       edd: Option<int>, delivery: Option<int>, ppDays: Option<int>, uhApiCall: bool,
                       ev: Evidence, wear: int -> Option<real>): Result<Report> {
    match RawTable(first, last, w1, ringVendor, isPostpartum, edd, delivery, ppDays, uhApiCall, ev, wear)
    case Err(e) => Err(e)
    case Ok(raw) =>
      match FirstMismatch(raw, StageLength(first, last))
      case Some(key) => Err(LengthMismatch(key))
      case None =>
        match Summarize(PercentTable(raw), StageLength(first, last))
        case Err(e) => Err(e)
        case Ok(s) => Ok(Report(raw, s))
  }

  // ---- Frame building

  /** The dict literal both branches start from: the five activity rows in order. */
  method FiveRowFrame(symptoms: seq<real>, questions: seq<real>, questionnaire: seq<real>,
                      weight: seq<real>, bp: seq<real>) returns (frame: Frame)
    ensures fresh(frame) && frame.Valid()
    ensures frame.Table() == [Row(SymptomKey, symptoms), Row(QuestionsKey, questions),
                              Row(QuestionnaireKey, questionnaire), Row(WeightKey, weight), Row(BpKey, bp)]
  {
    KeyLengths();
    frame := new Frame.FromRows([Row(SymptomKey, symptoms), Row(QuestionsKey, questions),
                                 Row(QuestionnaireKey, questionnaire), Row(WeightKey, weight), Row(BpKey, bp)]);
  }

  method BuildPostpartumFrame(first: int, last: int, delivery: Option<int>, ppDays: Option<int>,
                              ringVendor: string, uhApiCall: bool, ev: Evidence, wear: int -> Option<real>)
    returns (frame: Frame)
    requires HasDeliveryInfo(delivery, ppDays)
    ensures fresh(frame) && frame.Valid()
    ensures frame.Table() == PostpartumTable(first, last, delivery, ppDays, ringVendor, uhApiCall, ev, wear)
  {
    var symptoms := SymptomsPostpartum(first, last, delivery, ppDays, ev.checkins);
    var questions := QuestionsPostpartum(first, last, delivery, ppDays, ev.answers);
    var surveys := SurveysPostpartum(first, last, delivery, ppDays, ev.submissions);
    var weight := WeightPostpartum(first, last, delivery, ppDays, ev.gfWeight, ev.hkWeight);
    var bp := BpPostpartum(first, last, delivery, ppDays, ev.omronBp, ev.gfBp, ev.hkBp);
    var ring := RingPostpartum(first, last, delivery, ppDays, ringVendor, uhApiCall, ev, wear);
    frame := FiveRowFrame(Reals(symptoms), Reals(questions), Reals(surveys), Reals(weight), Reals(bp));
    frame.Put(ring.key, ring.values);
  }

  /** The ring line of the postpartum branch (lines 754-760). */
  method RingPostpartum(first: int, last: int, delivery: Option<int>, ppDays: Option<int>,
                        ringVendor: string, uhApiCall: bool, ev: Evidence, wear: int -> Option<real>)
    returns (row: Row)
    requires HasDeliveryInfo(delivery, ppDays)
    ensures row == PostpartumRing(first, last, delivery, ppDays, ringVendor, uhApiCall, ev, wear)
  {
    if ringVendor == "oura" {
      var ring := OuraPostpartum(first, last, delivery, ppDays, ev.oura);
      row := Row(OuraKey, Reals(ring));
    } else if uhApiCall {
      var ring := WearApiPostpartum(first, last, delivery, ppDays, wear);
      row := Row(RingApiKey, Reals(ring));
    } else {
      var ring := UhPostpartum(first, last, delivery, ppDays, ev.uh);
      row := Row(UhKey, Reals(ring));
    }
  }

  method BuildGestationalFrame(first: int, last: int, w1: int, edd: Option<int>,
                               ringVendor: string, uhApiCall: bool, ev: Evidence)
    returns (r: Result<Frame>)
    ensures r.Err? ==> GestationalTable(first, last, w1, edd, ringVendor, uhApiCall, ev) == Err(r.error)
    ensures r.Ok? ==> (fresh(r.value) && r.value.Valid()
      && GestationalTable(first, last, w1, edd, ringVendor, uhApiCall, ev) == Ok(r.value.Table()))
  {
    var symptoms := SymptomsGestational(edd, first, last, ev.checkins);
    if symptoms.Err? {
      return Err(symptoms.error);
    }
    ghost var five := GestationalRows(first, last, edd, symptoms.value, ev);
    var frame := FiveRowFrame(Reals(symptoms.value), Reals(QuestionsGestational(edd, first, last, ev.answers)),
                              Reals(SurveysGestational(edd, first, last, ev.submissions)),
                              Reals(WeightGestational(edd, first, last, ev.hkWeight, ev.gfWeight)),
                              Reals(BpGestational(edd, first, last, ev.hkBp, ev.omronBp, ev.gfBp)));
    assert frame.Table() == five;
    KeyLengths();
    if ringVendor == "oura" {
      frame.Put(OuraKey, Reals(OuraGestational(edd, first, last, ev.oura)));
    } else if uhApiCall {
      if first <= last {
        // Line 785 evaluates the first week's get_weekly_wear_count (its requests and
        // cache writes are not modelled here), then subscripts frame[RingApiKey], a key
        // the frame does not hold, and raises KeyError.
        var row := frame.Get(RingApiKey);
        return Err(row.error);
      }
    } else {
      frame.Put(UhKey, Reals(UhGestational(w1, first, last, ev.uh)));
    }
    r := Ok(frame);
  }

  /**
   * show_heatmap_for_stage: the raw compliance matrix and its percentage
   * summary, or the error the source raises on the way.
   */
  method ShowHeatmapForStage(first: int, last: int, w1: int, ringVendor: string, isPostpartum: bool,
                             edd: Option<int>, delivery: Option<int>, ppDays: Option<int>, uhApiCall: bool,
                             ev: Evidence, wear: int -> Option<real>)
    returns (r: Result<Report>)
    ensures r == StageReport(first, last, w1, ringVendor, isPostpartum, edd, delivery, ppDays, uhApiCall, ev, wear)
  {
    var frame: Frame;
    if PostpartumBranch(isPostpartum, delivery, ppDays) {
      frame := BuildPostpartumFrame(first, last, delivery, ppDays, ringVendor, uhApiCall, ev, wear);
    } else {
      var built := BuildGestationalFrame(first, last, w1, edd, ringVendor, uhApiCall, ev);
      if built.Err? {
        return Err(built.error);
      }
      frame := built.value;
    }
    var raw := frame.Table();
    var n := StageLength(first, last);
    var mismatch := FirstMismatch(raw, n);
    if mismatch.Some? {
      return Err(LengthMismatch(mismatch.value));
    }
    var summary := ShowPercentageHeatmap(frame, first, last);
    if summary.Err? {
      return Err(summary.error);
    }
    r := Ok(Report(raw, summary.value));
  }

  // ---- Properties of the stage report

  lemma SurveySeriesLength(first: int, last: int, delivery: Option<int>, ppDays: Option<int>, subs: seq<Submission>)
    ensures |SurveySeries(first, last, delivery, ppDays, subs)| == StageLength(first, last)
  {
    if HasDeliveryInfo(delivery, ppDays) {
      WindowsShape(delivery.value, ppDays.value, first, last);
    }
  }

  /** Every row of the postpartum frame has one value per stage week, so the report is built. */
  lemma PostpartumRowsHaveStageLength(first: int, last: int, delivery: Option<int>, ppDays: Option<int>,
                                     ringVendor: string, uhApiCall: bool, ev: Evidence, wear: int -> Option<real>)
    requires HasDeliveryInfo(delivery, ppDays)
    ensures var t := PostpartumTable(first, last, delivery, ppDays, ringVendor, uhApiCall, ev, wear);
      |t| == 6 && forall i :: 0 <= i < 6 ==> |t[i].values| == StageLength(first, last)
  {
    DaySeriesMeaning(first, last, delivery, ppDays, ev.checkins);
    DaySeriesMeaning(first, last, delivery, ppDays, QuestionDays(ev.answers));
    SurveySeriesLength(first, last, delivery, ppDays, ev.submissions);
    DaySeriesMeaning(first, last, delivery, ppDays, ev.gfWeight + ev.hkWeight);
    DaySeriesMeaning(first, last, delivery, ppDays, ev.omronBp + ev.gfBp + ev.hkBp);
    DaySeriesMeaning(first, last, delivery, ppDays, OuraWornDays(ev.oura));
    DaySeriesMeaning(first, last, delivery, ppDays, UhWornDays(ev.uh));
    ApiWearSeriesMeaning(first, last, delivery, ppDays, wear);
  }

  /**
   * A postpartum stage with delivery information always yields a report:
   * its raw matrix is the six postpartum rows, each with one value per week.
   */
  lemma PostpartumReport(first: int, last: int, w1: int, ringVendor: string, isPostpartum: bool,
                         edd: Option<int>, delivery: Option<int>, ppDays: Option<int>, uhApiCall: bool,
                         ev: Evidence, wear: int -> Option<real>)
    requires PostpartumBranch(isPostpartum, delivery, ppDays)
    ensures var t := PostpartumTable(first, last, delivery, ppDays, ringVendor, uhApiCall, ev, wear);
      RawTable(first, last, w1, ringVendor, isPostpartum, edd, delivery, ppDays, uhApiCall, ev, wear) == Ok(t)
      && |t| == 6 && (forall i :: 0 <= i < 6 ==> |t[i].values| == StageLength(first, last))
      && StageReport(first, last, w1, ringVendor, isPostpartum, edd, delivery, ppDays, uhApiCall, ev, wear).Ok?
  {
    var t := PostpartumTable(first, last, delivery, ppDays, ringVendor, uhApiCall, ev, wear);
    PostpartumRowsHaveStageLength(first, last, delivery, ppDays, ringVendor, uhApiCall, ev, wear);
    ReportOfRaw(first, last, w1, ringVendor, isPostpartum, edd, delivery, ppDays, uhApiCall, ev, wear, t);
  }

  /**
   * The report of a six-row raw matrix with one value per week in every
   * row: week j's self-report average is the truncated sum of the
   * check-in, daily-question and questionnaire percentages over 3, and the
   * biometrics average that of the weight, blood-pressure and ring rows.
   */
  lemma SixRowReport(first: int, last: int, w1: int, ringVendor: string, isPostpartum: bool,
                     edd: Option<int>, delivery: Option<int>, ppDays: Option<int>, uhApiCall: bool,
                     ev: Evidence, wear: int -> Option<real>, t: seq<Row>, j: int)
    requires RawTable(first, last, w1, ringVendor, isPostpartum, edd, delivery, ppDays, uhApiCall, ev, wear) == Ok(t)
    requires |t| == 6 && forall i :: 0 <= i < 6 ==> |t[i].values| == StageLength(first, last)
    requires 0 <= j < StageLength(first, last)
    ensures var r := StageReport(first, last, w1, ringVendor, isPostpartum, edd, delivery, ppDays, uhApiCall, ev, wear);
      r.Ok? && r.value.raw == t
      && |r.value.summary.compensation| == StageLength(first, last)
      && r.value.summary.selfReport[j]
         == Trunc(Percent(t[0].key, t[0].values[j]) + Percent(t[1].key, t[1].values[j])
                  + Percent(t[2].key, t[2].values[j])) as real / 3.0
      && r.value.summary.biometrics[j]
         == Trunc(Percent(t[3].key, t[3].values[j]) + Percent(t[4].key, t[4].values[j])
                  + Percent(t[5].key, t[5].values[j])) as real / 3.0
  {
    SixRowWeek(t, j);
    ReportOfRaw(first, last, w1, ringVendor, isPostpartum, edd, delivery, ppDays, uhApiCall, ev, wear, t);
  }

  /** A raw matrix whose rows all have one value per week is summarized as a whole. */
  lemma ReportOfRaw(first: int, last: int, w1: int, ringVendor: string, isPostpartum: bool,
                    edd: Option<int>, delivery: Option<int>, ppDays: Option<int>, uhApiCall: bool,
                    ev: Evidence, wear: int -> Option<real>, raw: seq<Row>)
    requires RawTable(first, last, w1, ringVendor, isPostpartum, edd, delivery, ppDays, uhApiCall, ev, wear) == Ok(raw)
    requires forall i :: 0 <= i < |raw| ==> |raw[i].values| == StageLength(first, last)
    ensures Summarize(PercentTable(raw), StageLength(first, last)).Ok?
    ensures StageReport(first, last, w1, ringVendor, isPostpartum, edd, delivery, ppDays, uhApiCall, ev, wear)
            == Ok(Report(raw, Summarize(PercentTable(raw), StageLength(first, last)).value))
  {
    RowsOfLength(raw, StageLength(first, last));
  }

  /**
   * With the vendor API in the postpartum stage the ring row keeps its raw
   * day counts (its key has no conversion branch), so the biometrics
   * average stays below 70 and no week earns the $4.
   */
  lemma PostpartumApiRingNeverPaysBiometrics(first: int, last: int, w1: int, ringVendor: string, isPostpartum: bool,
                                             edd: Option<int>, delivery: Option<int>, ppDays: Option<int>,
                                             ev: Evidence, wear: int -> Option<real>, j: int)
    requires PostpartumBranch(isPostpartum, delivery, ppDays) && ringVendor != "oura"
    requires 0 <= j < StageLength(first, last)
    ensures var r := StageReport(first, last, w1, ringVendor, isPostpartum, edd, delivery, ppDays, true, ev, wear);
      r.Ok? && r.value.summary.biometrics[j] < 70.0
      && (r.value.summary.compensation[j] == 0 || r.value.summary.compensation[j] == 3)
  {
    var t := PostpartumTable(first, last, delivery, ppDays, ringVendor, true, ev, wear);
    PostpartumReport(first, last, w1, ringVendor, isPostpartum, edd, delivery, ppDays, true, ev, wear);
    SixRowReport(first, last, w1, ringVendor, isPostpartum, edd, delivery, ppDays, true, ev, wear, t, j);
    DaySeriesMeaning(first, last, delivery, ppDays, ev.gfWeight + ev.hkWeight);
    DaySeriesMeaning(first, last, delivery, ppDays, ev.omronBp + ev.gfBp + ev.hkBp);
    ApiWearSeriesMeaning(first, last, delivery, ppDays, wear);
    assert t[5].key == RingApiKey && !Normalized(RingApiKey);
    var weight, bp, ring := t[3].values[j], t[4].values[j], t[5].values[j];
    assert 0.0 <= weight && 0.0 <= bp && 0.0 <= ring <= 7.0;
    var sum := Percent(WeightKey, weight) + Percent(BpKey, bp) + Percent(RingApiKey, ring);
    assert sum <= 207.0;
    assert Trunc(sum) <= 207;
  }

  /** In the gestational stage the vendor-API branch stops with KeyError as soon as there is a week. */
  lemma GestationalApiKeyError(first: int, last: int, w1: int, ringVendor: string, isPostpartum: bool,
                               edd: Option<int>, delivery: Option<int>, ppDays: Option<int>,
                               ev: Evidence, wear: int -> Option<real>)
    requires !PostpartumBranch(isPostpartum, delivery, ppDays) && ringVendor != "oura"
    requires first <= last
    ensures StageReport(first, last, w1, ringVendor, isPostpartum, edd, delivery, ppDays, true, ev, wear)
            == Err(KeyError(RingApiKey))
  {
  }

  /**
   * Without an estimated due date the gestational adapters return empty
   * rows while the week index is not empty: the raw matrix fails on its
   * first row.
   */
  lemma MissingDueDateLengthError(first: int, last: int, w1: int, ringVendor: string, isPostpartum: bool,
                                  delivery: Option<int>, ppDays: Option<int>, uhApiCall: bool,
                                  ev: Evidence, wear: int -> Option<real>)
    requires !PostpartumBranch(isPostpartum, delivery, ppDays) && !(ringVendor != "oura" && uhApiCall)
    requires first <= last
    ensures StageReport(first, last, w1, ringVendor, isPostpartum, None, delivery, ppDays, uhApiCall, ev, wear)
            == Err(LengthMismatch(SymptomKey))
  {
  }

  /** With a due date but a reversed week range, the check-in query fails first. */
  lemma ReversedRangeQueryError(first: int, last: int, w1: int, ringVendor: string, isPostpartum: bool,
                                edd: int, delivery: Option<int>, ppDays: Option<int>, uhApiCall: bool,
                                ev: Evidence, wear: int -> Option<real>)
    requires !PostpartumBranch(isPostpartum, delivery, ppDays)
    requires last < first
    ensures StageReport(first, last, w1, ringVendor, isPostpartum, Some(edd), delivery, ppDays, uhApiCall, ev, wear)
            == Err(QueryError)
  {
  }

  /**
   * With a due date, a non-empty week range and a ring row from tables, the
   * gestational stage yields its report, one value per week in every row.
   */
  lemma GestationalReport(first: int, last: int, w1: int, ringVendor: string, isPostpartum: bool,
                          edd: int, delivery: Option<int>, ppDays: Option<int>, uhApiCall: bool,
                          ev: Evidence, wear: int -> Option<real>)
    requires !PostpartumBranch(isPostpartum, delivery, ppDays) && !(ringVendor != "oura" && uhApiCall)
    requires first <= last
    ensures var r := StageReport(first, last, w1, ringVendor, isPostpartum, Some(edd), delivery, ppDays, uhApiCall, ev, wear);
      r.Ok? && |r.value.raw| == 6
      && GestationalTable(first, last, w1, Some(edd), ringVendor, uhApiCall, ev) == Ok(r.value.raw)
      && |r.value.summary.compensation| == last - first + 1
      && forall i :: 0 <= i < 6 ==> |r.value.raw[i].values| == last - first + 1
  {
    var n := StageLength(first, last);
    var t := GestationalTable(first, last, w1, Some(edd), ringVendor, uhApiCall, ev);
    assert t.Ok? && |t.value| == 6;
    assert forall i :: 0 <= i < 6 ==> |t.value[i].values| == n;
    assert FirstMismatch(t.value, n).None? by {
      forall row | row in t.value ensures |row.values| == n {
        var i :| 0 <= i < |t.value| && t.value[i] == row;
      }
    }
    var p := PercentTable(t.value);
    assert FirstMismatch(p, n).None? by {
      forall row | row in p ensures |row.values| == n {
        var i :| 0 <= i < |p| && p[i] == row;
      }
    }
  }

  // ---- Intended gestational frame

  /**
   * The intended vendor-API row of a gestational stage: for each week
   * first..last, the worn days of its seven days starting w1 + 7(w - 1),
   * as the loop of lines 781-785 computes them.
   */
  function GestationalApiSeries(w1: int, first: int, last: int, wear: int -> Option<real>): seq<int> {
    seq(StageLength(first, last), i => |WornDays(wear, w1 + 7 * (first + i - 1), w1 + 7 * (first + i - 1) + 6)|)
  }

  /** One entry per stage week, each at most 7 and 0 exactly when no day of the week is worn. */
  lemma GestationalApiSeriesMeaning(w1: int, first: int, last: int, wear: int -> Option<real>, i: int)
    ensures |GestationalApiSeries(w1, first, last, wear)| == StageLength(first, last)
    ensures 0 <= i < StageLength(first, last) ==>
      var r, start := GestationalApiSeries(w1, first, last, wear), w1 + 7 * (first + i - 1);
      0 <= r[i] <= 7 && (r[i] == 0 <==> forall d :: start <= d <= start + 6 ==> !WearDay(wear(d)))
  {
    if 0 <= i < StageLength(first, last) {
      var start := w1 + 7 * (first + i - 1);
      WornDaysBound(wear, start, start + 6);
      if exists d :: start <= d <= start + 6 && WearDay(wear(d)) {
        var d :| start <= d <= start + 6 && WearDay(wear(d));
        assert d in WornDays(wear, start, start + 6);
      }
    }
  }

  /** The intended loop of lines 781-785: each week's wear count appended to a list. */
  method WearApiGestational(w1: int, first: int, last: int, wear: int -> Option<real>) returns (r: seq<int>)
    ensures r == GestationalApiSeries(w1, first, last, wear)
  {
    r := [];
    var week := first;
    while week <= last
      invariant |r| == StageLength(first, week - 1) && (first <= last ==> week <= last + 1)
      invariant last < first ==> week == first
      invariant forall j :: 0 <= j < |r| ==> r[j] == |WornDays(wear, w1 + 7 * (first + j - 1), w1 + 7 * (first + j - 1) + 6)|
      decreases last - week
    {
      var start := w1 + 7 * (week - 1);
      var c := DayCount.WeeklyWearCount(wear, start, start + 6);
      r := r + [c];
      week := week + 1;
    }
  }

  /**
   * The intended gestational frame: a missing due date is reported as such,
   * and the vendor-API branch adds its per-week row under the vendor-API
   * key; every other case is the frame as written.
   */
  function GestationalTableIntended(first: int, last: int, w1: int, edd: Option<int>, ringVendor: string,
                                    uhApiCall: bool, ev: Evidence, wear: int -> Option<real>): Result<seq<Row>> {
    if edd.None? then Err(MissingDueDate)
    else if ringVendor != "oura" && uhApiCall then
      match SymptomsGestational(edd, first, last, ev.checkins)
      case Err(e) => Err(e)
      case Ok(symptoms) =>
        Ok(GestationalRows(first, last, edd, symptoms, ev) + [Row(RingApiKey, Reals(GestationalApiSeries(w1, first, last, wear)))])
    else GestationalTable(first, last, w1, edd, ringVendor, uhApiCall, ev)
  }

  /** Without a due date the intended frame reports the missing anchor, whatever the weeks. */
  lemma IntendedMissingDueDate(first: int, last: int, w1: int, ringVendor: string, uhApiCall: bool,
                               ev: Evidence, wear: int -> Option<real>)
    ensures GestationalTableIntended(first, last, w1, None, ringVendor, uhApiCall, ev, wear) == Err(MissingDueDate)
  {
  }

  /**
   * With a due date and at least one week the intended frame always has
   * six rows of the stage length, the vendor-API one included, and its
   * vendor-API percentages lie in [0, 100]; outside the vendor-API branch
   * it is the frame as written.
   */
  lemma IntendedGestationalRows(first: int, last: int, w1: int, edd: int, ringVendor: string, uhApiCall: bool,
                                ev: Evidence, wear: int -> Option<real>, j: int)
    requires first <= last
    ensures var r := GestationalTableIntended(first, last, w1, Some(edd), ringVendor, uhApiCall, ev, wear);
      r.Ok? && |r.value| == 6 && (forall i :: 0 <= i < 6 ==> |r.value[i].values| == last - first + 1)
      && (!(ringVendor != "oura" && uhApiCall) ==> r == GestationalTable(first, last, w1, Some(edd), ringVendor, uhApiCall, ev))
      && (ringVendor != "oura" && uhApiCall ==>
            r.value[5].key == RingApiKey
            && (0 <= j <= last - first ==> 0.0 <= PercentIntended(RingApiKey, r.value[5].values[j]) <= 100.0))
  {
    var r := GestationalTableIntended(first, last, w1, Some(edd), ringVendor, uhApiCall, ev, wear);
    assert r.Ok? && |r.value| == 6;
    GestationalApiSeriesMeaning(w1, first, last, wear, j);
  }
}
