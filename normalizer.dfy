/**
 * show_percentage_heatmap_for_stage, numeric part: every activity row is
 * rewritten in place as a percentage, the first three rows are averaged
 * into the self-report average and the others into the biometrics
 * average, and each week's compensation follows from the two averages.
 */
module Normalizer {
  import opened Wrappers
  import opened Frames

  /** The rows that some branch of the normalization loop rewrites. */
  predicate Normalized(key: string) {
    key == SymptomKey || key == QuestionsKey || key == QuestionnaireKey || key == UhKey
    || key == OuraKey || key == WeightKey || key == BpKey
  }

  /** Rows counted in days of the week: at most 7. */
  predicate Daily(key: string) {
    key == SymptomKey || key == QuestionsKey || key == UhKey || key == OuraKey
  }

  /** Rows counted in measurements, with a target of 2 a week. */
  predicate TwiceWeekly(key: string) { key == WeightKey || key == BpKey }

  /** The raw value that corresponds to 100%. */
  function Cap(key: string): real {
    if Daily(key) then 7.0 else if TwiceWeekly(key) then 2.0 else 1.0
  }

  /**
   * The percentage of one raw weekly value. Daily rows are value/7 of 100,
   * the questionnaire is all or nothing from 1 on, weight and blood
   * pressure are full from 2 on and proportional below; a row no branch
   * matches keeps its raw value.
   */
  function Percent(key: string, x: real): (p: real)
    ensures !Normalized(key) ==> p == x
    ensures Normalized(key) && x <= 0.0 ==> p <= 0.0
    ensures Normalized(key) && 0.0 <= x ==> 0.0 <= p
    ensures Normalized(key) && x >= Cap(key) ==> p >= 100.0
    ensures Normalized(key) && 0.0 <= x <= Cap(key) ==> 0.0 <= p <= 100.0
    ensures key == QuestionnaireKey ==> (p == 100.0 <==> x >= 1.0) && (p == 0.0 <==> x < 1.0)
    ensures TwiceWeekly(key) && x >= 2.0 ==> p == 100.0
  {
    if Daily(key) then x / 7.0 * 100.0
    else if key == QuestionnaireKey then (if x >= 1.0 then 100.0 else 0.0)
    else if TwiceWeekly(key) then (if x >= 2.0 then 100.0 else x / 2.0 * 100.0)
    else x
  }

  /** Each conversion is monotone, sends 0 to 0 and its cap to 100. */
  lemma PercentMonotone(key: string, x: real, y: real)
    requires x <= y
    ensures Percent(key, x) <= Percent(key, y)
    ensures Normalized(key) ==> Percent(key, 0.0) == 0.0 && Percent(key, Cap(key)) == 100.0
  {
  }

  /** A twice-weekly row at one measurement is half done: 50%. */
  lemma WeightHalf(key: string)
    requires TwiceWeekly(key)
    ensures Percent(key, 1.0) == 50.0
  {
  }

  /**
   * The intended conversion: the vendor-API ring row counts worn days like
   * the other ring rows, so it is days/7 of 100 as well.
   */
  function PercentIntended(key: string, x: real): real {
    if key == RingApiKey then x / 7.0 * 100.0 else Percent(key, x)
  }

  /**
   * Under the intended conversion the vendor-API ring row behaves like the
   * other ring rows: 0 to 7 worn days map monotonically onto 0 to 100,
   * with 100 for a fully worn week; every other row is converted as written.
   */
  lemma RingApiConverted(x: real, y: real)
    requires 0.0 <= x <= y <= 7.0
    ensures 0.0 <= PercentIntended(RingApiKey, x) <= PercentIntended(RingApiKey, y) <= 100.0
    ensures PercentIntended(RingApiKey, 7.0) == 100.0 && Percent(RingApiKey, 7.0) == 7.0
    ensures forall key :: key != RingApiKey ==> PercentIntended(key, x) == Percent(key, x)
  {
  }

  /**
   * A week with two weight and two blood-pressure measurements and seven
   * worn days: as written the ring row adds 7 and the biometrics average
   * is 69, below 70; with the intended conversion it is 100.
   */
  lemma RingApiBiometricsWeek()
    ensures Average([Row(WeightKey, [Percent(WeightKey, 2.0)]), Row(BpKey, [Percent(BpKey, 2.0)]),
                     Row(RingApiKey, [Percent(RingApiKey, 7.0)])], 0) == 69.0
    ensures Average([Row(WeightKey, [PercentIntended(WeightKey, 2.0)]), Row(BpKey, [PercentIntended(BpKey, 2.0)]),
                     Row(RingApiKey, [PercentIntended(RingApiKey, 7.0)])], 0) == 100.0
  {
    ThreeRowSum(Row(WeightKey, [100.0]), Row(BpKey, [100.0]), Row(RingApiKey, [7.0]), 0);
    ThreeRowSum(Row(WeightKey, [100.0]), Row(BpKey, [100.0]), Row(RingApiKey, [100.0]), 0);
    assert Trunc(207.0) == 207;
    assert Trunc(300.0) == 300;
  }

  /** The row a key's branch produces: every value converted, or the row itself when no branch matches. */
  function Converted(key: string, row: seq<real>): (c: seq<real>)
    ensures |c| == |row| && forall i :: 0 <= i < |row| ==> c[i] == Percent(key, row[i])
  {
    seq(|row|, i requires 0 <= i < |row| => Percent(key, row[i]))
  }

  /** The frame after the normalization loop: each row converted by its own key. */
  function PercentTable(t: seq<Row>): (p: seq<Row>)
    ensures |p| == |t| && forall i :: 0 <= i < |t| ==> p[i] == Row(t[i].key, Converted(t[i].key, t[i].values))
  {
    seq(|t|, i requires 0 <= i < |t| => Row(t[i].key, Converted(t[i].key, t[i].values)))
  }

  /** The list built by the branch of one key (lines 814-845). */
  method ConvertRow(key: string, row: seq<real>) returns (percentages: seq<real>)
    ensures percentages == Converted(key, row)
  {
    percentages := [];
    for i := 0 to |row|
      invariant |percentages| == i
      invariant forall j :: 0 <= j < i ==> percentages[j] == Percent(key, row[j])
    {
      var x := row[i];
      if Daily(key) {
        percentages := percentages + [x / 7.0 * 100.0];
      } else if key == QuestionnaireKey {
        percentages := percentages + [if x >= 1.0 then 100.0 else 0.0];
      } else if TwiceWeekly(key) {
        if x >= 2.0 {
          percentages := percentages + [100.0];
        } else {
          percentages := percentages + [x / 2.0 * 100.0];
        }
      } else {
        percentages := percentages + [x];
      }
    }
  }

  /**
   * The loop of lines 813-845: every row whose key a branch matches is
   * replaced by its percentages; the order of the rows and the other rows
   * stay as they were.
   */
  method NormalizeFrame(frame: Frame)
    requires frame.Valid()
    modifies frame
    ensures frame.Valid()
    ensures frame.keys == old(frame.keys)
    ensures forall k :: k in frame.keys ==>
      frame.cells[k] == if Normalized(k) then Converted(k, old(frame.cells[k])) else old(frame.cells[k])
  {
    ghost var original := frame.cells;
    for i := 0 to |frame.keys|
      invariant frame.Valid() && frame.keys == old(frame.keys)
      invariant forall k :: k in frame.cells <==> k in original
      invariant forall j :: 0 <= j < i ==>
        frame.cells[frame.keys[j]] == (if Normalized(frame.keys[j]) then Converted(frame.keys[j], original[frame.keys[j]])
                                       else original[frame.keys[j]])
      invariant forall j :: i <= j < |frame.keys| ==> frame.cells[frame.keys[j]] == original[frame.keys[j]]
    {
      var key := frame.keys[i];
      var value := frame.cells[key];
      if Normalized(key) {
        var percentages := ConvertRow(key, value);
        frame.Put(key, percentages);
      }
    }
    forall k | k in frame.keys
      ensures frame.cells[k] == if Normalized(k) then Converted(k, original[k]) else original[k]
    {
      var j :| 0 <= j < |frame.keys| && frame.keys[j] == k;
    }
  }

  // ---- Averages and compensation (lines 847-858, 890)

  /** pandas' astype(int): truncation toward zero. */
  function Trunc(x: real): (t: int)
    ensures 0.0 <= x ==> t as real <= x < t as real + 1.0
    ensures x <= 0.0 ==> t as real - 1.0 < x <= t as real
  {
    if x >= 0.0 then x.Floor else -((-x).Floor)
  }

  /** The sum of column j over the rows (df.sum(axis=0)); a row too short adds nothing. */
  function ColumnSum(rows: seq<Row>, j: int): real
    decreases |rows|
  {
    if rows == [] then 0.0
    else (if 0 <= j < |rows[0].values| then rows[0].values[j] else 0.0) + ColumnSum(rows[1..], j)
  }

  /** Column sums of rows whose values all lie in [0, 100] lie in [0, 100 times the number of rows]. */
  lemma {:induction false} ColumnSumBounds(rows: seq<Row>, j: int)
    requires forall r :: r in rows ==> |r.values| > j >= 0
    requires forall r, i :: r in rows && 0 <= i < |r.values| ==> 0.0 <= r.values[i] <= 100.0
    ensures 0.0 <= ColumnSum(rows, j) <= 100.0 * |rows| as real
    decreases |rows|
  {
    if rows != [] {
      assert rows[0] in rows;
      ColumnSumBounds(rows[1..], j);
    }
  }

  function Min(a: int, b: int): int { if a <= b then a else b }

  /** df.iloc[:3] and df.iloc[3:]: the rows by position, not by name. */
  function SelfRows(t: seq<Row>): seq<Row> { t[..Min(3, |t|)] }
  function BioRows(t: seq<Row>): seq<Row> { t[Min(3, |t|)..] }

  /** An average row: the truncated column sum divided by 3. */
  function Average(rows: seq<Row>, j: int): real { Trunc(ColumnSum(rows, j)) as real / 3.0 }

  /** An average reaches 70 exactly when the truncated sum reaches 210. */
  lemma AverageThreshold(rows: seq<Row>, j: int)
    ensures Average(rows, j) >= 70.0 <==> Trunc(ColumnSum(rows, j)) >= 210
  {
  }

  /** Three rows of percentages in [0, 100] average to a value in [0, 100]. */
  lemma AverageBounds(rows: seq<Row>, j: int)
    requires |rows| == 3
    requires forall r :: r in rows ==> |r.values| > j >= 0
    requires forall r, i :: r in rows && 0 <= i < |r.values| ==> 0.0 <= r.values[i] <= 100.0
    ensures 0.0 <= Average(rows, j) <= 100.0
  {
    ColumnSumBounds(rows, j);
  }

  /** $3 when self-report reaches 70, plus $4 when biometrics reaches 70 (both inclusive). */
  function WeeklyComp(selfReport: real, biometrics: real): (c: int)
    ensures c == 0 || c == 3 || c == 4 || c == 7
    ensures (c == 3 || c == 7) <==> selfReport >= 70.0
    ensures c >= 4 <==> biometrics >= 70.0
  {
    (if selfReport >= 70.0 then 1 else 0) * 3 + (if biometrics >= 70.0 then 1 else 0) * 4
  }

  function Sum(s: seq<int>): int
    decreases |s|
  {
    if s == [] then 0 else Sum(s[..|s| - 1]) + s[|s| - 1]
  }

  /** Weeks at which the predicate of an average holds, counted. */
  function CountWhere(s: seq<real>): nat
    decreases |s|
  {
    if s == [] then 0 else CountWhere(s[..|s| - 1]) + (if s[|s| - 1] >= 70.0 then 1 else 0)
  }

  /**
   * The stage total is $3 per week whose self-report average reaches 70
   * plus $4 per week whose biometrics average does, so at most $7 a week.
   */
  lemma {:induction false} StageTotalMeaning(self: seq<real>, bio: seq<real>, comp: seq<int>)
    requires |self| == |bio| == |comp|
    requires forall j :: 0 <= j < |comp| ==> comp[j] == WeeklyComp(self[j], bio[j])
    ensures Sum(comp) == 3 * CountWhere(self) + 4 * CountWhere(bio)
    ensures 0 <= Sum(comp) <= 7 * |comp|
    decreases |comp|
  {
    if comp != [] {
      var k := |comp| - 1;
      StageTotalMeaning(self[..k], bio[..k], comp[..k]);
      assert CountWhere(self[..k]) <= k by { CountWhereBound(self[..k]); }
      assert CountWhere(bio[..k]) <= k by { CountWhereBound(bio[..k]); }
    }
  }

  lemma {:induction false} CountWhereBound(s: seq<real>)
    ensures CountWhere(s) <= |s|
    decreases |s|
  {
    if s != [] {
      CountWhereBound(s[..|s| - 1]);
    }
  }

  /** The rows, averages and compensation of a stage's percentage matrix. */
  datatype Summary = Summary(
    percentages: seq<Row>,
    selfReport: seq<real>,
    biometrics: seq<real>,
    compensation: seq<int>,
    total: int)

  /** The first row whose length is not the number of weeks, if any. */
  function FirstMismatch(t: seq<Row>, n: nat): (m: Option<string>)
    ensures m.None? <==> forall r :: r in t ==> |r.values| == n
    ensures m.Some? ==> exists r :: r in t && r.key == m.value && |r.values| != n
    decreases |t|
  {
    if t == [] then None
    else if |t[0].values| != n then Some(t[0].key)
    else FirstMismatch(t[1..], n)
  }

  /**
   * DataFrame(frame, index=weeks) and the rows below it: a length error
   * when a row does not have one value per week, otherwise the two
   * averages by position, the weekly compensation and its sum.
   */
  function Summarize(t: seq<Row>, n: nat): (r: Result<Summary>)
    ensures r.Err? <==> exists row :: row in t && |row.values| != n
    ensures r.Ok? ==>
      var s := r.value;
      s.percentages == t && |s.selfReport| == |s.biometrics| == |s.compensation| == n
      && (forall j :: 0 <= j < n ==>
            s.selfReport[j] == Average(SelfRows(t), j) && s.biometrics[j] == Average(BioRows(t), j)
            && s.compensation[j] == WeeklyComp(s.selfReport[j], s.biometrics[j]))
      && s.total == Sum(s.compensation)
  {
    match FirstMismatch(t, n)
    case Some(key) => Err(LengthMismatch(key))
    case None =>
      var self := seq(n, j => Average(SelfRows(t), j));
      var bio := seq(n, j => Average(BioRows(t), j));
      var comp := seq(n, j requires 0 <= j < n => WeeklyComp(self[j], bio[j]));
      Ok(Summary(t, self, bio, comp, Sum(comp)))
  }

  /**
   * show_percentage_heatmap_for_stage: rewrites the caller's frame in place
   * and returns the percentage matrix with its averages and compensation.
   */
  method ShowPercentageHeatmap(frame: Frame, first: int, last: int) returns (r: Result<Summary>)
    requires frame.Valid()
    modifies frame
    ensures frame.Valid() && frame.keys == old(frame.keys)
    ensures forall k :: k in frame.keys ==>
      frame.cells[k] == if Normalized(k) then Converted(k, old(frame.cells[k])) else old(frame.cells[k])
    ensures frame.Table() == PercentTable(old(frame.Table()))
    ensures r == Summarize(frame.Table(), if last < first then 0 else last - first + 1)
  {
    ghost var raw := frame.Table();
    NormalizeFrame(frame);
    forall i | 0 <= i < |raw| ensures frame.Table()[i] == PercentTable(raw)[i] {
      var k := raw[i].key;
      if !Normalized(k) {
        assert Converted(k, raw[i].values) == raw[i].values;
      }
    }
    r := Summarize(frame.Table(), if last < first then 0 else last - first + 1);
  }

  /** The column sum of three rows long enough for column j. */
  lemma ThreeRowSum(x: Row, y: Row, z: Row, j: int)
    requires 0 <= j < |x.values| && j < |y.values| && j < |z.values|
    ensures ColumnSum([x, y, z], j) == x.values[j] + y.values[j] + z.values[j]
  {
    assert [x, y, z][1..] == [y, z] && [y, z][1..] == [z] && [z][1..] == [];
    assert ColumnSum([z], j) == z.values[j];
    assert ColumnSum([y, z], j) == y.values[j] + z.values[j];
  }

  /** Rows of one length n: nothing to report for the raw matrix, or for its percentages. */
  lemma RowsOfLength(t: seq<Row>, n: nat)
    requires forall i :: 0 <= i < |t| ==> |t[i].values| == n
    ensures FirstMismatch(t, n).None? && FirstMismatch(PercentTable(t), n).None?
  {
    var p := PercentTable(t);
    forall row | row in t ensures |row.values| == n {
      var i :| 0 <= i < |t| && t[i] == row;
    }
    forall row | row in p ensures |row.values| == n {
      var i :| 0 <= i < |p| && p[i] == row;
    }
  }

  /** Entry j of row i of the converted table is the percentage of the raw entry. */
  lemma ConvertedAt(t: seq<Row>, i: int, j: int)
    requires 0 <= i < |t| && 0 <= j < |t[i].values|
    ensures |PercentTable(t)[i].values| == |t[i].values|
    ensures PercentTable(t)[i].values[j] == Percent(t[i].key, t[i].values[j])
  {
  }

  /** In a six-row table the self-report rows are rows 1-3 and the biometrics rows 4-6, averaged column by column. */
  lemma SixRowColumns(p: seq<Row>, j: int)
    requires |p| == 6 && forall i :: 0 <= i < 6 ==> 0 <= j < |p[i].values|
    ensures Average(SelfRows(p), j) == Trunc(p[0].values[j] + p[1].values[j] + p[2].values[j]) as real / 3.0
    ensures Average(BioRows(p), j) == Trunc(p[3].values[j] + p[4].values[j] + p[5].values[j]) as real / 3.0
  {
    assert SelfRows(p) == [p[0], p[1], p[2]] && BioRows(p) == [p[3], p[4], p[5]];
    ThreeRowSum(p[0], p[1], p[2], j);
    ThreeRowSum(p[3], p[4], p[5], j);
  }

  /**
   * In week j of a six-row matrix, the self-report average is the truncated
   * sum of the first three rows' percentages over 3, the biometrics average
   * that of the last three.
   */
  lemma SixRowWeek(t: seq<Row>, j: int)
    requires |t| == 6 && forall i :: 0 <= i < 6 ==> 0 <= j < |t[i].values|
    ensures Average(SelfRows(PercentTable(t)), j)
            == Trunc(Percent(t[0].key, t[0].values[j]) + Percent(t[1].key, t[1].values[j])
                     + Percent(t[2].key, t[2].values[j])) as real / 3.0
    ensures Average(BioRows(PercentTable(t)), j)
            == Trunc(Percent(t[3].key, t[3].values[j]) + Percent(t[4].key, t[4].values[j])
                     + Percent(t[5].key, t[5].values[j])) as real / 3.0
  {
    var p := PercentTable(t);
    assert j < |t[0].values| && j < |t[1].values| && j < |t[2].values|;
    assert j < |t[3].values| && j < |t[4].values| && j < |t[5].values|;
    ConvertedAt(t, 0, j);
    ConvertedAt(t, 1, j);
    ConvertedAt(t, 2, j);
    ConvertedAt(t, 3, j);
    ConvertedAt(t, 4, j);
    ConvertedAt(t, 5, j);
    SixRowColumns(p, j);
  }
}
