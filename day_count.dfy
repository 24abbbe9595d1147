/**
 * The day-by-day counting loop shared by every postpartum adapter and by
 * the vendor-API wear count: walk a window one day at a time and count the
 * days that qualify.
 */
module DayCount {
  import opened Wrappers

  /** A series of n zeros, as Python's [0] * n. */
  function Zeros(n: nat): (z: seq<int>)
    ensures |z| == n && forall i :: 0 <= i < n ==> z[i] == 0
  {
    seq(n, _ => 0)
  }

  /** The days of `days` that lie in [start, end]. */
  function DaysIn(days: set<int>, start: int, end: int): set<int> {
    set d | d in days && start <= d <= end
  }

  /** Extending a window by one day adds that day exactly when it qualifies. */
  lemma DaysInStep(days: set<int>, start: int, end: int)
    requires start <= end
    ensures DaysIn(days, start, end)
              == DaysIn(days, start, end - 1) + (if end in days then {end} else {})
    ensures end !in DaysIn(days, start, end - 1)
  {
  }

  /** A window holds no more qualifying days than it has days. */
  lemma {:induction false} DaysInBound(days: set<int>, start: int, end: int)
    ensures |DaysIn(days, start, end)| <= if end < start then 0 else end - start + 1
    decreases end - start
  {
    if end < start {
      assert DaysIn(days, start, end) == {};
    } else {
      DaysInStep(days, start, end);
      DaysInBound(days, start, end - 1);
    }
  }

  /** A window counts 0 exactly when no qualifying day falls in it. */
  lemma DaysInNone(days: set<int>, start: int, end: int)
    ensures |DaysIn(days, start, end)| == 0 <==> forall d :: d in days ==> !(start <= d <= end)
  {
    if exists d :: d in days && start <= d <= end {
      var d :| d in days && start <= d <= end;
      assert d in DaysIn(days, start, end);
    }
  }

  /** A subset is no larger than its superset. */
  lemma {:induction false} SubsetCardinality<T>(a: set<T>, b: set<T>)
    requires a <= b
    ensures |a| <= |b|
    decreases a
  {
    if a != {} {
      var x :| x in a;
      SubsetCardinality(a - {x}, b - {x});
    }
  }

  /** A day outside the window does not change its count. */
  lemma DaysInIgnoresOutside(days: set<int>, start: int, end: int, extra: int)
    requires extra < start || end < extra
    ensures DaysIn(days + {extra}, start, end) == DaysIn(days, start, end)
  {
  }

  /**
   * The inner loop of every postpartum adapter: the number of days of
   * [start, end] that belong to the qualifying set.
   */
  method CountDays(days: set<int>, start: int, end: int) returns (count: nat)
    ensures count == |DaysIn(days, start, end)|
    ensures count <= if end < start then 0 else end - start + 1
  {
    count := 0;
    var current := start;
    while current <= end
      invariant end < start ==> current == start
      invariant start <= end ==> start <= current <= end + 1
      invariant count == |DaysIn(days, start, current - 1)|
      decreases end - current
    {
      DaysInStep(days, start, current);
      if current in days {
        count := count + 1;
      }
      current := current + 1;
    }
    if end < start {
      assert DaysIn(days, start, end) == {};
    }
    DaysInBound(days, start, end);
  }

  /** Samples a fully worn day produces: one every five minutes. */
  const ExpectedSamples: nat := 288

  /** A day counts for the vendor API when its percentage is known and at least 75. */
  predicate WearDay(percentage: Option<real>) {
    percentage.Some? && percentage.value >= 75.0
  }

  /** The days of [start, end] that the per-day wear percentages qualify. */
  function WornDays(wear: int -> Option<real>, start: int, end: int): set<int> {
    set d | start <= d <= end && WearDay(wear(d))
  }

  lemma WornDaysStep(wear: int -> Option<real>, start: int, end: int)
    requires start <= end
    ensures WornDays(wear, start, end)
              == WornDays(wear, start, end - 1) + (if WearDay(wear(end)) then {end} else {})
    ensures end !in WornDays(wear, start, end - 1)
  {
  }

  lemma {:induction false} WornDaysBound(wear: int -> Option<real>, start: int, end: int)
    ensures |WornDays(wear, start, end)| <= if end < start then 0 else end - start + 1
    decreases end - start
  {
    if end < start {
      assert WornDays(wear, start, end) == {};
    } else {
      WornDaysStep(wear, start, end);
      WornDaysBound(wear, start, end - 1);
    }
  }

  /**
   * get_weekly_wear_count: the number of days from start to end whose wear
   * percentage is present and at least 75. `wear` stands for the per-day
   * lookup calculate_daily_wear performs.
   */
  method WeeklyWearCount(wear: int -> Option<real>, start: int, end: int) returns (count: nat)
    ensures count == |WornDays(wear, start, end)|
    ensures count <= if end < start then 0 else end - start + 1
  {
    count := 0;
    var current := start;
    while current <= end
      invariant end < start ==> current == start
      invariant start <= end ==> start <= current <= end + 1
      invariant count == |WornDays(wear, start, current - 1)|
      decreases end - current
    {
      WornDaysStep(wear, start, current);
      var percentage := wear(current);
      if percentage.Some? && percentage.value >= 75.0 {
        count := count + 1;
      }
      current := current + 1;
    }
    if end < start {
      assert WornDays(wear, start, end) == {};
    }
    WornDaysBound(wear, start, end);
  }

  /** 75 percent of the expected samples is 216 samples. */
  lemma WearThreshold(samples: nat)
    ensures (samples as real / ExpectedSamples as real) * 100.0 >= 75.0 <==> samples >= 216
  {
  }
}
