/**
 * Postpartum week windows: week 1 starts on the delivery day, and every
 * window is clipped to the end of the postpartum period.
 */
module Windows {
  import opened Wrappers

  /** One postpartum week: its number and its first and last day (inclusive). */
  datatype Window = Window(week: int, start: int, end: int)

  function Min(a: int, b: int): int { if a <= b then a else b }

  /** Last day of the postpartum period: delivery plus the period length. */
  function PeriodEnd(delivery: int, ppDays: int): int { delivery + ppDays }

  function WeekStart(delivery: int, week: int): int { delivery + 7 * (week - 1) }

  /** Week `week` is kept exactly when it starts no later than the end of the period. */
  predicate Included(delivery: int, ppDays: int, week: int) {
    WeekStart(delivery, week) <= PeriodEnd(delivery, ppDays)
  }

  /** The window of week `week`: seven days, cut short at the end of the period. */
  function MakeWindow(delivery: int, ppDays: int, week: int): Window {
    var start := WeekStart(delivery, week);
    Window(week, start, Min(start + 6, PeriodEnd(delivery, ppDays)))
  }

  /** Python truthiness of the two delivery fields: absent values and a zero length are falsy. */
  predicate HasDeliveryInfo(delivery: Option<int>, ppDays: Option<int>) {
    delivery.Some? && ppDays.Some? && ppDays.value != 0
  }

  /** The windows of weeks first..last that start within the period, in week order. */
  function WindowsUpTo(delivery: int, ppDays: int, first: int, last: int): seq<Window>
    decreases last - first
  {
    if last < first then []
    else WindowsUpTo(delivery, ppDays, first, last - 1)
         + (if Included(delivery, ppDays, last) then [MakeWindow(delivery, ppDays, last)] else [])
  }

  /** Number of weeks in first..last, as Python's range(first, last + 1) has them. */
  function StageLength(first: int, last: int): nat { if last < first then 0 else last - first + 1 }

  /** A later week starts later, so inclusion only ever stops once. */
  lemma IncludedMonotone(delivery: int, ppDays: int, v: int, w: int)
    requires v <= w && Included(delivery, ppDays, w)
    ensures Included(delivery, ppDays, v)
  {
  }

  /**
   * The windows are the weeks first, first+1, ... in order, each exactly
   * MakeWindow of its week, and a week of the stage has a window iff it
   * starts within the period: the included weeks form a prefix of the stage.
   */
  lemma {:induction false} WindowsShape(delivery: int, ppDays: int, first: int, last: int)
    ensures var ws := WindowsUpTo(delivery, ppDays, first, last);
      |ws| <= StageLength(first, last)
      && (forall i :: 0 <= i < |ws| ==> ws[i] == MakeWindow(delivery, ppDays, first + i))
      && (forall w :: first <= w <= last ==> (w - first < |ws| <==> Included(delivery, ppDays, w)))
    decreases last - first
  {
    if last >= first {
      WindowsShape(delivery, ppDays, first, last - 1);
      var prev := WindowsUpTo(delivery, ppDays, first, last - 1);
      if Included(delivery, ppDays, last) {
        forall w | first <= w <= last - 1 ensures Included(delivery, ppDays, w) {
          IncludedMonotone(delivery, ppDays, w, last);
        }
        assert |prev| == last - first;
      }
    }
  }

  /** Every window holds at least its first day. */
  lemma WindowsNonEmpty(delivery: int, ppDays: int, first: int, last: int)
    ensures forall win :: win in WindowsUpTo(delivery, ppDays, first, last) ==> win.start <= win.end
  {
    WindowsShape(delivery, ppDays, first, last);
    var ws := WindowsUpTo(delivery, ppDays, first, last);
    forall win | win in ws ensures win.start <= win.end {
      var i :| 0 <= i < |ws| && ws[i] == win;
      assert first + i - first < |ws|;
      assert Included(delivery, ppDays, first + i);
    }
  }

  /** Every window lies inside [delivery, end of period] and holds at most seven days. */
  lemma WindowsWithinPeriod(delivery: int, ppDays: int, first: int, last: int)
    requires 1 <= first
    ensures forall win :: win in WindowsUpTo(delivery, ppDays, first, last) ==>
      delivery <= win.start <= win.end <= PeriodEnd(delivery, ppDays)
      && win.end - win.start <= 6
  {
    WindowsShape(delivery, ppDays, first, last);
    var ws := WindowsUpTo(delivery, ppDays, first, last);
    forall win | win in ws
      ensures delivery <= win.start <= win.end <= PeriodEnd(delivery, ppDays) && win.end - win.start <= 6
    {
      var i :| 0 <= i < |ws| && ws[i] == win;
      assert first + i - first < |ws|;
      assert Included(delivery, ppDays, first + i);
    }
  }

  /**
   * calculate_postpartum_weeks_from_delivery: None when either delivery
   * field is falsy, otherwise the windows of the stage's weeks that start
   * no later than the end of the postpartum period.
   */
  method PostpartumWeeks(first: int, last: int, delivery: Option<int>, ppDays: Option<int>)
    returns (r: Option<seq<Window>>)
    ensures r.None? <==> !HasDeliveryInfo(delivery, ppDays)
    ensures r.Some? ==> r.value == WindowsUpTo(delivery.value, ppDays.value, first, last)
  {
    if !HasDeliveryInfo(delivery, ppDays) {
      return None;
    }
    var d, p := delivery.value, ppDays.value;
    var periodEnd := d + p;
    var ranges: seq<Window> := [];
    var week := first;
    while week <= last
      invariant last < first ==> week == first
      invariant first <= last ==> first <= week <= last + 1
      invariant ranges == WindowsUpTo(d, p, first, week - 1)
      decreases last - week
    {
      var start := d + 7 * (week - 1);
      var end := start + 6;
      if start <= periodEnd {
        ranges := ranges + [Window(week, start, Min(end, periodEnd))];
      }
      week := week + 1;
    }
    return Some(ranges);
  }
}
