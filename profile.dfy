/** The survival profile of the matched cluster as a time series: each
    survival probability paired with a day of the fixed axis
    `range(0, 730, 30)`. */
module Profile {
  import opened Wrappers

  /** Python's `range(start, stop, step)` for a positive step. */
  function Range(start: int, stop: int, step: nat): (r: seq<int>)
    requires step > 0
    decreases stop - start
  {
    if start >= stop then [] else [start] + Range(start + step, stop, step)
  }

  /** Element `i` of a range is `start + step * i`, and it exists exactly
      when that value is still below `stop`. */
  lemma {:induction false} RangeAt(start: int, stop: int, step: nat, i: nat)
    requires step > 0
    ensures i < |Range(start, stop, step)| <==> start + step * i < stop
    ensures i < |Range(start, stop, step)| ==> Range(start, stop, step)[i] == start + step * i
    decreases stop - start
  {
    if start < stop && i > 0 {
      RangeAt(start + step, stop, step, i - 1);
      assert step * i == step + step * (i - 1);
    } else if start >= stop && i > 0 {
      assert step * i >= 0;
    }
  }

  /** The number of days on the survival axis. */
  const AxisLength: nat := 25

  /** The day axis of the survival chart, `list(range(0, 730, 30))`. */
  function SurvivalDays(): (days: seq<int>)
    ensures |days| == AxisLength
    ensures forall i :: 0 <= i < |days| ==> days[i] == 30 * i
  {
    RangeAt(0, 730, 30, AxisLength - 1);
    RangeAt(0, 730, 30, AxisLength);
    RangeDays();
    Range(0, 730, 30)
  }

  lemma RangeDays()
    ensures forall i: nat :: i < |Range(0, 730, 30)| ==> Range(0, 730, 30)[i] == 30 * i
  {
    forall i: nat | i < |Range(0, 730, 30)| ensures Range(0, 730, 30)[i] == 30 * i {
      RangeAt(0, 730, 30, i);
    }
  }

  /** One row of the chart's frame: a day and the survival rate on it. */
  datatype SeriesPoint = SeriesPoint(day: int, rate: real)

  /** The frame built from a cluster's survival rates and the day axis. A
      frame needs columns of one length, so a profile with any other number
      of rates than the axis has days gives no frame. */
  function Series(rates: seq<real>): (r: Option<seq<SeriesPoint>>)
    ensures r.Some? <==> |rates| == AxisLength
    ensures r.Some? ==> |r.value| == |rates|
    ensures r.Some? ==> forall i :: 0 <= i < |rates| ==> r.value[i] == SeriesPoint(30 * i, rates[i])
  {
    var days := SurvivalDays();
    if |rates| != |days| then None
    else Some(seq(|days|, i requires 0 <= i < |days| => SeriesPoint(days[i], rates[i])))
  }

  /** The frame's last row is day 720, the end of the two-year axis. */
  lemma LastDay(rates: seq<real>)
    requires |rates| == AxisLength
    ensures Series(rates).Some? && Series(rates).value[AxisLength - 1].day == 720
  {
  }
}
