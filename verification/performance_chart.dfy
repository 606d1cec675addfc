/** The performance chart: the sample series turned into dated points, the
    time-range buttons that pick a slice or a repetition of it, and the change
    figures shown above the chart. */
module PerformanceChart {

  datatype TimeRange = OneWeek | OneMonth | ThreeMonths | OneYear | AllTime

  /** The range selected when the chart first shows. */
  const InitialTimeRange: TimeRange := OneMonth

  /** A chart point: its date is `daysAgo` days before the current time (the
      formatted label is left out) and `value` is the portfolio value. */
  datatype Point = Point(daysAgo: int, value: real)

  /** The series as chart points: the values in order, dated one day apart,
      the first 30 days ago and so the last `31 - |values|` days ago. */
  function Points(values: seq<real>): (data: seq<Point>)
    ensures |data| == |values|
    ensures forall i :: 0 <= i < |values| ==> data[i].value == values[i]
    ensures forall i, j :: 0 <= i < j < |values| ==> data[i].daysAgo > data[j].daysAgo
    ensures values != [] ==> data[0].daysAgo == 30 && data[|data| - 1].daysAgo == 31 - |values|
  {
    seq(|values|, i requires 0 <= i < |values| => Point(30 - i, values[i]))
  }

  /** `k` copies of `d`, one after the other. */
  function Repeat(d: seq<Point>, k: nat): seq<Point>
  {
    if k == 0 then [] else Repeat(d, k - 1) + d
  }

  /** Copy after copy, position `i` holds point `i mod |d|`. */
  lemma {:induction false} RepeatAt(d: seq<Point>, k: nat)
    ensures |Repeat(d, k)| == k * |d|
    ensures forall i :: 0 <= i < k * |d| ==> Repeat(d, k)[i] == d[i % |d|]
  {
    if k > 0 {
      RepeatAt(d, k - 1);
      var r := Repeat(d, k);
      forall i | 0 <= i < k * |d|
        ensures r[i] == d[i % |d|]
      {
        if i >= (k - 1) * |d| {
          var j := i - (k - 1) * |d|;
          assert r[i] == d[j];
          ModuloShift(i, j, k - 1, |d|);
        }
      }
    }
  }

  /** Position `q * n + j` of a repetition is position `j` of a copy. */
  lemma {:induction false} ModuloShift(i: int, j: int, q: nat, n: nat)
    requires 0 <= j < n && i == q * n + j
    ensures i % n == j
  {
    if q > 0 {
      ModuloShift(i - n, j, q - 1, n);
      ModuloStep(i - n, n);
    }
  }

  lemma ModuloStep(x: int, n: int)
    requires n > 0
    ensures (x + n) % n == x % n
  {
    var q, r := x / n, x % n;
    var q2, r2 := (x + n) / n, (x + n) % n;
    assert x == q * n + r;
    assert x + n == q2 * n + r2;
    var d := q + 1 - q2;
    assert d * n == (q + 1) * n - q2 * n;
    assert (q + 1) * n == q * n + n;
    if d >= 1 {
      MultipleAtLeast(d, n);
    } else if d <= -1 {
      MultipleAtLeast(-d, n);
    }
  }

  lemma MultipleAtLeast(a: int, n: int)
    requires n > 0 && a >= 1
    ensures a * n >= n
  {
  }

  lemma RepeatSmall(d: seq<Point>)
    ensures Repeat(d, 3) == d + d + d
    ensures Repeat(d, 4) == d + d + d + d
  {
    assert Repeat(d, 1) == [] + d == d;
    assert Repeat(d, 2) == d + d;
  }

  /** JavaScript `slice(0, end)`: clamps `end` to the length. */
  function Take(d: seq<Point>, end: nat): (r: seq<Point>)
    ensures |r| == if end < |d| then end else |d|
    ensures r == d[..|r|]
  {
    if end < |d| then d[..end] else d
  }

  /** `getChartData`. */
  function ChartData(range: TimeRange, data: seq<Point>): (r: seq<Point>)
  {
    match range
    case OneWeek => if |data| <= 7 then data else data[|data| - 7..]
    case OneMonth => data
    case ThreeMonths => Take(data + data + data, 90)
    case OneYear => Take(data + data + data + data, 365)
    case AllTime => Take(data + data + data + data, 365)
  }

  /** Every range shows only points of the data, and a non-empty series
      never gives an empty view. */
  lemma ChartDataShowsDataPoints(range: TimeRange, data: seq<Point>)
    ensures forall p :: p in ChartData(range, data) ==> p in data
    ensures data != [] ==> ChartData(range, data) != []
  {
  }

  function Min(a: int, b: int): int
  {
    if a <= b then a else b
  }

  /** One week is the last `min(7, n)` points; one month is the data as it
      is. */
  lemma ShortRanges(data: seq<Point>)
    ensures var r := ChartData(OneWeek, data);
      |r| == Min(7, |data|) && r == data[|data| - |r|..]
    ensures ChartData(OneMonth, data) == data
  {
  }

  /** Three copies of the data, cut at 90 points. */
  lemma ThreeMonthsRepeats(data: seq<Point>)
    ensures var r := ChartData(ThreeMonths, data);
      |r| == Min(90, 3 * |data|) && forall i :: 0 <= i < |r| ==> r[i] == data[i % |data|]
  {
    RepeatSmall(data);
    RepeatAt(data, 3);
  }

  /** With the 30-point sample series, three months shows all three copies. */
  lemma ThreeMonthsOfThirtyPoints(data: seq<Point>)
    requires |data| == 30
    ensures ChartData(ThreeMonths, data) == data + data + data
  {
  }

  /** One year and all time are the same: four copies cut at 365 points. */
  lemma LongRangesRepeat(data: seq<Point>)
    ensures ChartData(OneYear, data) == ChartData(AllTime, data)
    ensures var r := ChartData(OneYear, data);
      |r| == Min(365, 4 * |data|) && forall i :: 0 <= i < |r| ==> r[i] == data[i % |data|]
  {
    RepeatSmall(data);
    RepeatAt(data, 4);
  }

  /** `chartData[0]?.value || 0`: the first value, or 0 for an empty chart. */
  function FirstValue(chart: seq<Point>): (v: real)
    ensures chart == [] ==> v == 0.0
  {
    if chart == [] then 0.0 else chart[0].value
  }

  /** `chartData[chartData.length - 1]?.value || 0`. */
  function LastValue(chart: seq<Point>): (v: real)
    ensures chart == [] ==> v == 0.0
  {
    if chart == [] then 0.0 else chart[|chart| - 1].value
  }

  /** The change over the shown range. */
  function ChangeValue(chart: seq<Point>): (c: real)
    ensures FirstValue(chart) + c == LastValue(chart)
  {
    LastValue(chart) - FirstValue(chart)
  }

  /** The point-to-point moves of the chart, oldest first. */
  function Moves(chart: seq<Point>): (m: seq<real>)
    ensures |m| == if chart == [] then 0 else |chart| - 1
  {
    if |chart| <= 1 then []
    else Moves(chart[..|chart| - 1]) + [chart[|chart| - 1].value - chart[|chart| - 2].value]
  }

  /** Sum of a sequence of reals, folded from the left. */
  function SumOf(xs: seq<real>): real
  {
    if xs == [] then 0.0 else SumOf(xs[..|xs| - 1]) + xs[|xs| - 1]
  }

  /** The change shown above the chart is the sum of the day-to-day moves it
      draws. */
  lemma {:induction false} ChangeIsSumOfMoves(chart: seq<Point>)
    ensures ChangeValue(chart) == SumOf(Moves(chart))
  {
    if |chart| > 1 {
      var n := |chart|;
      var init := chart[..n - 1];
      var first, previous, last := chart[0].value, chart[n - 2].value, chart[n - 1].value;
      ChangeIsSumOfMoves(init);
      assert ChangeValue(init) == previous - first;
      var m := Moves(chart);
      assert m == Moves(init) + [last - previous];
      assert m[..|m| - 1] == Moves(init);
      assert SumOf(m) == SumOf(Moves(init)) + (last - previous);
      assert ChangeValue(chart) == last - first;
    }
  }

  /** The week view of the 30-point series covers the last seven days, in
      order. */
  lemma WeekOfThirtyPoints(values: seq<real>)
    requires |values| == 30
    ensures var r := ChartData(OneWeek, Points(values));
      |r| == 7 && forall i :: 0 <= i < 7 ==> r[i].daysAgo == 7 - i && r[i].value == values[23 + i]
  {
    var data := Points(values);
    forall j | 23 <= j < 30
      ensures data[j].daysAgo == 30 - j
    {
      PointDate(values, j);
    }
  }

  /** Point `i` is dated `30 - i` days ago. */
  lemma PointDate(values: seq<real>, i: int)
    requires 0 <= i < |values|
    ensures Points(values)[i].daysAgo == 30 - i
  {
  }

  /** The three-month view repeats the month: with the 30-point series its
      31st point is dated 30 days ago again, so its dates run backwards
      there. */
  lemma ThreeMonthsDatesRestart(values: seq<real>)
    requires |values| == 30
    ensures var r := ChartData(ThreeMonths, Points(values));
      |r| == 90 && r[29].daysAgo == 1 && r[30].daysAgo == 30 && r[29].daysAgo < r[30].daysAgo
  {
    ThreeMonthsOfThirtyPoints(Points(values));
  }

  /** The change as a percentage of the first value; the source divides
      without a guard, so the first value must not be 0. */
  function ChangePercent(chart: seq<Point>): (p: real)
    requires FirstValue(chart) != 0.0
    ensures p * FirstValue(chart) == 100.0 * ChangeValue(chart)
    ensures FirstValue(chart) > 0.0 ==> (p > 0.0 <==> LastValue(chart) > FirstValue(chart))
  {
    var firstValue := FirstValue(chart);
    var changeValue := ChangeValue(chart);
    PercentOf(changeValue, firstValue);
    (changeValue / firstValue) * 100.0
  }

  lemma PercentOf(change: real, first: real)
    requires first != 0.0
    ensures (change / first) * 100.0 * first == 100.0 * change
    ensures first > 0.0 ==> ((change / first) * 100.0 > 0.0 <==> change > 0.0)
  {
  }

  /** For a series of at most 30 points, the month, three-month, year and
      all-time views start and end on the same points, so they show the same
      change. */
  lemma {:induction false} LongerRangesShowSameChange(data: seq<Point>)
    requires 0 < |data| <= 30
    ensures forall range :: range != OneWeek ==>
      FirstValue(ChartData(range, data)) == data[0].value &&
      LastValue(ChartData(range, data)) == data[|data| - 1].value
  {
    var n := |data|;
    ThreeMonthsRepeats(data);
    LongRangesRepeat(data);
    ModuloShift(3 * n - 1, n - 1, 2, n);
    ModuloShift(4 * n - 1, n - 1, 3, n);
    ModuloShift(0, 0, 0, n);
  }

  /** The week view of a series longer than a week starts seven points from
      the end. */
  lemma WeekChange(data: seq<Point>)
    requires |data| >= 7
    ensures ChangeValue(ChartData(OneWeek, data)) == data[|data| - 1].value - data[|data| - 7].value
  {
  }
}
