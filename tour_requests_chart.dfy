/** The summary line of the tour-requests trend chart: the total number of
    requests over the window and the rounded daily average. */
module TourRequestsChart {
  import opened Wrappers
  import JsArray
  import AnalyticsService

  type TrendPoint = AnalyticsService.TrendPoint

  function CountOf(p: TrendPoint): int {
    p.count
  }

  /** `Math.round(n / d)` for `d > 0`: the nearest integer to the
      quotient, a half rounding up. The bound `r - 1/2 <= n / d < r + 1/2`
      is stated multiplied through by `2 * d`. */
  function RoundQuotient(n: int, d: int): (r: int)
    requires d > 0
    ensures 2 * d * r - d <= 2 * n < 2 * d * r + d
  {
    (2 * n + d) / (2 * d)
  }

  datatype Summary = Summary(total: int, average: int)

  /** What the chart shows for the fetched trend: the "no data" message
      (`None`) for an empty trend, so no division by zero happens; otherwise
      the sum of the counts and their mean rounded to the nearest integer. */
  function Summarize(data: seq<TrendPoint>): (r: Option<Summary>)
    ensures r.None? <==> data == []
    ensures r.Some? ==> r.value.total == JsArray.SumBy(data, CountOf)
    ensures r.Some? ==>
      2 * |data| * r.value.average - |data| <= 2 * r.value.total < 2 * |data| * r.value.average + |data|
  {
    if |data| == 0 then None
    else
      var total := JsArray.SumBy(data, CountOf);
      Some(Summary(total, RoundQuotient(total, |data|)))
  }

  /** With no negative count, the average lies between 0 and the largest
      daily count. */
  lemma AverageBounds(data: seq<TrendPoint>, max: int)
    requires data != []
    requires forall i :: 0 <= i < |data| ==> 0 <= data[i].count <= max
    ensures 0 <= Summarize(data).value.average <= max
  {
    var s := Summarize(data).value;
    var n := |data|;
    JsArray.SumByBounds(data, CountOf, max);
    assert 0 <= s.total <= n * max;
    var a := s.average;
    assert a == (2 * s.total + n) / (2 * n);
    DivBounds(2 * s.total + n, 2 * n, 2 * n * max + n, max);
  }

  lemma DivBounds(x: int, d: int, hi: int, m: int)
    requires d > 0 && 0 <= x <= hi && hi < d * (m + 1)
    ensures 0 <= x / d <= m
  {
    var q := x / d;
    assert d * q <= x;
    if q > m {
      MulMonotone(d, m + 1, q);
      assert false;
    }
  }

  lemma {:induction false} MulMonotone(d: int, a: int, b: int)
    requires d > 0 && a <= b
    ensures d * a <= d * b
    decreases b - a
  {
    if a < b {
      MulMonotone(d, a, b - 1);
      assert d * b == d * (b - 1) + d;
    }
  }
}
