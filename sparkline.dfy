/**
 * The seven-day sparkline of a top coin: the price series scaled into a 100 by 100
 * view box (x grows with time, y grows downwards, so a higher price is drawn higher),
 * the filled area under the line, and the colour chosen from the trend's sign.
 */
module Sparkline {
  import opened Wrappers

  datatype Point = Point(x: real, y: real)

  /** The polyline, the polygon that fills the area under it, and whether the trend counts as positive. */
  datatype Chart = Chart(line: seq<Point>, fill: seq<Point>, positive: bool)

  /** `Math.min(...prices)` of a non-empty series. */
  function Min(prices: seq<real>): (m: real)
    requires |prices| > 0
    ensures m in prices && forall p :: p in prices ==> m <= p
  {
    if |prices| == 1 then prices[0]
    else
      var rest := Min(prices[1..]);
      assert forall p :: p in prices ==> p == prices[0] || p in prices[1..];
      if prices[0] <= rest then prices[0] else rest
  }

  /** `Math.max(...prices)` of a non-empty series. */
  function Max(prices: seq<real>): (m: real)
    requires |prices| > 0
    ensures m in prices && forall p :: p in prices ==> p <= m
  {
    if |prices| == 1 then prices[0]
    else
      var rest := Max(prices[1..]);
      assert forall p :: p in prices ==> p == prices[0] || p in prices[1..];
      if prices[0] >= rest then prices[0] else rest
  }

  /** `max - min || 1`: the spread of the series, or 1 for a flat series. */
  function Range(prices: seq<real>): (r: real)
    requires |prices| > 0
    ensures r > 0.0
    ensures Max(prices) > Min(prices) ==> r == Max(prices) - Min(prices)
  {
    var spread := Max(prices) - Min(prices);
    if spread == 0.0 then 1.0 else spread
  }

  /** `Math.max(n - 1, 1)`. */
  function Denominator(n: nat): (d: nat)
    ensures d >= 1
  {
    if n - 1 > 1 then n - 1 else 1
  }

  /** The point drawn for the price at index `i`. */
  function ChartPoint(prices: seq<real>, i: nat): Point
    requires i < |prices|
  {
    Point(i as real / Denominator(|prices|) as real * 100.0, Height(prices[i], Min(prices), Range(prices)))
  }

  /** The y coordinate of price `p`: the share of the range above the minimum, measured down from the top. */
  function Height(p: real, lo: real, range: real): real
    requires range > 0.0
  {
    100.0 - (p - lo) / range * 100.0
  }

  /** One point per price, in the order of the series. */
  function ChartPoints(prices: seq<real>): (line: seq<Point>)
    requires |prices| > 0
    ensures |line| == |prices|
    ensures forall i :: 0 <= i < |prices| ==> line[i] == ChartPoint(prices, i)
  {
    seq(|prices|, i requires 0 <= i < |prices| => ChartPoint(prices, i))
  }

  /** `(trend ?? 0) >= 0`. */
  function IsPositive(trend: Option<real>): (positive: bool)
    ensures trend.None? ==> positive
    ensures trend.Some? ==> (positive <==> trend.value >= 0.0)
  {
    trend.GetOr(0.0) >= 0.0
  }

  /**
   * The component: no chart for fewer than two prices; otherwise the line, the fill
   * polygon closed along the bottom edge from the right corner to the left, and the colour.
   */
  function Render(prices: seq<real>, trend: Option<real>): (r: Option<Chart>)
    ensures r.None? <==> |prices| < 2
    ensures r.Some? ==> r.value.line == ChartPoints(prices) && |r.value.line| == |prices|
    ensures r.Some? ==> r.value.positive == IsPositive(trend)
    ensures r.Some? ==> |r.value.fill| == |prices| + 2 && r.value.fill[..|prices|] == r.value.line
    ensures r.Some? ==> r.value.fill[|prices|..] == [Point(100.0, 100.0), Point(0.0, 100.0)]
  {
    if |prices| < 2 then None
    else
      var line := ChartPoints(prices);
      var fill := line + [Point(100.0, 100.0), Point(0.0, 100.0)];
      assert fill[..|prices|] == line;
      Some(Chart(line, fill, IsPositive(trend)))
  }

  /** 0 <= a <= b with b > 0 gives a fraction a / b between 0 and 1. */
  lemma FractionBounds(a: real, b: real)
    requires 0.0 <= a <= b && b > 0.0
    ensures 0.0 <= a / b <= 1.0
  {
    assert a / b * b == a;
  }

  /** Dividing by a positive number keeps the order, in both directions. */
  lemma DivisionMonotone(a: real, b: real, r: real)
    requires r > 0.0
    ensures a <= b <==> a / r <= b / r
  {
    assert b / r - a / r == (b - a) / r;
    assert (b - a) / r * r == b - a;
  }

  /** Every point of a chart lies inside the view box. */
  lemma {:induction false} PointInViewBox(prices: seq<real>, i: nat)
    requires |prices| >= 2 && i < |prices|
    ensures 0.0 <= ChartPoint(prices, i).x <= 100.0
    ensures 0.0 <= ChartPoint(prices, i).y <= 100.0
  {
    var d := Denominator(|prices|) as real;
    assert d == (|prices| - 1) as real;
    FractionBounds(i as real, d);
    var lo, hi := Min(prices), Max(prices);
    assert prices[i] in prices;
    FractionBounds(prices[i] - lo, Range(prices));
  }

  /** The line starts at the left edge and ends at the right edge. */
  lemma LineSpansWidth(prices: seq<real>)
    requires |prices| >= 2
    ensures ChartPoint(prices, 0).x == 0.0
    ensures ChartPoint(prices, |prices| - 1).x == 100.0
  {
    var d := Denominator(|prices|) as real;
    assert d == (|prices| - 1) as real;
    assert (|prices| - 1) as real / d == 1.0;
  }

  /** Later prices are drawn strictly further right. */
  lemma {:induction false} XIncreasing(prices: seq<real>, i: nat, j: nat)
    requires i < j < |prices|
    ensures ChartPoint(prices, i).x < ChartPoint(prices, j).x
  {
    var d := Denominator(|prices|) as real;
    assert i as real / d < j as real / d by {
      assert i as real / d * d == i as real;
      assert j as real / d * d == j as real;
    }
  }

  /** A higher price is drawn higher (a smaller y), and equal prices at the same height. */
  lemma {:induction false} YReversesOrder(prices: seq<real>, i: nat, j: nat)
    requires i < |prices| && j < |prices|
    ensures prices[i] <= prices[j] <==> ChartPoint(prices, j).y <= ChartPoint(prices, i).y
  {
    var lo, r := Min(prices), Range(prices);
    var a, b := prices[i] - lo, prices[j] - lo;
    DivisionMonotone(a, b, r);
    DivisionMonotone(b, a, r);
  }

  /** In a series that is not flat, the lowest price touches the bottom edge and the highest the top. */
  lemma ExtremesTouchEdges(prices: seq<real>, i: nat)
    requires i < |prices| && Max(prices) > Min(prices)
    ensures prices[i] == Min(prices) ==> ChartPoint(prices, i).y == 100.0
    ensures prices[i] == Max(prices) ==> ChartPoint(prices, i).y == 0.0
  {
    var lo, hi := Min(prices), Max(prices);
    DivisionByItself(hi - lo);
    DivisionOfZero(hi - lo);
    assert Height(lo, lo, hi - lo) == 100.0;
    assert Height(hi, lo, hi - lo) == 0.0;
  }

  lemma DivisionByItself(d: real)
    requires d != 0.0
    ensures d / d == 1.0
  {
  }

  lemma DivisionOfZero(d: real)
    requires d != 0.0
    ensures 0.0 / d == 0.0
  {
  }

  /** In a flat series the range falls back to 1 and every point lies on the bottom edge. */
  lemma FlatSeriesOnBottom(prices: seq<real>, i: nat)
    requires i < |prices| && Max(prices) == Min(prices)
    ensures Range(prices) == 1.0
    ensures ChartPoint(prices, i).y == 100.0
  {
    assert prices[i] in prices;
  }
}
