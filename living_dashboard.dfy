/**
 * The living dashboard: six system panels, each with a small chart drawn in a
 * 100 x 32 box from a series of values (bars, or an area under a line), and a
 * row of animated counters that count up to their figures over 120 ticks.
 */
module LivingDashboard {

  import opened Arith
  import opened Geometry
  import Counting

  /** The dashboard's counters always run over 120 ticks (two seconds at sixty ticks a second). */
  const DashboardFrames: nat := 120

  /** The figures the counters count up to. */
  const StatTargets: seq<int> := [10, 50, 4, 98]

  /** Every dashboard counter ends showing exactly its figure, at tick 120, having run until then. */
  lemma DashboardCountersFinish(i: int, k: nat)
    requires 0 <= i < |StatTargets|
    ensures var target := StatTargets[i];
      var step := Counting.StepSize(target, DashboardFrames as real);
      var s := Counting.Ticks(Counting.Started, target, step, DashboardFrames);
      s.count == target && !s.running
    ensures k < DashboardFrames ==>
      Counting.Ticks(Counting.Started, StatTargets[i], Counting.StepSize(StatTargets[i], DashboardFrames as real), k).running
  {
    Counting.ReachesTarget(StatTargets[i], DashboardFrames);
    if k < DashboardFrames {
      Counting.RunningBefore(StatTargets[i], DashboardFrames, k);
    }
  }

  // ---------------------------------------------------------------- scale

  const ChartWidth: real := 100.0
  const ChartHeight: real := 32.0

  /** The largest value of a non-empty series. */
  function SeqMax(s: seq<real>): (m: real)
    requires |s| >= 1
    ensures forall i :: 0 <= i < |s| ==> s[i] <= m
    ensures exists i :: 0 <= i < |s| && s[i] == m
  {
    if |s| == 1 then s[0]
    else
      var rest := SeqMax(s[1..]);
      assert forall i :: 1 <= i < |s| ==> s[i] == s[1..][i - 1];
      if s[0] >= rest then s[0] else rest
  }

  /** The smallest value of a non-empty series. */
  function SeqMin(s: seq<real>): (m: real)
    requires |s| >= 1
    ensures forall i :: 0 <= i < |s| ==> m <= s[i]
    ensures exists i :: 0 <= i < |s| && s[i] == m
  {
    if |s| == 1 then s[0]
    else
      var rest := SeqMin(s[1..]);
      assert forall i :: 1 <= i < |s| ==> s[i] == s[1..][i - 1];
      if s[0] <= rest then s[0] else rest
  }

  /** The spread of the series, or 1 for a flat series, so that it can always be divided by. */
  function Range(data: seq<real>): (r: real)
    requires |data| >= 1
    ensures r > 0.0
    ensures SeqMax(data) > SeqMin(data) ==> r == SeqMax(data) - SeqMin(data)
    ensures SeqMax(data) == SeqMin(data) ==> r == 1.0
  {
    var spread := SeqMax(data) - SeqMin(data);
    if spread == 0.0 then 1.0 else spread
  }

  /** Where a value sits between the series' least (0) and greatest (1) values. */
  function Normalized(v: real, data: seq<real>): real
    requires |data| >= 1
  {
    (v - SeqMin(data)) / Range(data)
  }

  /** Every value of the series normalises into [0, 1]: the least to 0, the greatest of a non-flat series to 1. */
  lemma NormalizedInUnit(data: seq<real>, i: int)
    requires 0 <= i < |data|
    ensures 0.0 <= Normalized(data[i], data) <= 1.0
    ensures data[i] == SeqMin(data) ==> Normalized(data[i], data) == 0.0
    ensures data[i] == SeqMax(data) && SeqMax(data) > SeqMin(data) ==> Normalized(data[i], data) == 1.0
  {
    ScaleInUnit(data[i], SeqMin(data), SeqMax(data), Range(data));
  }

  lemma ScaleInUnit(v: real, lo: real, hi: real, r: real)
    requires lo <= v <= hi && r > 0.0
    requires hi > lo ==> r == hi - lo
    ensures 0.0 <= (v - lo) / r <= 1.0
    ensures v == lo ==> (v - lo) / r == 0.0
    ensures v == hi && hi > lo ==> (v - lo) / r == 1.0
  {
    if hi > lo {
      DivUnit(v - lo, r);
    } else {
      assert v - lo == 0.0;
    }
  }

  // ---------------------------------------------------------------- bars

  /** One bar: its left edge, its width and its height, all in chart units. */
  datatype Bar = Bar(x: real, width: real, height: real)

  /** Each bar takes an equal share of the width, less a one-unit gap. */
  function BarWidth(n: nat): real
    requires n >= 1
  {
    ChartWidth / n as real - 1.0
  }

  /** A bar's height: at least 4 units, growing over the remaining 28 with the value. */
  function BarHeight(v: real, data: seq<real>): real
    requires |data| >= 1
  {
    Normalized(v, data) * (ChartHeight - 4.0) + 4.0
  }

  /** The share of the chart width each bar slot takes. */
  function Slot(n: nat): real
    requires n >= 1
  {
    ChartWidth / n as real
  }

  /** Bar `i` of the series: it fills slot i but for a one-unit gap, as tall as its value places it. */
  function BarAt(data: seq<real>, i: int): (bar: Bar)
    requires 0 <= i < |data|
    ensures bar.x == i as real * Slot(|data|)
    ensures bar.x + bar.width + 1.0 == (i + 1) as real * Slot(|data|)
    ensures bar.width == BarWidth(|data|)
    ensures 4.0 <= bar.height <= ChartHeight
    ensures data[i] == SeqMin(data) ==> bar.height == 4.0
    ensures data[i] == SeqMax(data) && SeqMax(data) > SeqMin(data) ==> bar.height == ChartHeight
  {
    var w := BarWidth(|data|);
    assert w + 1.0 == Slot(|data|);
    NextMultiple(i + 1, Slot(|data|));
    NormalizedInUnit(data, i);
    FractionOf(Normalized(data[i], data), 28.0);
    Bar(i as real * (w + 1.0), w, BarHeight(data[i], data))
  }

  /** The last bar ends one unit short of the right edge. */
  lemma LastBarEnd(data: seq<real>)
    requires |data| >= 1
    ensures BarAt(data, |data| - 1).x + BarAt(data, |data| - 1).width == ChartWidth - 1.0
  {
    var n := |data|;
    assert n as real * Slot(n) == ChartWidth;
    var b := BarAt(data, n - 1);
    assert b.x + b.width + 1.0 == n as real * Slot(n);
  }

  /** Bar i + 1 starts one unit after bar i ends. */
  lemma BarGap(data: seq<real>, i: int)
    requires 0 <= i < |data| - 1
    ensures BarAt(data, i + 1).x == BarAt(data, i).x + BarAt(data, i).width + 1.0
  {
    var b, c := BarAt(data, i), BarAt(data, i + 1);
    assert b.x + b.width + 1.0 == (i + 1) as real * Slot(|data|);
    assert c.x == (i + 1) as real * Slot(|data|);
  }

  /**
   * The bar chart of a series: one bar per value, all of one width, the first at the left edge,
   * each next one a unit to the right of the one before, the last ending one unit short of the
   * right edge; every bar is 4 to 32 units tall.
   */
  function Bars(data: seq<real>): (bars: seq<Bar>)
    ensures |bars| == |data|
    ensures forall i :: 0 <= i < |bars| ==> bars[i].width == bars[0].width
    ensures |bars| >= 1 ==> bars[0].x == 0.0
    ensures forall i :: 0 <= i < |bars| - 1 ==> bars[i + 1].x == bars[i].x + bars[i].width + 1.0
    ensures |bars| >= 1 ==> bars[|bars| - 1].x + bars[|bars| - 1].width == ChartWidth - 1.0
    ensures forall i :: 0 <= i < |bars| ==> 4.0 <= bars[i].height <= ChartHeight
  {
    if |data| == 0 then []
    else
      var n := |data|;
      var bars := seq(n, i requires 0 <= i < n => BarAt(data, i));
      assert bars[|bars| - 1].x + bars[|bars| - 1].width == ChartWidth - 1.0 by {
        assert bars[n - 1] == BarAt(data, n - 1);
        LastBarEnd(data);
      }
      assert forall i :: 0 <= i < |bars| - 1 ==> bars[i + 1].x == bars[i].x + bars[i].width + 1.0 by {
        forall i | 0 <= i < |bars| - 1
          ensures bars[i + 1].x == bars[i].x + bars[i].width + 1.0
        {
          assert bars[i] == BarAt(data, i) && bars[i + 1] == BarAt(data, i + 1);
          BarGap(data, i);
        }
      }
      assert forall i :: 0 <= i < |bars| ==> bars[i].width == bars[0].width && 4.0 <= bars[i].height <= ChartHeight;
      bars
  }

  /** The lowest value's bar is 4 units tall and, in a non-flat series, the highest value's 32. */
  lemma BarHeightExtremes(data: seq<real>, i: int)
    requires 0 <= i < |data|
    ensures data[i] == SeqMin(data) ==> Bars(data)[i].height == 4.0
    ensures data[i] == SeqMax(data) && SeqMax(data) > SeqMin(data) ==> Bars(data)[i].height == ChartHeight
  {
    assert Bars(data)[i] == BarAt(data, i);
  }

  /** A larger value gets a taller bar. */
  lemma BarsFollowValues(data: seq<real>, i: int, j: int)
    requires 0 <= i < |data| && 0 <= j < |data| && data[i] < data[j]
    ensures Bars(data)[i].height < Bars(data)[j].height
  {
    NormalizedMonotone(data, i, j);
    MulLt(Normalized(data[i], data), Normalized(data[j], data), 28.0);
  }

  /** Normalising keeps the order of the values. */
  lemma NormalizedMonotone(data: seq<real>, i: int, j: int)
    requires 0 <= i < |data| && 0 <= j < |data| && data[i] < data[j]
    ensures Normalized(data[i], data) < Normalized(data[j], data)
  {
    DivLt(data[i] - SeqMin(data), data[j] - SeqMin(data), Range(data));
  }

  // ---------------------------------------------------------------- area

  /** Point `i` of the area chart. */
  function AreaPoint(data: seq<real>, i: int): (p: Point)
    requires |data| >= 2 && 0 <= i < |data|
    ensures p.x == (i as real / (|data| - 1) as real) * ChartWidth
    ensures i == 0 ==> p.x == 0.0
    ensures i == |data| - 1 ==> p.x == ChartWidth
    ensures 3.0 <= p.y <= ChartHeight - 3.0
    ensures data[i] == SeqMin(data) ==> p.y == ChartHeight - 3.0
    ensures data[i] == SeqMax(data) && SeqMax(data) > SeqMin(data) ==> p.y == 3.0
  {
    var d := (|data| - 1) as real;
    assert d / d == 1.0;
    NormalizedInUnit(data, i);
    FractionOf(Normalized(data[i], data), 26.0);
    Point((i as real / d) * ChartWidth, ChartHeight - Normalized(data[i], data) * (ChartHeight - 6.0) - 3.0)
  }

  /**
   * The points of the area chart: one per value, from the left edge to the right edge, strictly
   * left to right, each 3 to 29 units from the top, the lowest value lowest (29) and, in a
   * non-flat series, the highest value highest (3).
   */
  function AreaPoints(data: seq<real>): (pts: seq<Point>)
    requires |data| >= 2
    ensures |pts| == |data|
    ensures pts[0].x == 0.0 && pts[|pts| - 1].x == ChartWidth
    ensures forall i :: 0 <= i < |pts| - 1 ==> pts[i].x < pts[i + 1].x
    ensures forall i :: 0 <= i < |pts| ==> 3.0 <= pts[i].y <= ChartHeight - 3.0
    ensures forall i :: 0 <= i < |pts| && data[i] == SeqMin(data) ==> pts[i].y == ChartHeight - 3.0
    ensures forall i :: 0 <= i < |pts| && data[i] == SeqMax(data) && SeqMax(data) > SeqMin(data) ==>
      pts[i].y == 3.0
  {
    var pts := seq(|data|, i requires 0 <= i < |data| => AreaPoint(data, i));
    assert forall i :: 0 <= i < |pts| - 1 ==> pts[i].x < pts[i + 1].x by {
      forall i | 0 <= i < |pts| - 1
        ensures pts[i].x < pts[i + 1].x
      {
        AreaPointsSpan(data, i, i + 1);
      }
    }
    pts
  }

  /** Points further right in the series are further right in the chart. */
  lemma AreaPointsSpan(data: seq<real>, i: int, j: int)
    requires |data| >= 2 && 0 <= i < j < |data|
    ensures AreaPoint(data, i).x < AreaPoint(data, j).x
  {
    var d := (|data| - 1) as real;
    DivLt(i as real, j as real, d);
    MulLt(i as real / d, j as real / d, ChartWidth);
  }

  /** A larger value is drawn higher (smaller y). */
  lemma AreaFollowsValues(data: seq<real>, i: int, j: int)
    requires |data| >= 2 && 0 <= i < |data| && 0 <= j < |data| && data[i] < data[j]
    ensures AreaPoints(data)[j].y < AreaPoints(data)[i].y
  {
    NormalizedMonotone(data, i, j);
    MulLt(Normalized(data[i], data), Normalized(data[j], data), 26.0);
  }

  lemma DivLt(a: real, b: real, d: real)
    requires a < b && d > 0.0
    ensures a / d < b / d
  {
  }

  // ---------------------------------------------------------------- paths

  /** An SVG path command. */
  datatype PathCommand = MoveTo(p: Point) | LineTo(p: Point) | ClosePath

  /** The points a path visits, in order. */
  function PathPoints(path: seq<PathCommand>): seq<Point>
  {
    if |path| == 0 then []
    else
      match path[0]
      case MoveTo(p) => [p] + PathPoints(path[1..])
      case LineTo(p) => [p] + PathPoints(path[1..])
      case ClosePath => PathPoints(path[1..])
  }

  /** The line through the points: it visits exactly the points, in order, with a move to the first and lines to the rest. */
  function LinePath(pts: seq<Point>): (path: seq<PathCommand>)
    ensures |path| == |pts|
    ensures PathPoints(path) == pts
    ensures |pts| >= 1 ==> path[0] == MoveTo(pts[0])
    ensures forall i :: 1 <= i < |path| ==> path[i].LineTo?
  {
    var path := seq(|pts|, i requires 0 <= i < |pts| => if i == 0 then MoveTo(pts[i]) else LineTo(pts[i]));
    if |pts| == 0 then path
    else
      LineToPoints(pts, 1);
      assert path[1..] == LineTail(pts, 1);
      path
  }

  /**
   * The filled area: it follows the line, then visits the bottom right corner and the bottom left
   * one, and is closed once, at the end.
   */
  function AreaPath(pts: seq<Point>): (path: seq<PathCommand>)
    ensures |path| == |pts| + 3
    ensures path[..|pts|] == LinePath(pts)
    ensures PathPoints(path) == pts + [Point(ChartWidth, ChartHeight), Point(0.0, ChartHeight)]
    ensures path[|path| - 1] == ClosePath
    ensures forall i :: 0 <= i < |path| - 1 ==> !path[i].ClosePath?
  {
    var corners := [LineTo(Point(ChartWidth, ChartHeight)), LineTo(Point(0.0, ChartHeight)), ClosePath];
    var path := LinePath(pts) + corners;
    PathPointsAppend(LinePath(pts), corners);
    assert PathPoints(corners) == [Point(ChartWidth, ChartHeight), Point(0.0, ChartHeight)] by {
      var close: seq<PathCommand> := [ClosePath];
      assert close[1..] == [];
      assert PathPoints(close) == [];
      var last := [LineTo(Point(0.0, ChartHeight)), ClosePath];
      assert last[1..] == close;
      assert PathPoints(last) == [Point(0.0, ChartHeight)];
      assert corners[1..] == last;
    }
    assert path[..|pts|] == LinePath(pts);
    path
  }

  /** The points of two paths one after the other are the points of each, one after the other. */
  lemma {:induction false} PathPointsAppend(p: seq<PathCommand>, q: seq<PathCommand>)
    ensures PathPoints(p + q) == PathPoints(p) + PathPoints(q)
    decreases |p|
  {
    if |p| > 0 {
      PathPointsAppend(p[1..], q);
      assert (p + q)[1..] == p[1..] + q;
      assert (p + q)[0] == p[0];
    } else {
      assert p + q == q;
    }
  }

  /** The commands after the first: lines to the remaining points. */
  function LineTail(pts: seq<Point>, from: nat): (path: seq<PathCommand>)
    requires from <= |pts|
    ensures |path| == |pts| - from
  {
    seq(|pts| - from, i requires 0 <= i < |pts| - from => LineTo(pts[from + i]))
  }

  lemma {:induction false} LineToPoints(pts: seq<Point>, from: nat)
    requires from <= |pts|
    ensures PathPoints(LineTail(pts, from)) == pts[from..]
    decreases |pts| - from
  {
    if from < |pts| {
      LineToPoints(pts, from + 1);
      assert LineTail(pts, from)[1..] == LineTail(pts, from + 1);
      assert pts[from..] == [pts[from]] + pts[from + 1..];
    }
  }
}
