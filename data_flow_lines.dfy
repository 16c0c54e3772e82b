/**
 * Data-flow dots between the six system panels of the dashboard: one dot per
 * connection travels along a quadratic Bezier curve, its progress growing by
 * its own speed every frame and wrapping back to the start past the end.
 * Coordinates are percentages of a 100 x 100 view box.
 */
module DataFlowLines {

  import opened Arith
  import opened Geometry

  /** A directed link between two panels. */
  datatype Connection = Connection(from: int, to: int)

  /** The eight links, in drawing order. */
  const Connections: seq<Connection> := [
    Connection(0, 2), Connection(0, 3), Connection(1, 4), Connection(1, 5),
    Connection(2, 4), Connection(3, 0), Connection(4, 2), Connection(5, 1)
  ]

  /** The centres of the six panels of the 3 x 2 grid, row by row. */
  const PanelCenters: seq<Point> := [
    Point(16.7, 30.0), Point(50.0, 30.0), Point(83.3, 30.0),
    Point(16.7, 70.0), Point(50.0, 70.0), Point(83.3, 70.0)
  ]

  /** Every link joins two different existing panels. */
  lemma ConnectionsValid()
    ensures |Connections| == 8 && |PanelCenters| == 6
    ensures forall i :: 0 <= i < |Connections| ==>
      0 <= Connections[i].from < |PanelCenters| && 0 <= Connections[i].to < |PanelCenters| &&
      Connections[i].from != Connections[i].to
  {
  }

  // ---------------------------------------------------------------- curve

  /**
   * The control point: the chord's midpoint pushed sideways by 0.15 of the chord turned a quarter.
   * It is as far from one end as from the other, so every curve bends symmetrically; its offset
   * from the midpoint is perpendicular to the chord, 0.15 of the chord long, and on the same side
   * of the chord for every link (the cross product of the chord with the offset is negative).
   */
  function ControlPoint(a: Point, b: Point): (c: Point)
    ensures Dist2(c, a) == Dist2(c, b)
    ensures var m := Point((a.x + b.x) / 2.0, (a.y + b.y) / 2.0);
      (c.x - m.x) * (b.x - a.x) + (c.y - m.y) * (b.y - a.y) == 0.0
    ensures var m := Point((a.x + b.x) / 2.0, (a.y + b.y) / 2.0);
      (b.x - a.x) * (c.y - m.y) - (b.y - a.y) * (c.x - m.x) == -0.15 * Norm2(b.x - a.x, b.y - a.y)
    ensures var m := Point((a.x + b.x) / 2.0, (a.y + b.y) / 2.0);
      Dist2(c, m) == 0.0225 * Dist2(b, a)
  {
    var mid := Point((a.x + b.x) / 2.0, (a.y + b.y) / 2.0);
    var c := Point(mid.x + (b.y - a.y) * 0.15, mid.y + (a.x - b.x) * 0.15);
    var dx, dy := b.x - a.x, b.y - a.y;
    assert c.x - a.x == dx / 2.0 + 0.15 * dy;
    assert c.y - a.y == dy / 2.0 - 0.15 * dx;
    assert c.x - b.x == -dx / 2.0 + 0.15 * dy;
    assert c.y - b.y == -dy / 2.0 - 0.15 * dx;
    OffsetNorms(dx, dy);
    assert c.x - mid.x == 0.15 * dy && c.y - mid.y == -0.15 * dx;
    OffsetGeometry(dx, dy);
    c
  }

  /** The offset (0.15 dy, -0.15 dx) against the chord (dx, dy): orthogonal, turned clockwise, 0.15 as long. */
  lemma OffsetGeometry(dx: real, dy: real)
    ensures (0.15 * dy) * dx + (-0.15 * dx) * dy == 0.0
    ensures dx * (-0.15 * dx) - dy * (0.15 * dy) == -0.15 * Norm2(dx, dy)
    ensures Norm2(0.15 * dy, -0.15 * dx) == 0.0225 * Norm2(dx, dy)
  {
  }

  lemma OffsetNorms(dx: real, dy: real)
    ensures Norm2(dx / 2.0 + 0.15 * dy, dy / 2.0 - 0.15 * dx)
         == Norm2(-dx / 2.0 + 0.15 * dy, -dy / 2.0 - 0.15 * dx)
  {
    var h, k := dx / 2.0, dy / 2.0;
    var p, q := 0.15 * dy, 0.15 * dx;
    assert (h + p) * (h + p) + (k - q) * (k - q) == h * h + p * p + k * k + q * q + 2.0 * (h * p - k * q);
    assert (p - h) * (p - h) + (-k - q) * (-k - q) == h * h + p * p + k * k + q * q - 2.0 * (h * p - k * q);
    assert h * p == k * q;
  }

  /** One coordinate of the quadratic Bezier curve from `a` through control `c` to `b`. */
  function BezierCoord(a: real, c: real, b: real, t: real): real
  {
    (1.0 - t) * (1.0 - t) * a + 2.0 * (1.0 - t) * t * c + t * t * b
  }

  /** The point at parameter `t` of the curve from `a` to `b` bent by `c`. */
  function Bezier(a: Point, c: Point, b: Point, t: real): (p: Point)
    ensures t == 0.0 ==> p == a
    ensures t == 1.0 ==> p == b
  {
    BezierCoordEnds(a.x, c.x, b.x, t);
    BezierCoordEnds(a.y, c.y, b.y, t);
    Point(BezierCoord(a.x, c.x, b.x, t), BezierCoord(a.y, c.y, b.y, t))
  }

  lemma BezierCoordEnds(a: real, c: real, b: real, t: real)
    ensures t == 0.0 ==> BezierCoord(a, c, b, t) == a
    ensures t == 1.0 ==> BezierCoord(a, c, b, t) == b
  {
    if t == 0.0 {
      assert BezierCoord(a, c, b, t) == 1.0 * 1.0 * a + 2.0 * 1.0 * 0.0 * c + 0.0 * 0.0 * b;
    } else if t == 1.0 {
      assert BezierCoord(a, c, b, t) == 0.0 * 0.0 * a + 2.0 * 0.0 * 1.0 * c + 1.0 * 1.0 * b;
    }
  }

  /** For t in [0, 1] a coordinate of the curve lies between the least and the greatest of the three defining coordinates. */
  lemma BezierCoordInHull(a: real, c: real, b: real, t: real, lo: real, hi: real)
    requires 0.0 <= t <= 1.0
    requires lo <= a <= hi && lo <= c <= hi && lo <= b <= hi
    ensures lo <= BezierCoord(a, c, b, t) <= hi
  {
    var p, q := a + (c - a) * t, c + (b - c) * t;
    LerpInBand(a, c, t, lo, hi);
    LerpInBand(c, b, t, lo, hi);
    LerpInBand(p, q, t, lo, hi);
    DeCasteljau(a, c, b, t);
  }

  /** Interpolating between two values of [lo, hi] with t in [0, 1] stays in [lo, hi]. */
  lemma LerpInBand(x: real, y: real, t: real, lo: real, hi: real)
    requires 0.0 <= t <= 1.0
    requires lo <= x <= hi && lo <= y <= hi
    ensures lo <= x + (y - x) * t <= hi
  {
    var d := y - x;
    var m := t * d;
    assert (y - x) * t == m;
    if d >= 0.0 {
      FractionOf(t, d);
    } else {
      FractionOfNeg(t, d);
    }
    WithinBand(x, y, x + m, lo, hi);
  }

  /** A value between two values of [lo, hi] is in [lo, hi]. */
  lemma WithinBand(x: real, y: real, r: real, lo: real, hi: real)
    requires lo <= x <= hi && lo <= y <= hi && ((x <= r <= y) || (y <= r <= x))
    ensures lo <= r <= hi
  {
  }

  /** The curve point is the interpolation, at the same t, of the interpolations along its two legs. */
  lemma DeCasteljau(a: real, c: real, b: real, t: real)
    ensures var p, q := a + (c - a) * t, c + (b - c) * t;
      BezierCoord(a, c, b, t) == p + (q - p) * t
  {
  }

  /** Where the dot of connection `i` is drawn at progress `t`. */
  function DotAt(i: int, t: real): (p: Point)
    requires 0 <= i < |Connections|
    ensures t == 0.0 ==> p == PanelCenters[Connections[i].from]
    ensures t == 1.0 ==> p == PanelCenters[Connections[i].to]
  {
    var a, b := PanelCenters[Connections[i].from], PanelCenters[Connections[i].to];
    Bezier(a, ControlPoint(a, b), b, t)
  }

  /** The trail dot, drawn a twentieth of the way back along the same curve. */
  function TrailAt(i: int, t: real): (p: Point)
    requires 0 <= i < |Connections|
    ensures 0.05 <= t <= 1.05 ==> InViewBox(p)
  {
    if 0.05 <= t <= 1.05 then
      DotsInsideViewBox(i, t - 0.05);
      DotAt(i, t - 0.05)
    else
      DotAt(i, t - 0.05)
  }

  predicate InViewBox(p: Point)
  {
    0.0 <= p.x <= 100.0 && 0.0 <= p.y <= 100.0
  }

  /** For every connection and every progress in [0, 1] the dot is inside the view box. */
  lemma DotsInsideViewBox(i: int, t: real)
    requires 0 <= i < |Connections|
    requires 0.0 <= t <= 1.0
    ensures InViewBox(DotAt(i, t))
  {
    var a, b := PanelCenters[Connections[i].from], PanelCenters[Connections[i].to];
    var c := ControlPoint(a, b);
    assert 0.0 <= c.x <= 100.0 && 0.0 <= c.y <= 100.0;
    BezierCoordInHull(a.x, c.x, b.x, t, 0.0, 100.0);
    BezierCoordInHull(a.y, c.y, b.y, t, 0.0, 100.0);
  }

  // ---------------------------------------------------------------- dots

  /** A dot's state: its connection, how far along (0 start, 1 end), and how far it moves per frame. */
  datatype Dot = Dot(connectionIdx: int, progress: real, speed: real)

  /** The two uniform samples in [0, 1) drawn for a dot, progress first. */
  datatype DotDraw = DotDraw(progressSample: real, speedSample: real)

  predicate ValidDraw(d: DotDraw)
  {
    0.0 <= d.progressSample < 1.0 && 0.0 <= d.speedSample < 1.0
  }

  predicate DotValid(d: Dot)
  {
    0.0 <= d.progress <= 1.0 && 0.003 <= d.speed < 0.007
  }

  /** Dot `k`: its start is the first sample, its speed 0.003 plus 0.004 times the second. */
  function NewDot(k: int, draw: DotDraw): (d: Dot)
    requires ValidDraw(draw)
    ensures d.connectionIdx == k && DotValid(d) && d.progress < 1.0
  {
    MulLt(draw.speedSample, 1.0, 0.004);
    MulNonNeg(draw.speedSample, 0.004);
    Dot(k, draw.progressSample, 0.003 + draw.speedSample * 0.004)
  }

  /** One dot per connection, numbered in order, with a random start and a speed in [0.003, 0.007). */
  function InitDots(draws: seq<DotDraw>): (dots: seq<Dot>)
    requires |draws| == |Connections|
    requires forall k :: 0 <= k < |draws| ==> ValidDraw(draws[k])
    ensures |dots| == |Connections|
    ensures forall k :: 0 <= k < |dots| ==> dots[k].connectionIdx == k
    ensures forall k :: 0 <= k < |dots| ==> DotValid(dots[k]) && dots[k].progress < 1.0
  {
    seq(|draws|, k requires 0 <= k < |draws| => NewDot(k, draws[k]))
  }

  /** One frame for one dot: advance by its speed, back to the start once past the end. */
  function AdvanceDot(d: Dot): (r: Dot)
    ensures r.connectionIdx == d.connectionIdx && r.speed == d.speed
    ensures d.progress + d.speed <= 1.0 ==> r.progress == d.progress + d.speed
    ensures d.progress + d.speed > 1.0 ==> r.progress == 0.0
  {
    var p := d.progress + d.speed;
    if p > 1.0 then d.(progress := 0.0) else d.(progress := p)
  }

  /** A frame keeps every valid dot valid: progress stays in [0, 1]. */
  lemma AdvanceKeepsValid(d: Dot)
    requires DotValid(d)
    ensures DotValid(AdvanceDot(d))
  {
  }

  /** `k` frames for one dot. */
  function AdvanceN(d: Dot, k: nat): Dot
    decreases k
  {
    if k == 0 then d else AdvanceN(AdvanceDot(d), k - 1)
  }

  /** If `n` steps of the dot's speed would carry it past the end, it wraps to the start within `n` frames. */
  lemma {:induction false} WrapsWithin(d: Dot, n: nat)
    requires 0.0 <= d.speed && d.progress <= 1.0
    requires d.progress + n as real * d.speed > 1.0
    ensures exists k :: 1 <= k <= n && AdvanceN(d, k).progress == 0.0
    decreases n
  {
    if d.progress + d.speed > 1.0 {
      assert AdvanceN(d, 1) == AdvanceN(AdvanceDot(d), 0);
    } else {
      assert n >= 2 by {
        if n <= 1 {
          MulLe(n as real, 1.0, d.speed);
        }
      }
      var e := AdvanceDot(d);
      assert e.progress + (n - 1) as real * e.speed == d.progress + n as real * d.speed;
      WrapsWithin(e, n - 1);
      var k :| 1 <= k <= n - 1 && AdvanceN(e, k).progress == 0.0;
      assert AdvanceN(d, k + 1) == AdvanceN(e, k);
    }
  }

  /** Every dot comes back to the start of its line within 334 frames. */
  lemma DotCycles(d: Dot)
    requires DotValid(d)
    ensures exists k :: 1 <= k <= 334 && AdvanceN(d, k).progress == 0.0
  {
    MulLe(0.003, d.speed, 334.0);
    WrapsWithin(d, 334);
  }

  /** The animation's state: the dots, updated in place each frame. */
  class Flow {
    var dots: array<Dot>

    ghost predicate Valid()
      reads this, dots
    {
      (dots.Length == 0 || dots.Length == |Connections|) &&
      forall k :: 0 <= k < dots.Length ==> dots[k].connectionIdx == k && DotValid(dots[k])
    }

    /** Before the panel becomes active there are no dots. */
    constructor ()
      ensures Valid() && dots.Length == 0
    {
      dots := new Dot[0];
    }

    /** Becoming active lays out a fresh set of dots. */
    method Activate(draws: seq<DotDraw>)
      requires |draws| == |Connections|
      requires forall k :: 0 <= k < |draws| ==> ValidDraw(draws[k])
      modifies this
      ensures Valid() && fresh(dots)
      ensures dots[..] == InitDots(draws)
    {
      var init := InitDots(draws);
      dots := new Dot[|init|](k requires 0 <= k < |init| => init[k]);
    }

    /** One animation frame: every dot advances, nothing else changes. */
    method Animate()
      requires Valid()
      modifies dots
      ensures Valid()
      ensures forall k :: 0 <= k < dots.Length ==> dots[k] == AdvanceDot(old(dots[k]))
    {
      for i := 0 to dots.Length
        invariant forall k :: 0 <= k < i ==> dots[k] == AdvanceDot(old(dots[k]))
        invariant forall k :: i <= k < dots.Length ==> dots[k] == old(dots[k])
        invariant forall k :: 0 <= k < dots.Length ==> dots[k].connectionIdx == k && DotValid(dots[k])
      {
        dots[i] := AdvanceDot(dots[i]);
      }
    }
  }
}
