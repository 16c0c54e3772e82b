/**
 * The scroll-driven "chaos to order" particle canvas: a fixed set of labelled
 * fragments that drift, wrap and are pushed away from the pointer while the
 * scroll progress is low, and are pulled into a 3x2 grid of system groups as it
 * rises. Exact real arithmetic stands in for IEEE doubles; Math.sqrt is passed in
 * as `sqrt`, and every Math.random() call is a sample in [0, 1) given as input.
 */
module ChaosCanvas {

  import Arith
  import opened Geometry

  // ---------------------------------------------------------------- data

  /** A colour whose channels may be fractional after interpolation. */
  datatype Rgb = Rgb(r: real, g: real, b: real)

  const HotColors: seq<Rgb> := [
    Rgb(249.0, 115.0, 22.0), Rgb(239.0, 68.0, 68.0), Rgb(244.0, 63.0, 94.0),
    Rgb(217.0, 70.0, 239.0), Rgb(236.0, 72.0, 153.0), Rgb(251.0, 191.0, 36.0),
    Rgb(251.0, 146.0, 60.0), Rgb(248.0, 113.0, 113.0), Rgb(232.0, 121.0, 249.0),
    Rgb(244.0, 114.0, 182.0)]

  const CoolColors: seq<Rgb> := [
    Rgb(59.0, 130.0, 246.0), Rgb(6.0, 182.0, 212.0), Rgb(20.0, 184.0, 166.0),
    Rgb(14.0, 165.0, 233.0), Rgb(99.0, 102.0, 241.0), Rgb(45.0, 212.0, 191.0)]

  datatype FragmentType =
    Currency | SystemLabel | StatusChip | Metric | InvoiceId | ChartBar | IndustryTerm

  /** The order in which fragment indices cycle through the kinds. */
  const Types: seq<FragmentType> :=
    [Currency, SystemLabel, StatusChip, Metric, InvoiceId, ChartBar, IndustryTerm]

  const CurrencyValues: seq<string> :=
    ["$42,180", "$12,340", "$8,921", "$156K", "$3,750", "$67,200", "$890", "$24,100", "$5,430", "$99,800"]
  const SystemLabels: seq<string> :=
    ["ERP", "CRM", "QuickBooks", "Yardi", "PCC", "Intacct", "Salesforce", "Xero", "NetSuite", "SAP"]
  const StatusChips: seq<string> :=
    ["Pending", "Overdue", "Processing", "Approved", "Failed", "Syncing", "Delayed", "In Review", "Escalated", "Complete"]
  const Metrics: seq<string> :=
    ["847 units", "23 orders", "156 tickets", "+12.4%", "-3.2%", "98.7%", "4.2 days", "1,247 SKUs", "89 clients", "32 locations"]
  const InvoiceIds: seq<string> :=
    ["INV-4821", "PO-7734", "WO-1192", "RFQ-3301", "SO-8856", "GRN-2210", "CR-5543", "DN-1187", "AP-9920", "AR-6615"]
  const IndustryTerms: seq<string> :=
    ["Census", "Occupancy %", "Rent Roll", "Sales by Day", "Claim Denials", "AR Aging", "Throughput",
     "Yield Rate", "CAM Charges", "NOI", "RevPAR", "PMPM", "Days in AR", "Fill Rate", "Cycle Time", "Bed Census"]

  /** The pool a fragment's text is drawn from; a chart bar has the single empty text. */
  function TextPool(kind: FragmentType): (pool: seq<string>)
    ensures |pool| >= 1
  {
    match kind
    case Currency => CurrencyValues
    case SystemLabel => SystemLabels
    case StatusChip => StatusChips
    case Metric => Metrics
    case InvoiceId => InvoiceIds
    case ChartBar => [""]
    case IndustryTerm => IndustryTerms
  }

  function FontSize(kind: FragmentType): real
  {
    if kind == SystemLabel then 14.0 else if kind == Currency then 16.0 else 12.0
  }

  /** The double nearest to pi, the value of Math.PI. */
  const Pi: real := 3.141592653589793

  /** One animated particle. Only x, y, vx, vy and rotation change after creation, and targetX/targetY on resize. */
  datatype Fragment = Fragment(
    kind: FragmentType, text: string,
    x: real, y: real, vx: real, vy: real,
    rotation: real, rotationSpeed: real,
    hotColor: Rgb, coolColor: Rgb,
    fontSize: real, baseOpacity: real,
    systemGroup: int, targetX: real, targetY: real,
    barHeight: real)

  /** A value of Math.random(). */
  predicate Unit(u: real) { 0.0 <= u < 1.0 }

  /** The thirteen Math.random() values one fragment consumes, in the order they are drawn. */
  datatype Draws = Draws(
    jitterX: real, jitterY: real, text: real, x: real, y: real, vx: real, vy: real,
    rotation: real, rotationSpeed: real, hot: real, cool: real, opacity: real, barHeight: real)

  predicate ValidDraws(d: Draws)
  {
    Unit(d.jitterX) && Unit(d.jitterY) && Unit(d.text) && Unit(d.x) && Unit(d.y) &&
    Unit(d.vx) && Unit(d.vy) && Unit(d.rotation) && Unit(d.rotationSpeed) &&
    Unit(d.hot) && Unit(d.cool) && Unit(d.opacity) && Unit(d.barHeight)
  }

  // ---------------------------------------------------------------- colour

  /** `x` lies on the closed segment between `a` and `b`, whichever is larger. */
  predicate Between(a: real, b: real, x: real)
  {
    (a <= x <= b) || (b <= x <= a)
  }

  function LerpChannel(hot: real, cool: real, t: real): (c: real)
    ensures t == 0.0 ==> c == hot
    ensures t == 1.0 ==> c == cool
    ensures 0.0 <= t <= 1.0 ==> Between(hot, cool, c)
  {
    if 0.0 <= t <= 1.0 then Arith.LerpWithin(hot, cool, t); hot + (cool - hot) * t
    else hot + (cool - hot) * t
  }

  /** Channel-wise linear interpolation from the hot colour (t = 0) to the cool one (t = 1). */
  function LerpColor(hot: Rgb, cool: Rgb, t: real): (c: Rgb)
    ensures t == 0.0 ==> c == hot
    ensures t == 1.0 ==> c == cool
    ensures 0.0 <= t <= 1.0 ==>
      Between(hot.r, cool.r, c.r) && Between(hot.g, cool.g, c.g) && Between(hot.b, cool.b, c.b)
  {
    Rgb(LerpChannel(hot.r, cool.r, t), LerpChannel(hot.g, cool.g, t), LerpChannel(hot.b, cool.b, t))
  }

  // ---------------------------------------------------------------- layout

  /** The index Math.floor(u * n) that pickRandom reads. */
  function PickIndex(u: real, n: int): (k: int)
    requires Unit(u) && n >= 1
    ensures 0 <= k < n
  {
    Arith.MulLt(u, 1.0, n as real);
    Arith.MulNonNeg(u, n as real);
    (u * n as real).Floor
  }

  function Pick<T>(pool: seq<T>, u: real): (v: T)
    requires Unit(u) && |pool| >= 1
    ensures v in pool
  {
    pool[PickIndex(u, |pool|)]
  }

  /** The grid of six target cells: 3 columns by 2 rows over [0.2w, 0.8w] x [0.25h, 0.65h]. */
  function CellWidth(w: real): real { w * 0.6 / 3.0 }
  function CellHeight(h: real): real { h * 0.4 / 2.0 }
  function CellLeft(group: int, w: real): real { w * 0.2 + (group % 3) as real * CellWidth(w) }
  function CellTop(group: int, h: real): real { h * 0.25 + (group / 3) as real * CellHeight(h) }

  /** `v` lies in the central 40% of the interval [lo, lo + size]. */
  predicate InCentralBand(v: real, lo: real, size: real)
  {
    lo + 0.3 * size <= v <= lo + 0.7 * size
  }

  lemma JitterBand(base: real, cell: real, jitter: real)
    requires 0.0 <= cell && Unit(jitter)
    ensures InCentralBand(base + cell * 0.5 + (jitter - 0.5) * cell * 0.4, base, cell)
  {
    Arith.FractionOf(jitter, cell);
    assert (jitter - 0.5) * cell * 0.4 == 0.4 * (jitter * cell) - 0.2 * cell;
  }

  /** The cell centre of the group's column, moved by up to 20% of the cell width either way. */
  function TargetX(group: int, w: real, jitter: real): (x: real)
    requires 0.0 <= w && Unit(jitter)
    ensures InCentralBand(x, CellLeft(group, w), CellWidth(w))
  {
    var cellW := CellWidth(w);
    JitterBand(CellLeft(group, w), cellW, jitter);
    w * 0.2 + (group % 3) as real * cellW + cellW * 0.5 + (jitter - 0.5) * cellW * 0.4
  }

  /** The cell centre of the group's row, moved by up to 20% of the cell height either way. */
  function TargetY(group: int, h: real, jitter: real): (y: real)
    requires 0.0 <= h && Unit(jitter)
    ensures InCentralBand(y, CellTop(group, h), CellHeight(h))
  {
    var cellH := CellHeight(h);
    JitterBand(CellTop(group, h), cellH, jitter);
    h * 0.25 + (group / 3) as real * cellH + cellH * 0.5 + (jitter - 0.5) * cellH * 0.4
  }

  /** A random position along a dimension: Math.random() times its size. */
  function Spread(u: real, size: real): (v: real)
    requires Unit(u) && 0.0 <= size
    ensures 0.0 <= v <= size
  {
    Arith.FractionOf(u, size);
    u * size
  }

  /** A target lies in the central 40% of its group's cell, and so inside the grid rectangle. */
  lemma TargetInCell(group: int, w: real, h: real, jx: real, jy: real)
    requires 0 <= group < 6 && 0.0 <= w && 0.0 <= h && Unit(jx) && Unit(jy)
    ensures w * 0.2 <= TargetX(group, w, jx) <= w * 0.8
    ensures h * 0.25 <= TargetY(group, h, jy) <= h * 0.65
  {
    assert group % 3 == 0 || group % 3 == 1 || group % 3 == 2;
    assert group / 3 == 0 || group / 3 == 1;
  }

  /** What createFragments promises about fragment `i` of a w x h canvas. */
  predicate Spawned(f: Fragment, i: int, w: real, h: real)
  {
    && f.kind == Types[i % 7]
    && f.systemGroup == i % 6
    && f.text in TextPool(f.kind)
    && f.fontSize == FontSize(f.kind)
    && f.hotColor in HotColors && f.coolColor in CoolColors
    && InCentralBand(f.targetX, CellLeft(f.systemGroup, w), CellWidth(w))
    && InCentralBand(f.targetY, CellTop(f.systemGroup, h), CellHeight(h))
    && 0.0 <= f.x <= w && 0.0 <= f.y <= h
    && -2.0 <= f.vx < 2.0 && -2.0 <= f.vy < 2.0
    && 0.0 <= f.rotation < 2.0 * Pi && -0.015 <= f.rotationSpeed < 0.015
    && 0.5 <= f.baseOpacity < 1.0
    && 10.0 <= f.barHeight < 30.0
  }

  function NewFragment(i: int, w: real, h: real, d: Draws): (f: Fragment)
    requires 0 <= i && 0.0 <= w && 0.0 <= h && ValidDraws(d)
    ensures Spawned(f, i, w, h)
  {
    var kind := Types[i % 7];
    var group := i % 6;
    Fragment(
      kind, Pick(TextPool(kind), d.text),
      Spread(d.x, w), Spread(d.y, h), (d.vx - 0.5) * 4.0, (d.vy - 0.5) * 4.0,
      d.rotation * Pi * 2.0, (d.rotationSpeed - 0.5) * 0.03,
      Pick(HotColors, d.hot), Pick(CoolColors, d.cool),
      FontSize(kind), 0.5 + d.opacity * 0.5,
      group, TargetX(group, w, d.jitterX), TargetY(group, h, d.jitterY),
      10.0 + d.barHeight * 20.0)
  }

  /** The initial fragment set: exactly `count` fragments, fragment i spawned as index i. */
  function CreateFragments(count: nat, w: real, h: real, draws: seq<Draws>): (fs: seq<Fragment>)
    requires 0.0 <= w && 0.0 <= h
    requires |draws| == count && forall k :: 0 <= k < count ==> ValidDraws(draws[k])
    ensures |fs| == count
    ensures forall i :: 0 <= i < count ==> Spawned(fs[i], i, w, h)
  {
    seq(count, i requires 0 <= i < count => NewFragment(i, w, h, draws[i]))
  }

  /** How many of the first `n` fragments of `fs` belong to `group`. */
  function GroupCount(fs: seq<Fragment>, n: nat, group: int): nat
    requires n <= |fs|
  {
    if n == 0 then 0
    else GroupCount(fs, n - 1, group) + (if fs[n - 1].systemGroup == group then 1 else 0)
  }

  /** With groups assigned round-robin, a prefix of length n holds ceil((n - g) / 6) members of group g. */
  lemma {:induction false} GroupCountRoundRobin(fs: seq<Fragment>, n: nat, group: int)
    requires n <= |fs| && 0 <= group < 6
    requires forall i :: 0 <= i < |fs| ==> fs[i].systemGroup == i % 6
    ensures GroupCount(fs, n, group) == (n + 5 - group) / 6
  {
    if n > 0 {
      GroupCountRoundRobin(fs, n - 1, group);
      RoundRobinStep(n - 1, group);
    }
  }

  /** Fragment m adds one to the count of group g exactly when m % 6 == g. */
  lemma RoundRobinStep(m: nat, group: int)
    requires 0 <= group < 6
    ensures (m + 6 - group) / 6 == (m + 5 - group) / 6 + (if m % 6 == group then 1 else 0)
  {
    var q, r := m / 6, m % 6;
    assert m == 6 * q + r;
    if r >= group {
      assert (m + 6 - group) / 6 == q + 1;
    } else {
      assert (m + 6 - group) / 6 == q;
    }
    assert (m + 5 - group) / 6 == if r == group then q else if r > group then q + 1 else q;
  }

  /** The desktop configuration: 120 fragments, 20 in each of the six groups. */
  lemma DesktopGroupsHaveTwenty(w: real, h: real, draws: seq<Draws>, group: int)
    requires 0.0 <= w && 0.0 <= h && 0 <= group < 6
    requires |draws| == 120 && forall k :: 0 <= k < 120 ==> ValidDraws(draws[k])
    ensures GroupCount(CreateFragments(120, w, h, draws), 120, group) == 20
  {
    GroupCountRoundRobin(CreateFragments(120, w, h, draws), 120, group);
  }

  // ---------------------------------------------------------------- per-frame factors

  /** Math.max(0, Math.min(1, v)). */
  function Clamp01(v: real): real
  {
    var m := if v < 1.0 then v else 1.0;
    if 0.0 < m then m else 0.0
  }

  /** The three per-frame factors derived from the scroll progress. */
  datatype Factors = Factors(convergence: real, colorT: real, chaos: real)

  function FactorsOf(progress: real): (f: Factors)
    ensures 0.0 <= f.convergence <= 1.0 && 0.0 <= f.colorT <= 1.0
    ensures f.chaos == 1.0 - f.convergence
    ensures f.convergence == 0.0 <==> progress <= 0.15
    ensures f.convergence == 1.0 <==> progress >= 0.65
    ensures f.colorT == 0.0 <==> progress <= 0.1
    ensures f.colorT == 1.0 <==> progress >= 0.55
  {
    var convergence := Clamp01((progress - 0.15) / 0.5);
    var colorT := Clamp01((progress - 0.1) / 0.45);
    Factors(convergence, colorT, 1.0 - convergence)
  }

  // ---------------------------------------------------------------- per-fragment update

  /** Velocity and rotation integration, scaled by chaos. */
  function Drift(f: Fragment, chaos: real): Fragment
  {
    f.(x := f.x + f.vx * chaos, y := f.y + f.vy * chaos,
       rotation := f.rotation + f.rotationSpeed * chaos)
  }

  /** Pull toward the target by convergence^2 * 0.08 of the remaining distance. */
  function Pull(f: Fragment, convergence: real): Fragment
  {
    if convergence > 0.0 then
      var strength := convergence * convergence * 0.08;
      f.(x := f.x + (f.targetX - f.x) * strength, y := f.y + (f.targetY - f.y) * strength)
    else f
  }

  /** One coordinate of the toroidal wrap: leaving by more than 50 re-enters at the far edge. */
  function WrapCoord(c: real, size: real): (r: real)
    ensures c < -50.0 && size >= -100.0 ==> r == size + 50.0
    ensures c > size + 50.0 && size >= -100.0 ==> r == -50.0
    ensures -50.0 <= c <= size + 50.0 ==> r == c
    ensures size >= -100.0 ==> -50.0 <= r <= size + 50.0
  {
    var c1 := if c < -50.0 then size + 50.0 else c;
    if c1 > size + 50.0 then -50.0 else c1
  }

  function Wrap(f: Fragment, chaos: real, width: real, height: real): Fragment
  {
    if chaos > 0.1 then f.(x := WrapCoord(f.x, width), y := WrapCoord(f.y, height)) else f
  }

  /** Push away from the pointer, on desktop, in the chaos phase, within 150 pixels. */
  function Repel(f: Fragment, chaos: real, mobile: bool, mouse: Point, sqrt: real -> real): (g: Fragment)
    ensures g == f.(vx := g.vx, vy := g.vy)
    ensures mobile || chaos <= 0.3 ==> g == f
  {
    if !mobile && chaos > 0.3 then
      var dx := f.x - mouse.x;
      var dy := f.y - mouse.y;
      var dist := sqrt(Norm2(dx, dy));
      if dist < 150.0 && dist > 0.0 then
        var force := ((150.0 - dist) / 150.0) * 2.0 * chaos;
        f.(vx := f.vx + (dx / dist) * force * 0.3, vy := f.vy + (dy / dist) * force * 0.3)
      else f
    else f
  }

  /** The speed limit for a given chaos factor. */
  function MaxSpeed(chaos: real): real { 4.0 * chaos + 0.05 }

  /** Rescale a velocity of magnitude `speed` to `maxV` when it is faster. */
  function ScaleDown(f: Fragment, maxV: real, speed: real): (g: Fragment)
    requires 0.0 < maxV
    ensures g == f.(vx := g.vx, vy := g.vy)
  {
    if speed > maxV then f.(vx := (f.vx / speed) * maxV, vy := (f.vy / speed) * maxV) else f
  }

  /** Scale the velocity down to the speed limit when it is faster. */
  function Clamp(f: Fragment, chaos: real, sqrt: real -> real): (g: Fragment)
    requires 0.0 <= chaos
    ensures g == f.(vx := g.vx, vy := g.vy)
  {
    ScaleDown(f, MaxSpeed(chaos), sqrt(Norm2(f.vx, f.vy)))
  }

  /** Fields fixed for a fragment's lifetime (all but position, velocity, rotation and target). */
  predicate SameIdentity(f: Fragment, g: Fragment)
  {
    g.kind == f.kind && g.text == f.text && g.rotationSpeed == f.rotationSpeed &&
    g.hotColor == f.hotColor && g.coolColor == f.coolColor && g.fontSize == f.fontSize &&
    g.baseOpacity == f.baseOpacity && g.systemGroup == f.systemGroup && g.barHeight == f.barHeight
  }

  /** The body of the per-frame loop for one fragment. */
  function UpdateFragment(f: Fragment, progress: real, width: real, height: real,
                          mobile: bool, mouse: Point, sqrt: real -> real): (g: Fragment)
    ensures SameIdentity(f, g) && g.targetX == f.targetX && g.targetY == f.targetY
  {
    var fac := FactorsOf(progress);
    var moved := Wrap(Pull(Drift(f, fac.chaos), fac.convergence), fac.chaos, width, height);
    Clamp(Repel(moved, fac.chaos, mobile, mouse, sqrt), fac.chaos, sqrt)
  }

  function StepAll(fs: seq<Fragment>, progress: real, width: real, height: real,
                   mobile: bool, mouse: Point, sqrt: real -> real): (gs: seq<Fragment>)
    ensures |gs| == |fs|
  {
    seq(|fs|, i requires 0 <= i < |fs| => UpdateFragment(fs[i], progress, width, height, mobile, mouse, sqrt))
  }

  // ---------------------------------------------------------------- properties of one frame

  /** Fully settled: drift, rotation, wrap and repulsion do nothing and each coordinate closes 8% of its gap. */
  lemma SettledFrameIsPurePull(f: Fragment, progress: real, width: real, height: real,
                               mobile: bool, mouse: Point, sqrt: real -> real)
    requires progress >= 0.65
    ensures var g := UpdateFragment(f, progress, width, height, mobile, mouse, sqrt);
      && g.x == f.x + (f.targetX - f.x) * 0.08
      && g.y == f.y + (f.targetY - f.y) * 0.08
      && g.x - f.targetX == 0.92 * (f.x - f.targetX)
      && g.y - f.targetY == 0.92 * (f.y - f.targetY)
      && g.rotation == f.rotation
  {
    var fac := FactorsOf(progress);
    assert fac.convergence == 1.0 && fac.chaos == 0.0;
    var d := Drift(f, fac.chaos);
    assert d.x == f.x && d.y == f.y && d.rotation == f.rotation;
    var p := Pull(d, fac.convergence);
    assert p.x == f.x + (f.targetX - f.x) * 0.08;
    assert p.y == f.y + (f.targetY - f.y) * 0.08;
    assert Wrap(p, fac.chaos, width, height) == p;
    assert Repel(p, fac.chaos, mobile, mouse, sqrt) == p;
  }

  /** Fully chaotic (progress <= 0.15): no pull; the position is the drifted one, wrapped. */
  lemma ChaoticFrameHasNoPull(f: Fragment, progress: real, width: real, height: real,
                              mobile: bool, mouse: Point, sqrt: real -> real)
    requires progress <= 0.15
    ensures var g := UpdateFragment(f, progress, width, height, mobile, mouse, sqrt);
      && g.x == WrapCoord(f.x + f.vx, width)
      && g.y == WrapCoord(f.y + f.vy, height)
      && g.rotation == f.rotation + f.rotationSpeed
  {
    var fac := FactorsOf(progress);
    assert fac.convergence == 0.0 && fac.chaos == 1.0;
    var d := Drift(f, fac.chaos);
    assert d.x == f.x + f.vx && d.y == f.y + f.vy;
    assert Pull(d, fac.convergence) == d;
  }

  /** Repeated settled frames shrink the distance to the target geometrically, by 0.92 per frame. */
  function SettleFrames(f: Fragment, k: nat, width: real, height: real, mobile: bool,
                        mouse: Point, sqrt: real -> real): Fragment
    decreases k
  {
    if k == 0 then f else SettleFrames(UpdateFragment(f, 1.0, width, height, mobile, mouse, sqrt),
                                       k - 1, width, height, mobile, mouse, sqrt)
  }

  function Power(b: real, k: nat): real { if k == 0 then 1.0 else b * Power(b, k - 1) }

  lemma {:induction false} SettleFramesConverge(f: Fragment, k: nat, width: real, height: real,
                                                mobile: bool, mouse: Point, sqrt: real -> real)
    decreases k
    ensures var g := SettleFrames(f, k, width, height, mobile, mouse, sqrt);
      && g.targetX == f.targetX && g.targetY == f.targetY
      && g.x - f.targetX == Power(0.92, k) * (f.x - f.targetX)
      && g.y - f.targetY == Power(0.92, k) * (f.y - f.targetY)
  {
    if k > 0 {
      var f1 := UpdateFragment(f, 1.0, width, height, mobile, mouse, sqrt);
      SettledFrameIsPurePull(f, 1.0, width, height, mobile, mouse, sqrt);
      SettleFramesConverge(f1, k - 1, width, height, mobile, mouse, sqrt);
      var c := Power(0.92, k - 1);
      assert c * (0.92 * (f.x - f.targetX)) == (0.92 * c) * (f.x - f.targetX);
      assert c * (0.92 * (f.y - f.targetY)) == (0.92 * c) * (f.y - f.targetY);
    }
  }

  /** While chaos > 0.1 (progress < 0.6), every fragment ends the frame within 50 pixels of the canvas. */
  lemma ChaoticFrameStaysNearCanvas(f: Fragment, progress: real, width: real, height: real,
                                    mobile: bool, mouse: Point, sqrt: real -> real)
    requires FactorsOf(progress).chaos > 0.1 && 0.0 <= width && 0.0 <= height
    ensures var g := UpdateFragment(f, progress, width, height, mobile, mouse, sqrt);
      -50.0 <= g.x <= width + 50.0 && -50.0 <= g.y <= height + 50.0
  {
  }

  /** The direction of (vx, vy) scaled to `m` has length exactly `m`. */
  lemma ScaledToLimit(vx: real, vy: real, speed: real, m: real, gx: real, gy: real)
    requires 0.0 < speed && speed * speed == vx * vx + vy * vy
    requires gx == (vx / speed) * m && gy == (vy / speed) * m
    ensures gx * gx + gy * gy == m * m
  {
    var k := m / speed;
    assert gx == vx * k && gy == vy * k;
    Arith.SumSquaresScaled(vx, vy, k);
    Arith.SquareOfScaled(k, speed, m);
  }

  /** Rescaling by the true magnitude never leaves the velocity faster than the limit. */
  lemma ScaleDownBound(f: Fragment, maxV: real, speed: real)
    requires 0.0 < maxV && 0.0 <= speed && speed * speed == Norm2(f.vx, f.vy)
    ensures var g := ScaleDown(f, maxV, speed); Norm2(g.vx, g.vy) <= maxV * maxV
    ensures Norm2(f.vx, f.vy) <= maxV * maxV ==> ScaleDown(f, maxV, speed) == f
  {
    var g := ScaleDown(f, maxV, speed);
    if speed > maxV {
      ScaledToLimit(f.vx, f.vy, speed, maxV, g.vx, g.vy);
      Arith.SquareLt(maxV, speed);
    } else {
      Arith.SquareLe(speed, maxV);
    }
  }

  /** After the clamp the speed is at most the limit, and a velocity within the limit is left alone. */
  lemma ClampBoundsSpeed(f: Fragment, chaos: real, sqrt: real -> real)
    requires IsSqrt(sqrt) && 0.0 <= chaos
    ensures var g := Clamp(f, chaos, sqrt);
      Norm2(g.vx, g.vy) <= MaxSpeed(chaos) * MaxSpeed(chaos)
    ensures Norm2(f.vx, f.vy) <= MaxSpeed(chaos) * MaxSpeed(chaos) ==> Clamp(f, chaos, sqrt) == f
  {
    RootOf(sqrt, Norm2(f.vx, f.vy));
    ClampWithRoot(f, chaos, sqrt);
  }

  lemma ClampWithRoot(f: Fragment, chaos: real, sqrt: real -> real)
    requires 0.0 <= chaos
    requires 0.0 <= sqrt(Norm2(f.vx, f.vy))
    requires sqrt(Norm2(f.vx, f.vy)) * sqrt(Norm2(f.vx, f.vy)) == Norm2(f.vx, f.vy)
    ensures var g := Clamp(f, chaos, sqrt);
      Norm2(g.vx, g.vy) <= MaxSpeed(chaos) * MaxSpeed(chaos)
    ensures Norm2(f.vx, f.vy) <= MaxSpeed(chaos) * MaxSpeed(chaos) ==> Clamp(f, chaos, sqrt) == f
  {
    ClampIsScaleDown(f, chaos, sqrt);
    ScaleDownBound(f, MaxSpeed(chaos), sqrt(Norm2(f.vx, f.vy)));
  }

  lemma ClampIsScaleDown(f: Fragment, chaos: real, sqrt: real -> real)
    requires 0.0 <= chaos
    ensures Clamp(f, chaos, sqrt) == ScaleDown(f, MaxSpeed(chaos), sqrt(Norm2(f.vx, f.vy)))
  {}

  /** Every frame leaves each fragment no faster than 4 * chaos + 0.05. */
  lemma FrameBoundsSpeed(f: Fragment, progress: real, width: real, height: real,
                         mobile: bool, mouse: Point, sqrt: real -> real)
    requires IsSqrt(sqrt)
    ensures var g := UpdateFragment(f, progress, width, height, mobile, mouse, sqrt);
      var m := MaxSpeed(FactorsOf(progress).chaos);
      Norm2(g.vx, g.vy) <= m * m
  {
    var fac := FactorsOf(progress);
    var moved := Wrap(Pull(Drift(f, fac.chaos), fac.convergence), fac.chaos, width, height);
    ClampBoundsSpeed(Repel(moved, fac.chaos, mobile, mouse, sqrt), fac.chaos, sqrt);
  }

  // ---------------------------------------------------------------- connections

  /** A pair that the group layer links: same group, closer than the connection distance. */
  predicate GroupLinked(fs: seq<Fragment>, i: int, j: int, limit: real, sqrt: real -> real)
  {
    0 <= i < j < |fs| && fs[i].systemGroup == fs[j].systemGroup &&
    sqrt(Dist2(Point(fs[i].x, fs[i].y), Point(fs[j].x, fs[j].y))) < limit
  }

  /** A pair that the sparse chaotic layer links: every third fragment against every third one after it. */
  predicate ChaosLinked(fs: seq<Fragment>, i: int, j: int, limit: real, sqrt: real -> real)
  {
    0 <= i < j < |fs| && i % 3 == 0 && j % 3 == 1 &&
    sqrt(Dist2(Point(fs[i].x, fs[i].y), Point(fs[j].x, fs[j].y))) < limit * 0.8
  }

  // ---------------------------------------------------------------- the animator

  /** The per-frame loop over the fragment array: `update` applied to each slot in place, in index order. */
  method Advance(fs: array<Fragment>, update: Fragment -> Fragment)
    modifies fs
    ensures forall k :: 0 <= k < fs.Length ==> fs[k] == update(old(fs[k]))
  {
    var i := 0;
    while i < fs.Length
      invariant 0 <= i <= fs.Length
      invariant forall k :: 0 <= k < i ==> fs[k] == update(old(fs[k]))
      invariant forall k :: i <= k < fs.Length ==> fs[k] == old(fs[k])
    {
      fs[i] := update(fs[i]);
      i := i + 1;
    }
  }

  /** Every fragment has the kind and the group that its index assigns. */
  predicate Indexed(fs: seq<Fragment>)
  {
    forall i :: 0 <= i < |fs| ==> fs[i].kind == Types[i % 7] && fs[i].systemGroup == i % 6
  }

  /** A frame never changes which kind or group a fragment has. */
  lemma StepAllKeepsIndexed(fs: seq<Fragment>, progress: real, width: real, height: real,
                            mobile: bool, mouse: Point, sqrt: real -> real)
    requires Indexed(fs)
    ensures Indexed(StepAll(fs, progress, width, height, mobile, mouse, sqrt))
  {
    var gs := StepAll(fs, progress, width, height, mobile, mouse, sqrt);
    forall i | 0 <= i < |gs|
      ensures gs[i].kind == Types[i % 7] && gs[i].systemGroup == i % 6
    {
      assert SameIdentity(fs[i], gs[i]);
    }
  }

  /** The number of fragments and the connection distance for a device class. */
  function FragmentCount(mobile: bool): nat { if mobile then 35 else 120 }
  function ConnectionDistance(mobile: bool): real { if mobile then 60.0 else 120.0 }

  /** The component's mutable state: the fragment array, the pointer cell and the visibility flag. */
  class Animator {
    const isMobile: bool
    const connectionDist: real
    var fragments: array<Fragment>
    var mouse: Point
    var visible: bool

    /** Every fragment keeps the kind and group its index gave it, and the array keeps its size. */
    ghost predicate Valid()
      reads this, fragments
    {
      && fragments.Length == FragmentCount(isMobile)
      && connectionDist == ConnectionDistance(isMobile)
      && Indexed(fragments[..])
    }

    /** Mounting: the device class comes from the window width (mobile below 768). */
    constructor (windowWidth: real, w: real, h: real, draws: seq<Draws>)
      requires 0.0 <= w && 0.0 <= h
      requires |draws| == FragmentCount(windowWidth < 768.0)
      requires forall k :: 0 <= k < |draws| ==> ValidDraws(draws[k])
      ensures Valid() && fresh(fragments)
      ensures isMobile == (windowWidth < 768.0)
      ensures fragments[..] == CreateFragments(|draws|, w, h, draws)
      ensures mouse == Point(-1000.0, -1000.0) && visible
    {
      isMobile := windowWidth < 768.0;
      connectionDist := ConnectionDistance(windowWidth < 768.0);
      var fs := CreateFragments(|draws|, w, h, draws);
      fragments := new Fragment[|draws|](i requires 0 <= i < |draws| => fs[i]);
      mouse := Point(-1000.0, -1000.0);
      visible := true;
    }

    /** The pointer handler: only desktop devices track the pointer. */
    method MouseMove(x: real, y: real)
      modifies this`mouse
      ensures mouse == if isMobile then old(mouse) else Point(x, y)
    {
      if !isMobile {
        mouse := Point(x, y);
      }
    }

    /** The intersection observer's callback. */
    method SetVisible(intersecting: bool)
      modifies this`visible
      ensures visible == intersecting
    {
      visible := intersecting;
    }

    /** One animation frame's update: every fragment advanced in place; nothing happens off-screen. */
    method Step(progress: real, width: real, height: real, sqrt: real -> real)
      requires Valid()
      modifies fragments
      ensures Valid()
      ensures fragments[..] ==
        if visible then StepAll(old(fragments[..]), progress, width, height, isMobile, mouse, sqrt)
        else old(fragments[..])
    {
      if visible {
        var mobile, pointer := isMobile, mouse;
        Advance(fragments, f => UpdateFragment(f, progress, width, height, mobile, pointer, sqrt));
        assert fragments[..] == StepAll(old(fragments[..]), progress, width, height, isMobile, mouse, sqrt);
        StepAllKeepsIndexed(old(fragments[..]), progress, width, height, isMobile, mouse, sqrt);
      }
    }

    /** Resize: new targets from the new canvas size; nothing else about any fragment changes. */
    method Resize(newW: real, newH: real, jitter: seq<(real, real)>)
      requires Valid()
      requires 0.0 <= newW && 0.0 <= newH
      requires |jitter| == fragments.Length
      requires forall k :: 0 <= k < |jitter| ==> Unit(jitter[k].0) && Unit(jitter[k].1)
      modifies fragments
      ensures Valid()
      ensures forall k :: 0 <= k < fragments.Length ==>
        InCentralBand(fragments[k].targetX, CellLeft(k % 6, newW), CellWidth(newW)) &&
        InCentralBand(fragments[k].targetY, CellTop(k % 6, newH), CellHeight(newH))
      ensures forall k :: 0 <= k < fragments.Length ==>
        fragments[k] == old(fragments[k]).(targetX := TargetX(old(fragments[k]).systemGroup, newW, jitter[k].0),
                                           targetY := TargetY(old(fragments[k]).systemGroup, newH, jitter[k].1))
    {
      var i := 0;
      while i < fragments.Length
        invariant 0 <= i <= fragments.Length
        invariant forall k :: 0 <= k < i ==>
          fragments[k] == old(fragments[k]).(targetX := TargetX(old(fragments[k]).systemGroup, newW, jitter[k].0),
                                             targetY := TargetY(old(fragments[k]).systemGroup, newH, jitter[k].1))
        invariant forall k :: i <= k < fragments.Length ==> fragments[k] == old(fragments[k])
      {
        var f := fragments[i];
        fragments[i] := f.(targetX := TargetX(f.systemGroup, newW, jitter[i].0),
                           targetY := TargetY(f.systemGroup, newH, jitter[i].1));
        i := i + 1;
      }
    }

    /** The group layer: all pairs i < j linked within a group, drawn only once convergence exceeds 0.2. */
    method GroupConnections(progress: real, sqrt: real -> real) returns (pairs: seq<(int, int)>)
      ensures forall i, j :: (i, j) in pairs <==>
        FactorsOf(progress).convergence > 0.2 && GroupLinked(fragments[..], i, j, connectionDist, sqrt)
    {
      pairs := [];
      if !(FactorsOf(progress).convergence > 0.2) {
        return;
      }
      var n := fragments.Length;
      var i := 0;
      while i < n
        invariant 0 <= i <= n
        invariant forall a, b :: (a, b) in pairs <==> a < i && GroupLinked(fragments[..], a, b, connectionDist, sqrt)
      {
        var j := i + 1;
        while j < n
          invariant i + 1 <= j <= n
          invariant forall a, b :: (a, b) in pairs <==>
            (a < i || (a == i && b < j)) && GroupLinked(fragments[..], a, b, connectionDist, sqrt)
        {
          var fi, fj := fragments[i], fragments[j];
          if fi.systemGroup == fj.systemGroup && sqrt(Dist2(Point(fi.x, fi.y), Point(fj.x, fj.y))) < connectionDist {
            pairs := pairs + [(i, j)];
          }
          j := j + 1;
        }
        i := i + 1;
      }
    }

    /** The chaotic layer: every third fragment against every third one after it, only while chaos exceeds 0.3. */
    method ChaoticConnections(progress: real, sqrt: real -> real) returns (pairs: seq<(int, int)>)
      ensures forall i, j :: (i, j) in pairs <==>
        FactorsOf(progress).chaos > 0.3 && ChaosLinked(fragments[..], i, j, connectionDist, sqrt)
    {
      pairs := [];
      if !(FactorsOf(progress).chaos > 0.3) {
        return;
      }
      var n := fragments.Length;
      var i := 0;
      while i < n
        invariant 0 <= i && i % 3 == 0
        invariant forall a, b :: (a, b) in pairs <==> a < i && ChaosLinked(fragments[..], a, b, connectionDist, sqrt)
      {
        var j := i + 1;
        while j < n
          invariant i + 1 <= j && j % 3 == 1
          invariant forall a, b :: (a, b) in pairs <==>
            (a < i || (a == i && b < j)) && ChaosLinked(fragments[..], a, b, connectionDist, sqrt)
        {
          var fi, fj := fragments[i], fragments[j];
          if sqrt(Dist2(Point(fi.x, fi.y), Point(fj.x, fj.y))) < connectionDist * 0.8 {
            pairs := pairs + [(i, j)];
          }
          j := j + 3;
        }
        i := i + 3;
      }
    }
  }

  /** Once settled (progress >= 0.65) the chaotic layer is off, so no pair is drawn twice. */
  lemma SettledHasNoChaoticLayer(progress: real)
    requires progress >= 0.65
    ensures !(FactorsOf(progress).chaos > 0.3) && FactorsOf(progress).convergence > 0.2
  {
  }
}
