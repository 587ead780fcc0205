/** Island terrain of src/Loader.js: `createIsland` samples 24 angles (0 to 345
    in steps of 15 degrees). At each angle `returnRandomPointOnCircle` jitters a
    grass point, the dirt point's base radius is the grass point's realised
    distance plus 1.5, and the stone point's base radius is the dirt point's
    realised distance; `drawIslandSegment` appends each point to its layer's
    outline. Sine, cosine, square root and the random draws are inputs. */
module Island {
  import opened RealArith

  const GrassRadius: real := 12.0
  const GrassVariance: real := 1.5
  const DirtOffset: real := 1.5
  const DirtVariance: real := 1.0
  const StoneOffset: real := 0.0
  const StoneVariance: real := 2.0

  /** The angular loop: `for (a = 0; a < 360; a += 15)`. */
  const AngleStep: int := 15
  const FullTurn: int := 360
  const SampleCount: int := 24

  // ---------------------------------------------------------------------------
  // Outlines

  /** The drawing commands of a path-shape outline. */
  datatype PathCommand = MoveTo(x: real, y: real) | LineTo(x: real, y: real)

  type Path = seq<PathCommand>

  function Moves(p: Path): nat {
    if p == [] then 0 else Moves(p[..|p| - 1]) + (if p[|p| - 1].MoveTo? then 1 else 0)
  }

  function Lines(p: Path): nat {
    if p == [] then 0 else Lines(p[..|p| - 1]) + (if p[|p| - 1].LineTo? then 1 else 0)
  }

  /** drawIslandSegment: the first angle starts the outline at the point, every
      angle extends it to the point. */
  function DrawIslandSegment(path: Path, x: real, y: real, angle: int): (r: Path)
    ensures |path| < |r| && r[..|path|] == path
    ensures r[|r| - 1] == LineTo(x, y)
    ensures Lines(r) == Lines(path) + 1
    ensures Moves(r) == Moves(path) + (if angle == 0 then 1 else 0)
    ensures angle == 0 <==> |r| == |path| + 2
    ensures angle == 0 ==> r[|path|] == MoveTo(x, y)
  {
    var r := if angle == 0 then path + [MoveTo(x, y)] else path;
    assert (r + [LineTo(x, y)])[..|r|] == r;
    assert angle == 0 ==> r[..|path|] == path;
    r + [LineTo(x, y)]
  }

  datatype Point = Point(x: real, y: real)

  /** `path` traces `pts`: a single move to the first point, then a line to
      every point in order. */
  predicate Traces(path: Path, pts: seq<Point>) {
    if pts == [] then path == []
    else
      && |path| == |pts| + 1
      && path[0] == MoveTo(pts[0].x, pts[0].y)
      && forall i :: 0 <= i < |pts| ==> path[i + 1] == LineTo(pts[i].x, pts[i].y)
  }

  /** An outline traced through n > 0 points starts with its only move and
      holds exactly n lines. */
  lemma {:induction false} TracedCounts(path: Path, pts: seq<Point>)
    requires Traces(path, pts) && pts != []
    ensures path[0].MoveTo?
    ensures Moves(path) == 1
    ensures Lines(path) == |pts|
    decreases |pts|
  {
    if |pts| == 1 {
      var first := [path[0]];
      assert path[..|path| - 1] == first;
      assert first[..0] == [];
      assert Moves(first) == 1;
      assert Lines(first) == 0;
    } else {
      var shorter := pts[..|pts| - 1];
      var prefix := path[..|path| - 1];
      assert Traces(prefix, shorter) by {
        forall i | 0 <= i < |shorter|
          ensures prefix[i + 1] == LineTo(shorter[i].x, shorter[i].y)
        {
          assert path[i + 1] == LineTo(pts[i].x, pts[i].y);
        }
      }
      TracedCounts(prefix, shorter);
      assert path[|path| - 1] == LineTo(pts[|pts| - 1].x, pts[|pts| - 1].y);
    }
  }

  /** Drawing the next point at a non-zero angle (or the first at angle 0)
      extends the traced outline by that point. */
  lemma {:induction false} DrawExtendsTrace(path: Path, pts: seq<Point>, p: Point, angle: int)
    requires Traces(path, pts)
    requires angle == 0 <==> pts == []
    ensures Traces(DrawIslandSegment(path, p.x, p.y, angle), pts + [p])
  {
    var r := DrawIslandSegment(path, p.x, p.y, angle);
    var qs := pts + [p];
    if pts != [] {
      forall i | 0 <= i < |qs|
        ensures r[i + 1] == LineTo(qs[i].x, qs[i].y)
      {
        if i < |pts| {
          assert r[i + 1] == r[..|path|][i + 1];
        }
      }
    }
  }

  // ---------------------------------------------------------------------------
  // Sampling

  /** What the host environment supplies at one angle: its sine and cosine, and
      the six `Math.random()` draws, two (x then y) for each layer. */
  datatype Sample = Sample(sin: real, cos: real,
                           grassX: real, grassY: real,
                           dirtX: real, dirtY: real,
                           stoneX: real, stoneY: real)

  predicate UnitDraw(u: real) {
    0.0 <= u < 1.0
  }

  /** Draws lie in [0, 1) and the sine and cosine lie on the unit circle. */
  predicate ValidSample(s: Sample) {
    && s.sin * s.sin + s.cos * s.cos == 1.0
    && UnitDraw(s.grassX) && UnitDraw(s.grassY)
    && UnitDraw(s.dirtX) && UnitDraw(s.dirtY)
    && UnitDraw(s.stoneX) && UnitDraw(s.stoneY)
  }

  /** `sqrt` returns the non-negative square root of every non-negative number. */
  ghost predicate IsSqrt(sqrt: real -> real) {
    forall q :: 0.0 <= q ==> 0.0 <= sqrt(q) && sqrt(q) * sqrt(q) == q
  }

  /** A base radius widened by a fraction `u` of the variance. */
  function Jittered(radius: real, variance: real, u: real): real {
    radius + variance * u
  }

  /** The conditions every call of returnRandomPointOnCircle meets: a
      non-negative base radius, a positive variance, draws in [0, 1) and a
      sine and cosine on the unit circle. */
  predicate ValidJitter(radius: real, variance: real, ux: real, uy: real, sin: real, cos: real) {
    && 0.0 <= radius && 0.0 < variance
    && UnitDraw(ux) && UnitDraw(uy)
    && sin * sin + cos * cos == 1.0
  }

  /** returnRandomPointOnCircle: the x and y radii are jittered by separate
      draws, so the point's squared distance lies between the squares of the
      base radius and of the base radius plus the variance. */
  function RandomPointOnCircle(radius: real, variance: real, ux: real, uy: real,
                               sin: real, cos: real): (p: Point)
    ensures ValidJitter(radius, variance, ux, uy, sin, cos) ==>
              radius * radius <= SquaredDistance(p) < (radius + variance) * (radius + variance)
  {
    SquaredDistanceBounds(radius, variance, ux, uy, sin, cos);
    Point(Jittered(radius, variance, ux) * sin, Jittered(radius, variance, uy) * cos)
  }

  function SquaredDistance(p: Point): real {
    p.x * p.x + p.y * p.y
  }

  /** The realised distance from the island axis, `Math.sqrt(x**2 + y**2)`. */
  function Distance(sqrt: real -> real, p: Point): real {
    sqrt(SquaredDistance(p))
  }

  /** The three points drawn at one angle, in order. */
  datatype Column = Column(grass: Point, dirt: Point, stone: Point)

  /** The three points drawn at one angle share its sine and cosine: a point
      whose two draws coincide lies on the line through the axis at that angle.
      How far out each lies is stated by `ColumnNesting`. */
  function SampleColumn(s: Sample, sqrt: real -> real): (c: Column)
    ensures s.grassX == s.grassY ==> c.grass.x * s.cos == c.grass.y * s.sin
    ensures s.dirtX == s.dirtY ==> c.dirt.x * s.cos == c.dirt.y * s.sin
    ensures s.stoneX == s.stoneY ==> c.stone.x * s.cos == c.stone.y * s.sin
  {
    var grass := RandomPointOnCircle(GrassRadius, GrassVariance, s.grassX, s.grassY, s.sin, s.cos);
    var dirt := RandomPointOnCircle(Distance(sqrt, grass) + DirtOffset, DirtVariance,
                                    s.dirtX, s.dirtY, s.sin, s.cos);
    var stone := RandomPointOnCircle(Distance(sqrt, dirt) + StoneOffset, StoneVariance,
                                     s.stoneX, s.stoneY, s.sin, s.cos);
    Column(grass, dirt, stone)
  }

  datatype Layer = Grass | Dirt | Stone

  function PointOf(c: Column, layer: Layer): Point {
    match layer
    case Grass => c.grass
    case Dirt => c.dirt
    case Stone => c.stone
  }

  /** One layer's points across the samples, in angle order. */
  function Ring(samples: seq<Sample>, sqrt: real -> real, layer: Layer): (pts: seq<Point>)
    ensures |pts| == |samples|
    decreases |samples|
  {
    if samples == [] then []
    else Ring(samples[..|samples| - 1], sqrt, layer)
         + [PointOf(SampleColumn(samples[|samples| - 1], sqrt), layer)]
  }

  /** A layer's ring holds, at index i, that layer's point computed from
      sample i alone. */
  lemma {:induction false} RingAt(samples: seq<Sample>, sqrt: real -> real, layer: Layer, i: nat)
    requires i < |samples|
    ensures Ring(samples, sqrt, layer)[i] == PointOf(SampleColumn(samples[i], sqrt), layer)
    decreases |samples|
  {
    if i < |samples| - 1 {
      var prefix := samples[..|samples| - 1];
      RingAt(prefix, sqrt, layer, i);
      assert prefix[i] == samples[i];
    }
  }

  /** Drawing the k-th sample's point of a layer onto an outline that traces the
      layer's first k points yields an outline tracing its first k + 1. */
  lemma {:induction false} DrawNextRingPoint(path: Path, samples: seq<Sample>, sqrt: real -> real,
                          layer: Layer, k: nat, angle: int, p: Point)
    requires k < |samples| && (angle == 0 <==> k == 0)
    requires p == PointOf(SampleColumn(samples[k], sqrt), layer)
    requires Traces(path, Ring(samples[..k], sqrt, layer))
    ensures Traces(DrawIslandSegment(path, p.x, p.y, angle), Ring(samples[..k + 1], sqrt, layer))
  {
    assert samples[..k + 1][..k] == samples[..k];
    DrawExtendsTrace(path, Ring(samples[..k], sqrt, layer), p, angle);
  }

  /** createIsland's loop: each outline traces its layer's ring in angle order,
      so it has 25 commands and starts with a move (by `TracedCounts`, its only
      move, followed by 24 lines). */
  method CreateIsland(samples: seq<Sample>, sqrt: real -> real) returns (grass: Path, dirt: Path, stone: Path)
    requires |samples| == SampleCount
    ensures |grass| == |dirt| == |stone| == SampleCount + 1
    ensures grass[0].MoveTo? && dirt[0].MoveTo? && stone[0].MoveTo?
    ensures Traces(grass, Ring(samples, sqrt, Grass))
    ensures Traces(dirt, Ring(samples, sqrt, Dirt))
    ensures Traces(stone, Ring(samples, sqrt, Stone))
  {
    grass, dirt, stone := [], [], [];
    var a, k := 0, 0;
    while a < FullTurn
      invariant 0 <= k <= SampleCount && a == AngleStep * k
      invariant Traces(grass, Ring(samples[..k], sqrt, Grass))
      invariant Traces(dirt, Ring(samples[..k], sqrt, Dirt))
      invariant Traces(stone, Ring(samples[..k], sqrt, Stone))
      decreases FullTurn - a
    {
      var s := samples[k];
      ghost var column := SampleColumn(s, sqrt);
      var p := RandomPointOnCircle(GrassRadius, GrassVariance, s.grassX, s.grassY, s.sin, s.cos);
      assert p == column.grass;
      DrawNextRingPoint(grass, samples, sqrt, Grass, k, a, p);
      grass := DrawIslandSegment(grass, p.x, p.y, a);
      var grassActual := Distance(sqrt, p);
      p := RandomPointOnCircle(grassActual + DirtOffset, DirtVariance, s.dirtX, s.dirtY, s.sin, s.cos);
      assert p == column.dirt;
      DrawNextRingPoint(dirt, samples, sqrt, Dirt, k, a, p);
      dirt := DrawIslandSegment(dirt, p.x, p.y, a);
      var dirtActual := Distance(sqrt, p);
      p := RandomPointOnCircle(dirtActual + StoneOffset, StoneVariance, s.stoneX, s.stoneY, s.sin, s.cos);
      assert p == column.stone;
      DrawNextRingPoint(stone, samples, sqrt, Stone, k, a, p);
      stone := DrawIslandSegment(stone, p.x, p.y, a);
      a, k := a + AngleStep, k + 1;
    }
    assert samples[..k] == samples;
  }

  // ---------------------------------------------------------------------------
  // Radii

  /** A point whose x and y radii both lie in [radius, top) has a squared
      distance in [radius^2, top^2). */
  lemma SquaredDistanceOfRadii(radius: real, top: real, a: real, b: real, sin: real, cos: real)
    requires 0.0 <= radius <= a < top && radius <= b < top
    requires sin * sin + cos * cos == 1.0
    ensures radius * radius <= (a * sin) * (a * sin) + (b * cos) * (b * cos) < top * top
  {
    SquareMonotone(radius, a);
    SquareMonotone(radius, b);
    SquareMonotone(a, top);
    SquareMonotone(b, top);
    SquareOfProduct(a, sin);
    SquareOfProduct(b, cos);
    SquareNonNegative(sin);
    SquareNonNegative(cos);
    ConvexBounds(radius * radius, top * top, a * a, b * b, sin * sin, cos * cos);
  }

  lemma JitterBounds(radius: real, variance: real, u: real)
    requires 0.0 < variance && UnitDraw(u)
    ensures radius <= Jittered(radius, variance, u) < radius + variance
  {
    ScaledDraw(variance, u);
  }

  /** Radii jittered by separate draws and scaled by a sine and cosine give a
      squared distance between the squares of the base radius and of the base
      radius plus the variance. */
  lemma SquaredDistanceBounds(radius: real, variance: real, ux: real, uy: real, sin: real, cos: real)
    ensures var a, b := Jittered(radius, variance, ux), Jittered(radius, variance, uy);
            ValidJitter(radius, variance, ux, uy, sin, cos) ==>
              radius * radius <= (a * sin) * (a * sin) + (b * cos) * (b * cos)
                < (radius + variance) * (radius + variance)
  {
    if ValidJitter(radius, variance, ux, uy, sin, cos) {
      var a := Jittered(radius, variance, ux);
      var b := Jittered(radius, variance, uy);
      assert radius <= b < radius + variance by {
        JitterBounds(radius, variance, uy);
      }
      assert radius <= a < radius + variance by {
        JitterBounds(radius, variance, ux);
      }
      SquaredDistanceOfRadii(radius, radius + variance, a, b, sin, cos);
    }
  }

  /** The square root of a number in [lo^2, hi^2) lies in [lo, hi). */
  lemma SqrtBounds(sqrt: real -> real, q: real, lo: real, hi: real)
    requires IsSqrt(sqrt)
    requires 0.0 <= lo && 0.0 <= hi && lo * lo <= q < hi * hi
    ensures lo <= sqrt(q) < hi
  {
    ProductNonNegative(lo, lo);
    var d := sqrt(q);
    assert 0.0 <= d && d * d == q;
    RootBounds(d, lo, hi);
  }

  /** The realised distance of a jittered point lies in [radius, radius + variance). */
  lemma DistanceBounds(sqrt: real -> real, radius: real, variance: real, ux: real, uy: real,
                       sin: real, cos: real)
    requires IsSqrt(sqrt)
    requires ValidJitter(radius, variance, ux, uy, sin, cos)
    ensures radius <= Distance(sqrt, RandomPointOnCircle(radius, variance, ux, uy, sin, cos))
              < radius + variance
  {
    var p := RandomPointOnCircle(radius, variance, ux, uy, sin, cos);
    var q := SquaredDistance(p);
    assert radius * radius <= q < (radius + variance) * (radius + variance);
    SqrtBounds(sqrt, q, radius, radius + variance);
  }

  /** At every angle the layers nest: dirt lies at least 1.5 beyond grass, stone
      no nearer than dirt, and each stays within its own variance of its base. */
  lemma ColumnNesting(s: Sample, sqrt: real -> real)
    requires ValidSample(s) && IsSqrt(sqrt)
    ensures var c := SampleColumn(s, sqrt);
            var g := Distance(sqrt, c.grass);
            var d := Distance(sqrt, c.dirt);
            var st := Distance(sqrt, c.stone);
            && GrassRadius <= g < GrassRadius + GrassVariance
            && g + DirtOffset <= d < g + DirtOffset + DirtVariance
            && d + StoneOffset <= st < d + StoneOffset + StoneVariance
  {
    var c := SampleColumn(s, sqrt);
    DistanceBounds(sqrt, GrassRadius, GrassVariance, s.grassX, s.grassY, s.sin, s.cos);
    var g := Distance(sqrt, c.grass);
    DistanceBounds(sqrt, g + DirtOffset, DirtVariance, s.dirtX, s.dirtY, s.sin, s.cos);
    var d := Distance(sqrt, c.dirt);
    DistanceBounds(sqrt, d + StoneOffset, StoneVariance, s.stoneX, s.stoneY, s.sin, s.cos);
  }

  /** The outermost extent any layer can reach: 12 + 1.5 + 1.5 + 1 + 0 + 2. */
  const MaxIslandRadius: real := 18.0

  /** Whatever the draws, every stone point stays strictly within 18 of the axis,
      and so do the grass and dirt points inside it. */
  lemma StoneWithinMaxRadius(s: Sample, sqrt: real -> real)
    requires ValidSample(s) && IsSqrt(sqrt)
    ensures Distance(sqrt, SampleColumn(s, sqrt).grass) < MaxIslandRadius
    ensures Distance(sqrt, SampleColumn(s, sqrt).dirt) < MaxIslandRadius
    ensures Distance(sqrt, SampleColumn(s, sqrt).stone) < MaxIslandRadius
  {
    ColumnNesting(s, sqrt);
  }

  // ---------------------------------------------------------------------------
  // Extrusion

  /** The arguments createIsland passes to `extrudeIslandSegment` per layer. */
  datatype Extrusion = Extrusion(depth: real, bevelSegments: nat, bevelSize: real,
                                 bevelThickness: real, color: string, heightAdjust: real)

  const GrassHeight: real := 0.1
  const GrassDepth: real := 1.0
  const DirtHeight: real := 0.5
  const DirtDepth: real := 10.0
  const StoneHeight: real := 10.0
  const StoneDepth: real := 100.0
  /** Centres the first block layer on the origin. */
  const HeightAdjust: real := -0.5
  /** Lifts dirt slightly to keep its top off the grass layer's plane. */
  const ClipGuard: real := 0.01

  function LayerExtrusion(layer: Layer): (e: Extrusion)
    ensures e.bevelThickness > 0.0 && e.depth > 0.0 && e.bevelSegments > 0
  {
    match layer
    case Grass => Extrusion(GrassDepth, 1, GrassHeight, GrassHeight, "#20cc25", HeightAdjust)
    case Dirt => Extrusion(DirtDepth, 4, DirtHeight / 2.0, DirtHeight, "#ccaa44",
                           HeightAdjust - DirtHeight + ClipGuard)
    case Stone => Extrusion(StoneDepth, 3, StoneHeight / 4.0, StoneHeight, "#bbbbbb",
                            HeightAdjust - StoneHeight)
  }

  /** The layers stack downwards, grass over dirt over stone; each lower layer
      is lowered from the first by its own bevel thickness (dirt raised by the
      clip guard). */
  lemma LayersStackDownwards()
    ensures LayerExtrusion(Stone).heightAdjust < LayerExtrusion(Dirt).heightAdjust
              < LayerExtrusion(Grass).heightAdjust
    ensures LayerExtrusion(Dirt).heightAdjust
              == LayerExtrusion(Grass).heightAdjust - LayerExtrusion(Dirt).bevelThickness + ClipGuard
    ensures LayerExtrusion(Stone).heightAdjust
              == LayerExtrusion(Grass).heightAdjust - LayerExtrusion(Stone).bevelThickness
  {
  }
}
