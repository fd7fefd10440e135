/** The multi-pattern generator (kirigami-other.py): a radius sampler with three
    spacing laws, three cut patterns (concentric arcs, spiral arcs, radial lines),
    and the run that adds a central hole and sets the view. */
module KirigamiOther {
  import opened Scene
  import opened Layout

  datatype Pattern = ConcentricArcs | SpiralArcs | RadialLines
  datatype Spacing = Linear | Power | Log

  /** Every option the run reads, as values (radii already halved from diameters). */
  datatype Params = Params(
    innerR: real,
    outerR: real,
    numIntermediate: nat,
    numSegments: int,
    arcFraction: real,
    stagger: bool,
    pattern: Pattern,
    spacing: Spacing,
    radialExponent: nat,
    spiralTwist: real,
    drawBounds: bool,
    centralHole: real)

  /** The option bag. Only the inner radius is ever written after parsing:
      the log spacing law replaces a zero inner radius in place. */
  class Args {
    var innerR: real
    const outerR: real
    const numIntermediate: nat
    const numSegments: int
    const arcFraction: real
    const stagger: bool
    const pattern: Pattern
    const spacing: Spacing
    const radialExponent: nat
    const spiralTwist: real
    const drawBounds: bool
    const centralHole: real

    constructor (p: Params)
      ensures Values() == p
    {
      innerR := p.innerR;
      outerR := p.outerR;
      numIntermediate := p.numIntermediate;
      numSegments := p.numSegments;
      arcFraction := p.arcFraction;
      stagger := p.stagger;
      pattern := p.pattern;
      spacing := p.spacing;
      radialExponent := p.radialExponent;
      spiralTwist := p.spiralTwist;
      drawBounds := p.drawBounds;
      centralHole := p.centralHole;
    }

    /** The options as they stand now. */
    function Values(): Params
      reads this
    {
      Params(innerR, outerR, numIntermediate, numSegments, arcFraction, stagger,
             pattern, spacing, radialExponent, spiralTwist, drawBounds, centralHole)
    }
  }

  // ---------------------------------------------------------------- radius sampler

  /** Sample k + 1 of m + 2 evenly spaced values on [0, 1]. */
  function UnitSample(m: nat, k: int): real
  {
    Sample(0.0, 1.0, m + 2, k + 1)
  }

  /** Power radius k: the unit sample raised to the exponent and scaled onto [inner, outer]. */
  function PowerRadius(inner: real, outer: real, m: nat, e: nat, k: int): real
  {
    Scaled(inner, outer, Pow(UnitSample(m, k), e))
  }

  /** A value of [0, 1] scaled onto [inner, outer]. */
  function Scaled(inner: real, outer: real, y: real): real
  {
    inner + (outer - inner) * y
  }

  /** Power spacing: evenly spaced values on [0, 1] raised to the exponent, without
      the two ends, scaled onto [inner, outer]. */
  function PowerRadii(inner: real, outer: real, m: nat, e: nat): (r: seq<real>)
    ensures |r| == m
  {
    seq(m, k => PowerRadius(inner, outer, m, e, k))
  }

  /** Log radius k: exp of sample k + 1 of m + 2 evenly spaced values from ln(inner) to ln(outer). */
  function LogRadius(inner: real, outer: real, m: nat, ln: real -> real, exp: real -> real, k: int): real
  {
    exp(Sample(ln(inner), ln(outer), m + 2, k + 1))
  }

  /** Log spacing: evenly spaced values between ln(inner) and ln(outer), without the
      two ends, mapped back through exp. The two library functions are parameters. */
  function LogRadii(inner: real, outer: real, m: nat, ln: real -> real, exp: real -> real): (r: seq<real>)
    ensures |r| == m
  {
    seq(m, k => LogRadius(inner, outer, m, ln, exp, k))
  }

  /** The options after the log law's guard: a zero inner radius becomes 0.01
      under log spacing; nothing else changes. */
  function LogSubstituted(p: Params): (q: Params)
    ensures q.(innerR := p.innerR) == p
    ensures q.spacing == Log ==> q.innerR != 0.0
    ensures q.innerR != p.innerR <==> p.spacing == Log && p.innerR == 0.0
  {
    if p.spacing == Log && p.innerR == 0.0 then p.(innerR := 0.01) else p
  }

  /** The radii the chosen spacing law produces from the options (read after the guard). */
  function SampleRadii(p: Params, ln: real -> real, exp: real -> real): (r: seq<real>)
    ensures |r| == p.numIntermediate
  {
    match p.spacing
    case Linear => LinearRadii(p.innerR, p.outerR, p.numIntermediate)
    case Power => PowerRadii(p.innerR, p.outerR, p.numIntermediate, p.radialExponent)
    case Log => LogRadii(p.innerR, p.outerR, p.numIntermediate, ln, exp)
  }

  /** Power spacing with exponent 1 gives exactly the linear radii. */
  lemma PowerOneIsLinear(inner: real, outer: real, m: nat)
    ensures PowerRadii(inner, outer, m, 1) == LinearRadii(inner, outer, m)
  {
    var p := PowerRadii(inner, outer, m, 1);
    var l := LinearRadii(inner, outer, m);
    forall k | 0 <= k < m
      ensures p[k] == l[k]
    {
      PowerOneAt(inner, outer, m, k);
    }
  }

  lemma PowerOneAt(inner: real, outer: real, m: nat, k: nat)
    ensures PowerRadius(inner, outer, m, 1, k) == Sample(inner, outer, m + 2, k + 1)
  {
    var t := (k + 1) as real;
    var n1 := (m + 1) as real;
    var x := UnitSample(m, k);
    assert x == t * (1.0 / n1);
    assert Pow(x, 1) == x;
    assert (outer - inner) * (t * (1.0 / n1)) == t * ((outer - inner) / n1);
  }

  /** For a positive exponent and inner < outer the power radii strictly increase
      and lie strictly between the bounds. */
  lemma PowerRadiiIncreasing(inner: real, outer: real, m: nat, e: nat)
    requires inner < outer && 1 <= e
    ensures StrictlyIncreasing(PowerRadii(inner, outer, m, e))
    ensures StrictlyInside(PowerRadii(inner, outer, m, e), inner, outer)
  {
    var r := PowerRadii(inner, outer, m, e);
    forall i, j | 0 <= i < j < m
      ensures r[i] < r[j]
    {
      PowerRadiusPair(inner, outer, m, e, i, j);
    }
    forall k | 0 <= k < m
      ensures inner < r[k] < outer
    {
      PowerRadiusInside(inner, outer, m, e, k);
    }
  }

  lemma PowerRadiusPair(inner: real, outer: real, m: nat, e: nat, i: nat, j: nat)
    requires inner < outer && 1 <= e && i < j < m
    ensures PowerRadius(inner, outer, m, e, i) < PowerRadius(inner, outer, m, e, j)
  {
    UnitSamples(m, i, j);
    ScaledPowLess(inner, outer, UnitSample(m, i), UnitSample(m, j), e);
  }

  lemma PowerRadiusInside(inner: real, outer: real, m: nat, e: nat, k: nat)
    requires inner < outer && 1 <= e && k < m
    ensures inner < PowerRadius(inner, outer, m, e, k) < outer
  {
    UnitSamples(m, k, k);
    ScaledPowLess(inner, outer, 0.0, UnitSample(m, k), e);
    ScaledPowLess(inner, outer, UnitSample(m, k), 1.0, e);
    PowFixesEnds(e);
  }

  /** The interior unit samples lie strictly between 0 and 1, in order. */
  lemma UnitSamples(m: nat, i: nat, j: nat)
    requires i <= j < m
    ensures 0.0 < UnitSample(m, i) <= UnitSample(m, j) < 1.0
    ensures i < j ==> UnitSample(m, i) < UnitSample(m, j)
  {
    SampleInside(0.0, 1.0, m + 2, i + 1);
    SampleInside(0.0, 1.0, m + 2, j + 1);
    if i < j {
      SampleIncreasing(0.0, 1.0, m + 2, i + 1, j + 1);
    }
  }

  /** Raising to a positive power and rescaling onto [inner, outer] keeps the order of [0, 1]. */
  lemma ScaledPowLess(inner: real, outer: real, x: real, y: real, e: nat)
    requires inner < outer && 0.0 <= x < y <= 1.0 && 1 <= e
    ensures Scaled(inner, outer, Pow(x, e)) < Scaled(inner, outer, Pow(y, e))
  {
    PowMonotone(x, y, e);
    ScaleMonotone(inner, outer, Pow(x, e), Pow(y, e));
  }

  lemma ScaleMonotone(inner: real, outer: real, a: real, b: real)
    requires inner < outer && a < b
    ensures Scaled(inner, outer, a) < Scaled(inner, outer, b)
    ensures Scaled(inner, outer, 0.0) == inner && Scaled(inner, outer, 1.0) == outer
  {
  }

  /** With exp strictly increasing and ln(inner) < ln(outer) the log radii strictly
      increase; if exp also undoes ln at both bounds they lie strictly between them. */
  lemma LogRadiiIncreasing(inner: real, outer: real, m: nat, ln: real -> real, exp: real -> real)
    requires forall x, y :: x < y ==> exp(x) < exp(y)
    requires ln(inner) < ln(outer)
    ensures StrictlyIncreasing(LogRadii(inner, outer, m, ln, exp))
    ensures exp(ln(inner)) == inner && exp(ln(outer)) == outer ==>
              StrictlyInside(LogRadii(inner, outer, m, ln, exp), inner, outer)
  {
    var r := LogRadii(inner, outer, m, ln, exp);
    forall i, j | 0 <= i < j < m
      ensures r[i] < r[j]
    {
      SampleIncreasing(ln(inner), ln(outer), m + 2, i + 1, j + 1);
    }
    if exp(ln(inner)) == inner && exp(ln(outer)) == outer {
      forall k | 0 <= k < m
        ensures inner < r[k] < outer
      {
        SampleInside(ln(inner), ln(outer), m + 2, k + 1);
      }
    }
  }

  /** exp applied to a sum; named so that the law below has a trigger of its own. */
  function ExpOfSum(exp: real -> real, x: real, y: real): real
  {
    exp(x + y)
  }

  /** When exp turns sums into products, successive log radii have one common ratio:
      exp of the step (ln(outer) - ln(inner)) / (m + 1). */
  lemma LogRadiiGeometric(inner: real, outer: real, m: nat, ln: real -> real, exp: real -> real)
    requires forall x, y {:trigger ExpOfSum(exp, x, y)} :: ExpOfSum(exp, x, y) == exp(x) * exp(y)
    ensures var r := LogRadii(inner, outer, m, ln, exp);
            forall k :: 0 < k < m ==> r[k] == r[k - 1] * exp((ln(outer) - ln(inner)) / ((m + 1) as real))
  {
    var r := LogRadii(inner, outer, m, ln, exp);
    forall k | 0 < k < m
      ensures r[k] == r[k - 1] * exp((ln(outer) - ln(inner)) / ((m + 1) as real))
    {
      LogRatioAt(inner, outer, m, ln, exp, k);
    }
  }

  lemma LogRatioAt(inner: real, outer: real, m: nat, ln: real -> real, exp: real -> real, k: int)
    requires 0 < k < m
    requires ExpOfSum(exp, Sample(ln(inner), ln(outer), m + 2, k), (ln(outer) - ln(inner)) / ((m + 1) as real)) ==
             exp(Sample(ln(inner), ln(outer), m + 2, k)) * exp((ln(outer) - ln(inner)) / ((m + 1) as real))
    ensures LogRadii(inner, outer, m, ln, exp)[k] ==
            LogRadii(inner, outer, m, ln, exp)[k - 1] * exp((ln(outer) - ln(inner)) / ((m + 1) as real))
  {
    StepBetweenSamples(ln(inner), ln(outer), m + 2, k + 1);
    assert LogRadii(inner, outer, m, ln, exp)[k] == LogRadius(inner, outer, m, ln, exp, k);
    assert LogRadii(inner, outer, m, ln, exp)[k - 1] == LogRadius(inner, outer, m, ln, exp, k - 1);
  }

  /** get_radii: the sampled radii, after replacing a zero inner radius by 0.01 in
      place when the spacing is logarithmic. */
  method GetRadii(args: Args, ln: real -> real, exp: real -> real) returns (radii: seq<real>)
    modifies args
    ensures args.Values() == LogSubstituted(old(args.Values()))
    ensures radii == SampleRadii(args.Values(), ln, exp)
  {
    if args.spacing == Linear {
      radii := LinearRadii(args.innerR, args.outerR, args.numIntermediate);
    } else if args.spacing == Power {
      radii := PowerRadii(args.innerR, args.outerR, args.numIntermediate, args.radialExponent);
    } else {
      if args.innerR == 0.0 {
        args.innerR := 0.01;
      }
      radii := LogRadii(args.innerR, args.outerR, args.numIntermediate, ln, exp);
    }
  }

  // ---------------------------------------------------------------- cut patterns

  /** The inner and outer boundary circles, when they are asked for. */
  function BoundCircles(p: Params): (s: seq<Primitive>)
    ensures |s| == (if p.drawBounds then 2 else 0)
    ensures forall t :: 0 <= t < |s| ==> s[t].Circle?
  {
    if p.drawBounds then [Circle(p.innerR), Circle(p.outerR)] else []
  }

  /** What draw_concentric_arcs adds: the boundary circles when asked for, then the
      rings of arcs, each ring turned by half a sector on odd rings when staggered. */
  function ConcentricShapes(q: Params, radii: seq<real>): seq<Primitive>
    requires q.numSegments != 0 || |radii| == 0
  {
    BoundCircles(q) + ArcRings(radii, |radii|, q.numSegments, q.arcFraction, Staggered(q.stagger))
  }

  /** draw_concentric_arcs: n arcs per ring, odd rings turned by half a sector when
      staggered. Dividing 360 by zero segments fails as soon as there is a ring. */
  method DrawConcentricArcs(ax: Axes, args: Args, radii: seq<real>) returns (failed: bool)
    modifies ax
    ensures failed <==> args.numSegments == 0 && |radii| > 0
    ensures failed ==> ax.shapes == old(ax.shapes) + BoundCircles(args.Values())
    ensures !failed ==> ax.shapes == old(ax.shapes) + ConcentricShapes(args.Values(), radii)
    ensures ax.xlim == old(ax.xlim) && ax.ylim == old(ax.ylim)
  {
    if args.drawBounds {
      ax.Add(Circle(args.innerR));
      ax.Add(Circle(args.outerR));
    }
    var base := ax.shapes;
    var n, frac, law := args.numSegments, args.arcFraction, Staggered(args.stagger);
    var i := 0;
    while i < |radii|
      invariant i <= |radii|
      invariant n != 0 || i == 0
      invariant ax.shapes == base + ArcRings(radii, i, n, frac, law)
      invariant ax.xlim == old(ax.xlim) && ax.ylim == old(ax.ylim)
    {
      if n == 0 {
        return true;
      }
      AddStaggeredRing(ax, args, i, radii[i]);
      ArcRingsUnfold(radii, i + 1, n, frac, law);
      i := i + 1;
    }
    return false;
  }

  /** The body of the concentric loop for ring i at radius r: the sector and arc
      angles, the ring's offset, then its n arcs. */
  method AddStaggeredRing(ax: Axes, args: Args, i: nat, r: real)
    requires args.numSegments != 0
    modifies ax
    ensures var seg := SegmentAngle(args.numSegments);
            ax.shapes == old(ax.shapes) +
              RingArcs(r, RingOffset(Staggered(args.stagger), i, seg), seg, args.arcFraction, Segments(args.numSegments))
    ensures ax.xlim == old(ax.xlim) && ax.ylim == old(ax.ylim)
  {
    var seg := SegmentAngle(args.numSegments);
    var offset := if !args.stagger then 0.0 else ((i % 2) as real) * (seg / 2.0);
    StaggerOffset(args.stagger, i, seg);
    AddRing(ax, r, offset, seg, args.arcFraction, args.numSegments);
  }

  /** What draw_spiral_arcs adds: the rings of arcs, ring i turned by i times the twist. */
  function SpiralShapes(q: Params, radii: seq<real>): seq<Primitive>
    requires q.numSegments != 0 || |radii| == 0
  {
    ArcRings(radii, |radii|, q.numSegments, q.arcFraction, Twisted(q.spiralTwist))
  }

  /** draw_spiral_arcs: n arcs per ring, ring i turned by i times the twist angle
      (no boundary circles). Dividing 360 by zero segments fails as soon as there is a ring. */
  method DrawSpiralArcs(ax: Axes, args: Args, radii: seq<real>) returns (failed: bool)
    modifies ax
    ensures failed <==> args.numSegments == 0 && |radii| > 0
    ensures failed ==> ax.shapes == old(ax.shapes)
    ensures !failed ==> ax.shapes == old(ax.shapes) + SpiralShapes(args.Values(), radii)
    ensures ax.xlim == old(ax.xlim) && ax.ylim == old(ax.ylim)
  {
    var cumulativeOffset := args.spiralTwist;
    var base := ax.shapes;
    var n, frac, law := args.numSegments, args.arcFraction, Twisted(cumulativeOffset);
    var i := 0;
    while i < |radii|
      invariant i <= |radii|
      invariant n != 0 || i == 0
      invariant ax.shapes == base + ArcRings(radii, i, n, frac, law)
      invariant ax.xlim == old(ax.xlim) && ax.ylim == old(ax.ylim)
    {
      if n == 0 {
        return true;
      }
      AddTwistedRing(ax, args, cumulativeOffset, i, radii[i]);
      ArcRingsUnfold(radii, i + 1, n, frac, law);
      i := i + 1;
    }
    return false;
  }

  /** The body of the spiral loop for ring i at radius r: the sector and arc angles,
      the ring's offset of i twists, then its n arcs. */
  method AddTwistedRing(ax: Axes, args: Args, twist: real, i: nat, r: real)
    requires args.numSegments != 0
    modifies ax
    ensures var seg := SegmentAngle(args.numSegments);
            ax.shapes == old(ax.shapes) +
              RingArcs(r, RingOffset(Twisted(twist), i, seg), seg, args.arcFraction, Segments(args.numSegments))
    ensures ax.xlim == old(ax.xlim) && ax.ylim == old(ax.ylim)
  {
    var seg := SegmentAngle(args.numSegments);
    var offset := (i as real) * twist;
    assert offset == RingOffset(Twisted(twist), i, seg);
    AddRing(ax, r, offset, seg, args.arcFraction, args.numSegments);
  }

  /** The angle of ray j of n, in degrees. */
  function RayAngle(n: int, j: nat): real
    requires n != 0
  {
    (j as real) * SegmentAngle(n)
  }

  /** Piece k of a ray at the given angle: from radius steps[k] outwards to
      steps[k + 1] shortened by the fraction `frac`. */
  function RayPiece(angle: real, steps: seq<real>, frac: real, k: nat): (p: Primitive)
    requires k + 1 < |steps|
    ensures p.Line? && p.angle == angle
  {
    Line(angle, steps[k], steps[k + 1] * frac)
  }

  /** The first k pieces of a ray, in the order the inner loop adds them. */
  function RayPieces(angle: real, steps: seq<real>, frac: real, k: nat): (s: seq<Primitive>)
    requires k < |steps|
    ensures |s| == k
  {
    if k == 0 then [] else RayPieces(angle, steps, frac, k - 1) + [RayPiece(angle, steps, frac, k - 1)]
  }

  /** The first j rays, ray after ray, each cut into `pieces` pieces along the radii `steps`. */
  function Rays(steps: seq<real>, pieces: nat, n: int, frac: real, j: nat): (s: seq<Primitive>)
    requires pieces < |steps| && (n != 0 || j == 0)
  {
    if j == 0 then []
    else Rays(steps, pieces, n, frac, j - 1) + RayPieces(RayAngle(n, j - 1), steps, frac, pieces)
  }

  /** j rays of `pieces` pieces each: j * pieces pieces. */
  lemma {:induction false} RaysLength(steps: seq<real>, pieces: nat, n: int, frac: real, j: nat)
    requires pieces < |steps| && (n != 0 || j == 0)
    ensures |Rays(steps, pieces, n, frac, j)| == j * pieces
  {
    if j > 0 {
      RaysLength(steps, pieces, n, frac, j - 1);
      MulSucc(j, pieces);
    }
  }

  lemma {:induction false} RayPiecesAt(angle: real, steps: seq<real>, frac: real, k: nat, t: nat)
    requires t < k < |steps|
    ensures RayPieces(angle, steps, frac, k)[t] == RayPiece(angle, steps, frac, t)
  {
    if t < k - 1 {
      RayPiecesAt(angle, steps, frac, k - 1, t);
    }
  }

  /** Piece k of ray j sits at position j * pieces + k. */
  lemma {:induction false} RaysAt(steps: seq<real>, pieces: nat, n: int, frac: real, rays: nat, j: nat, k: nat)
    requires pieces < |steps| && n != 0 && j < rays && k < pieces
    ensures j * pieces + k < |Rays(steps, pieces, n, frac, rays)|
    ensures Rays(steps, pieces, n, frac, rays)[j * pieces + k] == RayPiece(RayAngle(n, j), steps, frac, k)
  {
    var before := Rays(steps, pieces, n, frac, rays - 1);
    var last := RayPieces(RayAngle(n, rays - 1), steps, frac, pieces);
    RaysLength(steps, pieces, n, frac, rays - 1);
    if j == rays - 1 {
      RayPiecesAt(RayAngle(n, j), steps, frac, pieces, k);
      AppendAt(before, last, j * pieces, k);
    } else {
      RaysAt(steps, pieces, n, frac, rays - 1, j, k);
      assert Rays(steps, pieces, n, frac, rays)[..|before|] == before;
    }
  }

  /** Every shape the rays produce is a line piece. */
  lemma {:induction false} RaysAllLines(steps: seq<real>, pieces: nat, n: int, frac: real, j: nat)
    requires pieces < |steps| && (n != 0 || j == 0)
    ensures forall t :: 0 <= t < |Rays(steps, pieces, n, frac, j)| ==> Rays(steps, pieces, n, frac, j)[t].Line?
  {
    if j > 0 {
      RaysAllLines(steps, pieces, n, frac, j - 1);
      var last := RayPieces(RayAngle(n, j - 1), steps, frac, pieces);
      forall t | 0 <= t < |last|
        ensures last[t].Line?
      {
        RayPiecesAt(RayAngle(n, j - 1), steps, frac, pieces, t);
      }
    }
  }

  /** What draw_radial_lines adds: n rays (none when n is not positive) of m + 1 pieces. */
  function RadialShapes(q: Params): seq<Primitive>
  {
    var m := q.numIntermediate;
    Rays(Linspace(q.innerR, q.outerR, m + 2), m + 1, q.numSegments, q.arcFraction, Segments(q.numSegments))
  }

  /** draw_radial_lines: n rays (none for n <= 0, so no division happens), each cut
      into m + 1 pieces along the m + 2 evenly spaced radii from inner to outer. */
  method DrawRadialLines(ax: Axes, args: Args)
    modifies ax
    ensures ax.shapes == old(ax.shapes) + RadialShapes(args.Values())
    ensures ax.xlim == old(ax.xlim) && ax.ylim == old(ax.ylim)
  {
    var numRadii := args.numSegments;
    var inner, outer, m, frac := args.innerR, args.outerR, args.numIntermediate, args.arcFraction;
    var j := 0;
    while j < numRadii
      invariant j <= Segments(numRadii)
      invariant ax.shapes == old(ax.shapes) + Rays(Linspace(inner, outer, m + 2), m + 1, numRadii, frac, j)
      invariant ax.xlim == old(ax.xlim) && ax.ylim == old(ax.ylim)
    {
      var angle := (j as real) * (360.0 / (numRadii as real));
      assert angle == RayAngle(numRadii, j);
      AddRay(ax, inner, outer, m, angle, frac);
      j := j + 1;
    }
  }

  /** The body of the radial loop: the m + 2 evenly spaced radii, then the m + 1
      pieces of one ray at the given angle. */
  method AddRay(ax: Axes, inner: real, outer: real, m: nat, angle: real, frac: real)
    modifies ax
    ensures ax.shapes == old(ax.shapes) + RayPieces(angle, Linspace(inner, outer, m + 2), frac, m + 1)
    ensures ax.xlim == old(ax.xlim) && ax.ylim == old(ax.ylim)
  {
    var steps := Linspace(inner, outer, m + 2);
    var k := 0;
    while k < |steps| - 1
      invariant k <= m + 1
      invariant ax.shapes == old(ax.shapes) + RayPieces(angle, steps, frac, k)
      invariant ax.xlim == old(ax.xlim) && ax.ylim == old(ax.ylim)
    {
      var r1 := steps[k];
      var r2 := steps[k + 1] * frac;
      assert Line(angle, r1, r2) == RayPiece(angle, steps, frac, k);
      ax.Add(Line(angle, r1, r2));
      k := k + 1;
    }
  }

  // ---------------------------------------------------------------- the run

  /** The central hole's circle (radius half its diameter), when its diameter is positive. */
  function HoleCircles(p: Params): (s: seq<Primitive>)
    ensures |s| == (if p.centralHole > 0.0 then 1 else 0)
    ensures forall t :: 0 <= t < |s| ==> s[t] == Circle(p.centralHole / 2.0)
  {
    if p.centralHole > 0.0 then [Circle(p.centralHole / 2.0)] else []
  }

  /** The shapes the chosen pattern adds for the given radii, or the failed division. */
  function PatternShapes(p: Params, radii: seq<real>): Result<seq<Primitive>>
  {
    match p.pattern
    case ConcentricArcs =>
      if p.numSegments == 0 && |radii| > 0 then ZeroDivisionError
      else Ok(ConcentricShapes(p, radii))
    case SpiralArcs =>
      if p.numSegments == 0 && |radii| > 0 then ZeroDivisionError
      else Ok(SpiralShapes(p, radii))
    case RadialLines =>
      Ok(RadialShapes(p))
  }

  /** What one run produces from its options: the log guard, the radii, the pattern,
      the central hole, and the symmetric view. */
  function Render(p: Params, ln: real -> real, exp: real -> real): Result<Drawing>
  {
    var q := LogSubstituted(p);
    Finish(q, PatternShapes(q, SampleRadii(q, ln, exp)))
  }

  /** The end of a run: the pattern's shapes, then the central hole, in the square
      view of half-width ViewMargin; a failed division stops the run. */
  function Finish(q: Params, pattern: Result<seq<Primitive>>): Result<Drawing>
  {
    match pattern
    case ZeroDivisionError => ZeroDivisionError
    case Ok(shapes) => Ok(Drawing(shapes + HoleCircles(q), (-ViewMargin(q.outerR), ViewMargin(q.outerR)), (-ViewMargin(q.outerR), ViewMargin(q.outerR))))
  }

  /** The pattern dispatch of main: the chosen pattern's shapes after those already on
      the axis, or the failed division (the run stops there, so the shapes added
      before it are of no consequence). */
  method DrawPattern(ax: Axes, args: Args, radii: seq<real>) returns (failed: bool)
    modifies ax
    ensures failed <==> PatternShapes(args.Values(), radii).ZeroDivisionError?
    ensures !failed ==> ax.shapes == old(ax.shapes) + PatternShapes(args.Values(), radii).value
    ensures ax.xlim == old(ax.xlim) && ax.ylim == old(ax.ylim)
  {
    failed := false;
    if args.pattern == ConcentricArcs {
      failed := DrawConcentricArcs(ax, args, radii);
    } else if args.pattern == SpiralArcs {
      failed := DrawSpiralArcs(ax, args, radii);
    } else {
      DrawRadialLines(ax, args);
    }
  }

  /** The end of main: the central hole's circle when its diameter is positive, then
      the square view limits. */
  method AddHoleAndView(ax: Axes, args: Args)
    modifies ax
    ensures ax.shapes == old(ax.shapes) + HoleCircles(args.Values())
    ensures ax.xlim == (-ViewMargin(args.outerR), ViewMargin(args.outerR))
    ensures ax.ylim == (-ViewMargin(args.outerR), ViewMargin(args.outerR))
  {
    if args.centralHole > 0.0 {
      ax.Add(Circle(args.centralHole / 2.0));
    }
    var margin := args.outerR * 1.1;
    ax.SetXLim(-margin, margin);
    ax.SetYLim(-margin, margin);
  }

  /** main, from the parsed options on: the radii, the pattern, the hole and the view
      limits, on a fresh axis. The options keep the log guard's write. */
  method Run(args: Args, ln: real -> real, exp: real -> real) returns (res: Result<Drawing>)
    modifies args
    ensures args.Values() == LogSubstituted(old(args.Values()))
    ensures res == Render(old(args.Values()), ln, exp)
  {
    var radii := GetRadii(args, ln, exp);
    res := DrawAll(args, radii);
  }

  /** main after the radii: a fresh axis, the chosen pattern, the hole and the view. */
  method DrawAll(args: Args, radii: seq<real>) returns (res: Result<Drawing>)
    ensures res == Finish(args.Values(), PatternShapes(args.Values(), radii))
  {
    var ax := new Axes();
    var failed := DrawPattern(ax, args, radii);
    if failed {
      return ZeroDivisionError;
    }
    ghost var shapes := PatternShapes(args.Values(), radii).value;
    assert ax.shapes == shapes by {
      assert ax.shapes == [] + shapes;
    }
    AddHoleAndView(ax, args);
    res := Ok(Drawing(ax.shapes, ax.xlim, ax.ylim));
  }

  // ---------------------------------------------------------------- properties of a run

  /** A run fails exactly when there are no segments, at least one ring, and an arc
      pattern: the radial pattern never divides when it draws no rays. */
  lemma RenderFails(p: Params, ln: real -> real, exp: real -> real)
    ensures Render(p, ln, exp).ZeroDivisionError? <==>
              p.numSegments == 0 && p.numIntermediate > 0 && p.pattern != RadialLines
  {
    var q := LogSubstituted(p);
    assert |SampleRadii(q, ln, exp)| == p.numIntermediate;
  }

  /** How many shapes a finished run holds: the two boundary circles (concentric arcs
      only, when asked for), m rings of n arcs or n rays of m + 1 pieces, and the hole. */
  lemma RenderShapeCount(p: Params, ln: real -> real, exp: real -> real)
    ensures Render(p, ln, exp).Ok? ==>
              |Render(p, ln, exp).value.shapes| ==
                (if p.pattern == ConcentricArcs && p.drawBounds then 2 else 0) +
                (if p.pattern == RadialLines then Segments(p.numSegments) * (p.numIntermediate + 1)
                 else p.numIntermediate * Segments(p.numSegments)) +
                (if p.centralHole > 0.0 then 1 else 0)
  {
    var q := LogSubstituted(p);
    var radii := SampleRadii(q, ln, exp);
    var n := p.numSegments;
    if Render(p, ln, exp).Ok? {
      if p.pattern == RadialLines {
        RaysLength(Linspace(q.innerR, q.outerR, q.numIntermediate + 2), q.numIntermediate + 1, n, q.arcFraction, Segments(n));
      } else if p.pattern == ConcentricArcs {
        ArcRingsLength(radii, |radii|, n, q.arcFraction, Staggered(q.stagger));
      } else {
        ArcRingsLength(radii, |radii|, n, q.arcFraction, Twisted(q.spiralTwist));
      }
    }
  }

  /** A finished run shows the same square window on both axes, centred on the origin,
      reaching 10 percent past the outer radius, so a positive outer circle lies inside it. */
  lemma RenderView(p: Params, ln: real -> real, exp: real -> real)
    ensures Render(p, ln, exp).Ok? ==>
              var d := Render(p, ln, exp).value;
              d.xlim == d.ylim && d.xlim == (-(p.outerR * 1.1), p.outerR * 1.1) &&
              (0.0 < p.outerR ==> d.xlim.0 < -p.outerR && p.outerR < d.xlim.1)
  {
  }

  /** A finished run holds the pattern's shapes, in order, then the hole. */
  lemma RenderShapes(p: Params, ln: real -> real, exp: real -> real)
    ensures var q := LogSubstituted(p);
            var pattern := PatternShapes(q, SampleRadii(q, ln, exp));
            Render(p, ln, exp).Ok? == pattern.Ok? &&
            (pattern.Ok? ==> Render(p, ln, exp).value.shapes == pattern.value + HoleCircles(q) &&
                             forall t :: 0 <= t < |pattern.value| ==> Render(p, ln, exp).value.shapes[t] == pattern.value[t])
  {
  }

  /** Only the concentric pattern draws full circles, and only its first two shapes,
      the boundary circles, when they are asked for; every other shape of a pattern is
      an arc or a line piece. */
  lemma PatternCircles(p: Params, radii: seq<real>)
    ensures var pattern := PatternShapes(p, radii);
            pattern.Ok? ==>
              forall t :: 0 <= t < |pattern.value| ==>
                (pattern.value[t].Circle? <==> p.pattern == ConcentricArcs && p.drawBounds && t < 2)
  {
    var pattern := PatternShapes(p, radii);
    if pattern.Ok? {
      var n, frac := p.numSegments, p.arcFraction;
      match p.pattern
      case ConcentricArcs =>
        var bounds: seq<Primitive> := BoundCircles(p);
        var rings: seq<Primitive> := ArcRings(radii, |radii|, n, frac, Staggered(p.stagger));
        var shapes: seq<Primitive> := bounds + rings;
        ArcRingsAllArcs(radii, |radii|, n, frac, Staggered(p.stagger));
        forall t | |bounds| <= t < |shapes|
          ensures shapes[t].Arc?
        {
          assert shapes[t] == rings[t - |bounds|];
        }
      case SpiralArcs =>
        ArcRingsAllArcs(radii, |radii|, n, frac, Twisted(p.spiralTwist));
      case RadialLines =>
        var m := p.numIntermediate;
        RaysAllLines(Linspace(p.innerR, p.outerR, m + 2), m + 1, n, frac, Segments(n));
    }
  }

  /** Under log spacing a zero inner radius is replaced before anything reads it: the
      inner boundary circle, and the first piece of the first ray, start at 0.01. */
  lemma LogGuardSeen(p: Params, ln: real -> real, exp: real -> real)
    requires p.spacing == Log && p.innerR == 0.0
    ensures var d := Render(p, ln, exp);
            d.Ok? && p.pattern == ConcentricArcs && p.drawBounds ==> 0 < |d.value.shapes| && d.value.shapes[0] == Circle(0.01)
    ensures var d := Render(p, ln, exp);
            d.Ok? && p.pattern == RadialLines && 0 < p.numSegments ==>
              0 < |d.value.shapes| && d.value.shapes[0].Line? && d.value.shapes[0].r1 == 0.01
  {
    var q := LogSubstituted(p);
    assert q.innerR == 0.01;
    var d := Render(p, ln, exp);
    if d.Ok? && p.pattern == RadialLines && 0 < p.numSegments {
      RayEnds(q, 0);
      assert RayStart(q.numIntermediate, 0) == 0;
      var shapes := RadialShapes(q);
      assert d.value.shapes == shapes + HoleCircles(q);
      assert d.value.shapes[0] == shapes[0];
    }
  }

  /** Under concentric arcs, arc j of ring i comes after the boundary circles and the
      i rings before it; it has ring i's radius, starts j sectors round (plus half a
      sector on odd rings when staggered) and spans the arc fraction of a sector. */
  lemma ConcentricArcAt(q: Params, radii: seq<real>, i: nat, j: nat)
    requires 0 < q.numSegments && i < |radii| && j < q.numSegments
    ensures var shapes := ConcentricShapes(q, radii);
            var t := (if q.drawBounds then 2 else 0) + (i * q.numSegments + j);
            t < |shapes| && shapes[t] == StaggeredArc(radii[i], q.stagger, i, SegmentAngle(q.numSegments), q.arcFraction, j)
  {
    var n := q.numSegments;
    StaggeredArcAt(radii, n, q.arcFraction, q.stagger, i, j);
    AppendAt(BoundCircles(q), ArcRings(radii, |radii|, n, q.arcFraction, Staggered(q.stagger)),
             if q.drawBounds then 2 else 0, i * n + j);
  }

  /** Under spiral arcs, arc j of ring i comes after the i rings before it; it starts
      i twists plus j sectors round (never reduced modulo 360) and spans the arc
      fraction of a sector. */
  lemma SpiralArcAt(q: Params, radii: seq<real>, i: nat, j: nat)
    requires 0 < q.numSegments && i < |radii| && j < q.numSegments
    ensures var shapes := SpiralShapes(q, radii);
            i * q.numSegments + j < |shapes| &&
            shapes[i * q.numSegments + j] == TwistedArc(radii[i], q.spiralTwist, i, SegmentAngle(q.numSegments), q.arcFraction, j)
  {
    var n := q.numSegments;
    ArcRingsAt(radii, |radii|, n, q.arcFraction, Twisted(q.spiralTwist), i, j);
    TwistedRingArc(radii[i], q.spiralTwist, i, SegmentAngle(n), q.arcFraction, j);
  }

  /** Arc j of twisted ring i at radius r: it starts i twists plus j sectors round and
      spans the arc fraction of a sector. */
  function TwistedArc(r: real, twist: real, i: nat, seg: real, frac: real, j: nat): Primitive
  {
    var start := (i as real) * twist + (j as real) * seg;
    Arc(r, start, start + seg * frac)
  }

  lemma TwistedRingArc(r: real, twist: real, i: nat, seg: real, frac: real, j: nat)
    ensures RingArc(r, RingOffset(Twisted(twist), i, seg), seg, frac, j) == TwistedArc(r, twist, i, seg, frac, j)
  {
    RingArcIs(r, RingOffset(Twisted(twist), i, seg), seg, frac, j);
  }

  /** Under radial lines, piece k of ray j sits at position j * (m + 1) + k; it lies on
      the ray's angle, j sectors round, and runs from step k of the evenly spaced radii
      to step k + 1 shortened by the arc fraction. */
  lemma RadialPieceAt(q: Params, j: nat, k: nat)
    requires 0 < q.numSegments && j < q.numSegments && k <= q.numIntermediate
    ensures var shapes := RadialShapes(q);
            var m := q.numIntermediate;
            var steps := Linspace(q.innerR, q.outerR, m + 2);
            j * (m + 1) + k < |shapes| &&
            shapes[j * (m + 1) + k] == RayPiece(RayAngle(q.numSegments, j), steps, q.arcFraction, k)
  {
    var m := q.numIntermediate;
    RaysAt(Linspace(q.innerR, q.outerR, m + 2), m + 1, q.numSegments, q.arcFraction, Segments(q.numSegments), j, k);
  }

  /** Piece k of ray j, in closed form, for any radii steps. */
  lemma RaysLineAt(steps: seq<real>, pieces: nat, n: int, frac: real, rays: nat, j: nat, k: nat)
    requires pieces < |steps| && n != 0 && j < rays && k < pieces
    ensures j * pieces + k < |Rays(steps, pieces, n, frac, rays)| &&
            Rays(steps, pieces, n, frac, rays)[j * pieces + k] == Line((j as real) * SegmentAngle(n), steps[k], steps[k + 1] * frac)
  {
    RaysAt(steps, pieces, n, frac, rays, j, k);
  }

  /** Where ray j begins among the pieces when each ray has m + 1 of them. */
  function RayStart(m: nat, j: nat): nat
  {
    j * (m + 1)
  }

  /** Along every ray the first piece starts at the inner radius and the last one ends
      at the outer radius times the arc fraction. */
  lemma RayEnds(q: Params, j: nat)
    requires 0 < q.numSegments && j < q.numSegments
    ensures var shapes := RadialShapes(q);
            var m := q.numIntermediate;
            var t := RayStart(m, j);
            t + m < |shapes| &&
            shapes[t].Line? && shapes[t].r1 == q.innerR &&
            shapes[t + m].Line? && shapes[t + m].r2 == q.outerR * q.arcFraction
  {
    var m := q.numIntermediate;
    var steps := Linspace(q.innerR, q.outerR, m + 2);
    LinspaceEnds(q.innerR, q.outerR, m + 2);
    assert steps[m + 1] == q.outerR;
    RaysLineAt(steps, m + 1, q.numSegments, q.arcFraction, Segments(q.numSegments), j, 0);
    RaysLineAt(steps, m + 1, q.numSegments, q.arcFraction, Segments(q.numSegments), j, m);
    assert j * (m + 1) + 0 == j * (m + 1);
  }

  /** Along a ray each piece ends at the arc fraction of the radius where the next one
      starts: with fraction 1 consecutive pieces share their endpoint, and while that
      radius is positive a piece ends no further out than the next one starts exactly
      when the fraction is at most 1. */
  lemma RayPiecesMeet(q: Params, j: nat, k: nat)
    requires 0 < q.numSegments && j < q.numSegments && k < q.numIntermediate
    ensures var shapes := RadialShapes(q);
            var t := j * (q.numIntermediate + 1) + k;
            t + 1 < |shapes| && PiecesMeet(shapes[t], shapes[t + 1], q.arcFraction)
  {
    var m := q.numIntermediate;
    RaysMeet(Linspace(q.innerR, q.outerR, m + 2), m + 1, q.numSegments, q.arcFraction, Segments(q.numSegments), j, k);
  }

  /** Two line pieces where the first ends at the fraction `frac` of the radius where the
      second starts; while that radius is positive, the first ends no further out than
      the second starts exactly when the fraction is at most 1. The fraction scales the
      radius, not the step, so this alone does not keep the pieces apart: a piece may
      end nearer the centre than it starts (see RadialPieceOutward). */
  predicate PiecesMeet(a: Primitive, b: Primitive, frac: real)
  {
    a.Line? && b.Line? && a.r2 == b.r1 * frac &&
    (0.0 < b.r1 ==> (a.r2 <= b.r1 <==> frac <= 1.0))
  }

  /** With the inner radius 0, piece k of every ray runs outwards (ends no nearer the
      centre than it starts) exactly when k <= (k + 1) * arc_fraction: the fraction
      scales the radius where the next piece starts, not the length of the step, so
      with a fraction below 1 the outer pieces run inwards. */
  lemma RadialPieceOutward(q: Params, j: nat, k: nat)
    requires 0 < q.numSegments && j < q.numSegments && k <= q.numIntermediate
    requires q.innerR == 0.0 < q.outerR
    ensures var shapes := RadialShapes(q);
            var t := RayStart(q.numIntermediate, j) + k;
            t < |shapes| && shapes[t].Line? &&
            (shapes[t].r1 <= shapes[t].r2 <==> (k as real) <= ((k + 1) as real) * q.arcFraction)
  {
    var m := q.numIntermediate;
    var steps := Linspace(q.innerR, q.outerR, m + 2);
    RadialPieceAt(q, j, k);
    assert RayStart(m, j) + k == j * (m + 1) + k;
    var d := q.outerR / ((m + 1) as real);
    assert steps[k] == (k as real) * d;
    assert steps[k + 1] == ((k + 1) as real) * d;
    ScaledCompare(k as real, (k + 1) as real, d, q.arcFraction);
  }

  /** For a positive d, a * d <= (b * d) * f exactly when a <= b * f. */
  lemma ScaledCompare(a: real, b: real, d: real, f: real)
    requires 0.0 < d
    ensures a * d <= (b * d) * f <==> a <= b * f
  {
    assert (b * d) * f == (b * f) * d;
    if a <= b * f {
      MulMonotone(a, b * f, d);
    } else {
      MulStrict(d, b * f, a);
      assert (b * f) * d == d * (b * f) && a * d == d * a;
    }
  }

  /** An instance: radii 0 to 10, four intermediate steps, one ray and fraction 0.5.
      Piece 3 runs inwards from 6 to 4 and piece 4 from 8 to 5, so the two overlap
      between 5 and 6. */
  lemma RadialPiecesOverlap()
    ensures var q := Params(0.0, 10.0, 4, 1, 0.5, false, RadialLines, Linear, 1, 0.0, false, 0.0);
            var shapes := RadialShapes(q);
            4 < |shapes| && shapes[3] == Line(0.0, 6.0, 4.0) && shapes[4] == Line(0.0, 8.0, 5.0)
  {
    var q := Params(0.0, 10.0, 4, 1, 0.5, false, RadialLines, Linear, 1, 0.0, false, 0.0);
    var steps := Linspace(0.0, 10.0, 6);
    RadialPieceAt(q, 0, 3);
    RadialPieceAt(q, 0, 4);
    assert steps[3] == 6.0 && steps[4] == 8.0 && steps[5] == 10.0;
    assert RayAngle(1, 0) == 0.0;
  }

  /** Consecutive pieces of one ray, for any radii steps. */
  lemma RaysMeet(steps: seq<real>, pieces: nat, n: int, frac: real, rays: nat, j: nat, k: nat)
    requires pieces < |steps| && n != 0 && j < rays && k + 1 < pieces
    ensures var shapes := Rays(steps, pieces, n, frac, rays);
            var t := j * pieces + k;
            t + 1 < |shapes| && PiecesMeet(shapes[t], shapes[t + 1], frac)
  {
    RaysAt(steps, pieces, n, frac, rays, j, k);
    RaysAt(steps, pieces, n, frac, rays, j, k + 1);
    assert j * pieces + (k + 1) == j * pieces + k + 1;
    NextPieceMeets(RayAngle(n, j), steps, frac, k);
  }

  /** Piece k of a ray ends at the fraction of the radius where piece k + 1 starts. */
  lemma NextPieceMeets(angle: real, steps: seq<real>, frac: real, k: nat)
    requires k + 2 < |steps|
    ensures PiecesMeet(RayPiece(angle, steps, frac, k), RayPiece(angle, steps, frac, k + 1), frac)
  {
    FractionBelow(steps[k + 1], frac);
  }

  /** For a positive x, x * f <= x exactly when f <= 1. */
  lemma FractionBelow(x: real, f: real)
    ensures 0.0 < x ==> (x * f <= x <==> f <= 1.0)
  {
    if 0.0 < x {
      if f <= 1.0 {
        assert x * f <= x * 1.0;
      } else {
        assert x * f > x * 1.0;
      }
    }
  }
}
