/** What both generators share: evenly spaced samples over an interval (numpy's
    linspace, over exact reals), natural powers, and the rings of intermittent arcs
    that the concentric and spiral patterns lay out. */
module Layout {
  import opened Scene

  /** Sample k of `num` evenly spaced values from start to stop, both ends included.
      A single sample is `start`, as in numpy. */
  function Sample(start: real, stop: real, num: nat, k: int): real
  {
    if num <= 1 then start else start + (k as real) * ((stop - start) / ((num - 1) as real))
  }

  /** numpy.linspace(start, stop, num): `num` evenly spaced values from start to stop. */
  function Linspace(start: real, stop: real, num: nat): (r: seq<real>)
    ensures |r| == num
  {
    seq(num, k => Sample(start, stop, num, k))
  }

  /** linspace starts at start and, with at least two values, ends exactly at stop. */
  lemma LinspaceEnds(start: real, stop: real, num: nat)
    ensures var r := Linspace(start, stop, num);
            (num > 0 ==> r[0] == start) && (num > 1 ==> r[num - 1] == stop)
  {
    if num > 1 {
      var n1 := (num - 1) as real;
      assert n1 * ((stop - start) / n1) == stop - start;
    }
  }

  /** Consecutive values of linspace differ by one and the same step, (stop - start) / (num - 1). */
  lemma LinspaceEvenSteps(start: real, stop: real, num: nat)
    ensures var r := Linspace(start, stop, num);
            forall k :: 0 < k < num ==> r[k] - r[k - 1] == (stop - start) / ((num - 1) as real)
  {
    var r := Linspace(start, stop, num);
    forall k | 0 < k < num
      ensures r[k] - r[k - 1] == (stop - start) / ((num - 1) as real)
    {
      StepBetweenSamples(start, stop, num, k);
    }
  }

  lemma StepBetweenSamples(start: real, stop: real, num: nat, k: int)
    requires 1 < num
    ensures Sample(start, stop, num, k) - Sample(start, stop, num, k - 1) == (stop - start) / ((num - 1) as real)
  {
    var d := (stop - start) / ((num - 1) as real);
    assert Sample(start, stop, num, k) == start + (k as real) * d;
    assert Sample(start, stop, num, k - 1) == start + ((k - 1) as real) * d;
  }

  /** With start < stop and at least two samples, later samples are strictly larger;
      sample 0 is start and sample num - 1 is stop. */
  lemma SampleIncreasing(start: real, stop: real, num: nat, i: int, j: int)
    requires start < stop && 1 < num && i < j
    ensures Sample(start, stop, num, i) < Sample(start, stop, num, j)
    ensures Sample(start, stop, num, 0) == start && Sample(start, stop, num, num - 1) == stop
  {
    var n1 := (num - 1) as real;
    var d := (stop - start) / n1;
    assert 0.0 < d;
    assert ((j - i) as real) * d > 0.0;
    assert (j as real) * d == (i as real) * d + ((j - i) as real) * d;
    assert n1 * d == stop - start;
  }

  /** Every sample strictly between the first and the last lies strictly between start and stop. */
  lemma SampleInside(start: real, stop: real, num: nat, k: int)
    requires start < stop && 0 < k < num - 1
    ensures start < Sample(start, stop, num, k) < stop
  {
    SampleIncreasing(start, stop, num, 0, k);
    SampleIncreasing(start, stop, num, k, num - 1);
  }

  /** With start < stop the samples strictly increase, and every sample but the
      first and the last lies strictly between start and stop. */
  lemma LinspaceIncreasing(start: real, stop: real, num: nat)
    requires start < stop
    ensures forall i, j :: 0 <= i < j < num ==> Linspace(start, stop, num)[i] < Linspace(start, stop, num)[j]
    ensures forall k :: 0 < k < num - 1 ==> start < Linspace(start, stop, num)[k] < stop
  {
    var r := Linspace(start, stop, num);
    forall i, j | 0 <= i < j < num
      ensures r[i] < r[j]
    {
      SampleIncreasing(start, stop, num, i, j);
    }
    forall k | 0 < k < num - 1
      ensures start < r[k] < stop
    {
      SampleInside(start, stop, num, k);
    }
  }

  /** x raised to a natural power; x^0 is 1 (numpy gives 0**0 == 1 too). */
  function Pow(x: real, e: nat): real
  {
    if e == 0 then 1.0 else x * Pow(x, e - 1)
  }

  /** On [0, 1], a positive power keeps order strictly and stays within [0, 1]. */
  lemma {:induction false} PowMonotone(x: real, y: real, e: nat)
    requires 0.0 <= x < y <= 1.0 && 1 <= e
    ensures 0.0 <= Pow(x, e) < Pow(y, e) <= 1.0
  {
    if e > 1 {
      PowMonotone(x, y, e - 1);
      ProductBounds(x, y, Pow(x, e - 1), Pow(y, e - 1));
    }
  }

  lemma ProductBounds(x: real, y: real, a: real, b: real)
    requires 0.0 <= x < y <= 1.0 && 0.0 <= a < b <= 1.0
    ensures 0.0 <= x * a < y * b <= 1.0
  {
    MulNonNegative(x, a);
    MulMonotone(x, y, a);
    MulStrict(y, a, b);
    MulMonotone(y, 1.0, b);
    assert 1.0 * b == b;
    calc {
      x * a;
    <= y * a;
    < y * b;
    <= b;
    <= 1.0;
    }
  }

  lemma MulNonNegative(p: real, q: real)
    requires 0.0 <= p && 0.0 <= q
    ensures 0.0 <= p * q
  {
  }

  lemma MulMonotone(p: real, q: real, c: real)
    requires p <= q && 0.0 <= c
    ensures p * c <= q * c
  {
  }

  lemma MulStrict(c: real, p: real, q: real)
    requires 0.0 < c && p < q
    ensures c * p < c * q
  {
  }

  /** A positive power fixes 0 and 1. */
  lemma {:induction false} PowFixesEnds(e: nat)
    requires 1 <= e
    ensures Pow(0.0, e) == 0.0 && Pow(1.0, e) == 1.0
  {
    if e > 1 {
      PowFixesEnds(e - 1);
    }
  }

  /** Half the width of the square view both generators set: the outer radius plus
      ten percent, so a positive outer circle lies inside the view. */
  function ViewMargin(outer: real): (r: real)
    ensures 0.0 < outer ==> outer < r
  {
    outer * 1.1
  }

  /** How a ring's arcs are rotated: by half a segment on odd rings when staggered
      (concentric pattern), or by the ring index times a twist angle (spiral pattern). */
  datatype Offset = Staggered(stagger: bool) | Twisted(twist: real)

  /** The angle of one of n equal sectors of the full 360 degrees. */
  function SegmentAngle(n: int): real
    requires n != 0
  {
    360.0 / (n as real)
  }

  /** How many times `range(n)` runs: n for positive n, never otherwise. */
  function Segments(n: int): nat
  {
    if n > 0 then n else 0
  }

  /** The start angle of ring i's first arc. Staggering turns odd rings by
      (i % 2) * (seg / 2), that is half a sector, and even rings not at all. */
  function RingOffset(law: Offset, i: nat, seg: real): real
  {
    match law
    case Staggered(on) => if on && i % 2 == 1 then seg / 2.0 else 0.0
    case Twisted(twist) => (i as real) * twist
  }

  /** Arc t of a ring of radius r: it starts t sectors of `seg` degrees past the
      ring's offset and spans the fraction `frac` of a sector. */
  function RingArc(r: real, offset: real, seg: real, frac: real, t: nat): (p: Primitive)
    ensures p.Arc? && p.r == r && p.theta2 - p.theta1 == seg * frac
  {
    var start := offset + (t as real) * seg;
    Arc(r, start, start + seg * frac)
  }

  lemma RingArcIs(r: real, offset: real, seg: real, frac: real, t: nat)
    ensures RingArc(r, offset, seg, frac, t) ==
            Arc(r, offset + (t as real) * seg, offset + (t as real) * seg + seg * frac)
  {
  }

  /** The first j arcs of a ring, in the order the inner loop adds them. */
  function RingArcs(r: real, offset: real, seg: real, frac: real, j: nat): (s: seq<Primitive>)
    ensures |s| == j
  {
    if j == 0 then [] else RingArcs(r, offset, seg, frac, j - 1) + [RingArc(r, offset, seg, frac, j - 1)]
  }

  /** The arcs of the first k rings, ring after ring: n per ring (none for n < 0),
      each a fraction `frac` of its sector, rotated by the ring's offset. */
  function ArcRings(radii: seq<real>, k: nat, n: int, frac: real, law: Offset): (s: seq<Primitive>)
    requires k <= |radii|
    requires n != 0 || k == 0
  {
    if k == 0 then []
    else
      var seg := SegmentAngle(n);
      ArcRings(radii, k - 1, n, frac, law) + RingArcs(radii[k - 1], RingOffset(law, k - 1, seg), seg, frac, Segments(n))
  }

  /** k rings of n arcs each: k * n arcs, none when n is not positive. */
  lemma {:induction false} ArcRingsLength(radii: seq<real>, k: nat, n: int, frac: real, law: Offset)
    requires k <= |radii|
    requires n != 0 || k == 0
    ensures |ArcRings(radii, k, n, frac, law)| == k * Segments(n)
  {
    if k > 0 {
      ArcRingsLength(radii, k - 1, n, frac, law);
      MulSucc(k, Segments(n));
    }
  }

  lemma MulSucc(k: nat, s: nat)
    requires 0 < k
    ensures k * s == (k - 1) * s + s
  {
  }

  lemma {:induction false} RingArcsAt(r: real, offset: real, seg: real, frac: real, j: nat, t: nat)
    requires t < j
    ensures RingArcs(r, offset, seg, frac, j)[t] == RingArc(r, offset, seg, frac, t)
  {
    if t < j - 1 {
      RingArcsAt(r, offset, seg, frac, j - 1, t);
    }
  }

  lemma AppendAt<T>(before: seq<T>, after: seq<T>, base: nat, j: nat)
    requires |before| == base && j < |after|
    ensures base + j < |before + after| && (before + after)[base + j] == after[j]
  {
  }

  lemma ArcRingsUnfold(radii: seq<real>, k: nat, n: int, frac: real, law: Offset)
    requires 0 < k <= |radii| && n != 0
    ensures var seg := SegmentAngle(n);
            ArcRings(radii, k, n, frac, law) ==
            ArcRings(radii, k - 1, n, frac, law) + RingArcs(radii[k - 1], RingOffset(law, k - 1, seg), seg, frac, Segments(n))
  {
  }

  /** The arcs of ring k - 1 follow the arcs of the rings before it. */
  lemma LastRingAt(radii: seq<real>, k: nat, n: int, frac: real, law: Offset, j: nat)
    requires 0 < k <= |radii| && 0 < n && j < n
    ensures var seg := SegmentAngle(n);
            (k - 1) * n + j < |ArcRings(radii, k, n, frac, law)| &&
            ArcRings(radii, k, n, frac, law)[(k - 1) * n + j] == RingArc(radii[k - 1], RingOffset(law, k - 1, seg), seg, frac, j)
  {
    var seg := SegmentAngle(n);
    var before := ArcRings(radii, k - 1, n, frac, law);
    var ring := RingArcs(radii[k - 1], RingOffset(law, k - 1, seg), seg, frac, Segments(n));
    assert Segments(n) == n;
    ArcRingsLength(radii, k - 1, n, frac, law);
    RingArcsAt(radii[k - 1], RingOffset(law, k - 1, seg), seg, frac, Segments(n), j);
    AppendAt(before, ring, (k - 1) * n, j);
  }

  /** Arc j of ring i sits at position i * n + j; it has ring i's radius, starts
      j sectors past the ring's offset and spans the fraction `frac` of a sector. */
  lemma {:induction false} ArcRingsAt(radii: seq<real>, k: nat, n: int, frac: real, law: Offset, i: nat, j: nat)
    requires k <= |radii| && 0 < n
    requires i < k && j < n
    ensures i * n + j < |ArcRings(radii, k, n, frac, law)|
    ensures var seg := SegmentAngle(n);
            ArcRings(radii, k, n, frac, law)[i * n + j] == RingArc(radii[i], RingOffset(law, i, seg), seg, frac, j)
  {
    if i == k - 1 {
      LastRingAt(radii, k, n, frac, law, j);
    } else {
      ArcRingsAt(radii, k - 1, n, frac, law, i, j);
      ArcRingsUnfold(radii, k, n, frac, law);
      var before := ArcRings(radii, k - 1, n, frac, law);
      assert ArcRings(radii, k, n, frac, law)[..|before|] == before;
    }
  }

  /** Inside a ring, an arc ends no later than the next one starts exactly when
      the arc fraction is at most 1 (the sector angle being positive). */
  lemma RingArcGap(r: real, offset: real, seg: real, frac: real, t: nat)
    requires 0.0 < seg
    ensures RingArc(r, offset, seg, frac, t).theta2 <= RingArc(r, offset, seg, frac, t + 1).theta1 <==> frac <= 1.0
  {
    var x := (t as real) * seg;
    assert ((t + 1) as real) * seg == x + seg;
    assert seg * frac <= seg <==> frac <= 1.0;
  }

  /** The last of n arcs ends no later than the first one starts a full turn later
      exactly when the arc fraction is at most 1. */
  lemma RingArcWrap(r: real, offset: real, n: nat, frac: real)
    requires 0 < n
    ensures var seg := SegmentAngle(n);
            RingArc(r, offset, seg, frac, n - 1).theta2 <= RingArc(r, offset, seg, frac, 0).theta1 + 360.0 <==> frac <= 1.0
  {
    var seg := SegmentAngle(n);
    assert 0.0 < seg;
    assert ((n - 1) as real) * seg + seg == (n as real) * seg == 360.0;
    assert seg * frac <= seg <==> frac <= 1.0;
  }

  /** Consecutive arcs of one ring never overlap when the arc fraction is at most 1,
      and do overlap when it exceeds 1; the last arc is followed by the first, one turn later. */
  lemma ArcRingsGaps(radii: seq<real>, k: nat, n: int, frac: real, law: Offset, i: nat, j: nat)
    requires k <= |radii| && 0 < n
    requires i < k && j < n
    ensures var s := ArcRings(radii, k, n, frac, law);
            j + 1 < n ==> i * n + j + 1 < |s| && s[i * n + j].Arc? && s[i * n + j + 1].Arc? &&
                          (s[i * n + j].theta2 <= s[i * n + j + 1].theta1 <==> frac <= 1.0)
    ensures var s := ArcRings(radii, k, n, frac, law);
            j + 1 == n ==> i * n + j < |s| && s[i * n + j].Arc? && s[i * n].Arc? &&
                           (s[i * n + j].theta2 <= s[i * n].theta1 + 360.0 <==> frac <= 1.0)
  {
    var seg := SegmentAngle(n);
    ArcRingsAt(radii, k, n, frac, law, i, j);
    if j + 1 < n {
      ArcRingsAt(radii, k, n, frac, law, i, j + 1);
      assert i * n + (j + 1) == i * n + j + 1;
      RingArcGap(radii[i], RingOffset(law, i, seg), seg, frac, j);
    } else {
      ArcRingsAt(radii, k, n, frac, law, i, 0);
      assert i * n + 0 == i * n;
      RingArcWrap(radii[i], RingOffset(law, i, seg), n, frac);
    }
  }

  /** Every shape a ring produces is an arc of that ring's radius. */
  lemma {:induction false} RingArcsAllArcs(r: real, offset: real, seg: real, frac: real, j: nat)
    ensures forall t :: 0 <= t < j ==> RingArcs(r, offset, seg, frac, j)[t].Arc? && RingArcs(r, offset, seg, frac, j)[t].r == r
  {
    if j > 0 {
      RingArcsAllArcs(r, offset, seg, frac, j - 1);
      assert RingArcs(r, offset, seg, frac, j)[..j - 1] == RingArcs(r, offset, seg, frac, j - 1);
    }
  }

  /** Every shape the rings produce is an arc (no circle, no line). */
  lemma {:induction false} ArcRingsAllArcs(radii: seq<real>, k: nat, n: int, frac: real, law: Offset)
    requires k <= |radii|
    requires n != 0 || k == 0
    ensures forall t :: 0 <= t < |ArcRings(radii, k, n, frac, law)| ==> ArcRings(radii, k, n, frac, law)[t].Arc?
  {
    if k > 0 {
      var seg := SegmentAngle(n);
      ArcRingsAllArcs(radii, k - 1, n, frac, law);
      RingArcsAllArcs(radii[k - 1], RingOffset(law, k - 1, seg), seg, frac, Segments(n));
    }
  }

  // ---------------------------------------------------------------- linear radii

  ghost predicate StrictlyIncreasing(s: seq<real>)
  {
    forall i, j :: 0 <= i < j < |s| ==> s[i] < s[j]
  }

  ghost predicate StrictlyInside(s: seq<real>, lo: real, hi: real)
  {
    forall k :: 0 <= k < |s| ==> lo < s[k] < hi
  }

  /** Linear spacing: the m + 2 evenly spaced values from inner to outer, without the two ends. */
  function LinearRadii(inner: real, outer: real, m: nat): (r: seq<real>)
    ensures |r| == m
  {
    Linspace(inner, outer, m + 2)[1..m + 1]
  }

  /** Linear radius k is inner + (k + 1) steps of (outer - inner) / (m + 1); with
      inner < outer the radii strictly increase and lie strictly between the bounds. */
  lemma LinearRadiiSpaced(inner: real, outer: real, m: nat)
    ensures var r := LinearRadii(inner, outer, m);
            forall k :: 0 <= k < m ==> r[k] == inner + ((k + 1) as real) * ((outer - inner) / ((m + 1) as real))
    ensures inner < outer ==> StrictlyIncreasing(LinearRadii(inner, outer, m))
    ensures inner < outer ==> StrictlyInside(LinearRadii(inner, outer, m), inner, outer)
  {
    var r := LinearRadii(inner, outer, m);
    assert forall k :: 0 <= k < m ==> r[k] == Sample(inner, outer, m + 2, k + 1);
    if inner < outer {
      forall i, j | 0 <= i < j < m
        ensures r[i] < r[j]
      {
        SampleIncreasing(inner, outer, m + 2, i + 1, j + 1);
      }
      forall k | 0 <= k < m
        ensures inner < r[k] < outer
      {
        SampleInside(inner, outer, m + 2, k + 1);
      }
    }
  }

  // ---------------------------------------------------------------- drawing one ring; staggered rings

  /** The inner loop of every arc pattern, in both generators: the n arcs of one ring,
      one after another (none when n is not positive). */
  method AddRing(ax: Axes, r: real, offset: real, seg: real, frac: real, n: int)
    modifies ax
    ensures ax.shapes == old(ax.shapes) + RingArcs(r, offset, seg, frac, Segments(n))
    ensures ax.xlim == old(ax.xlim) && ax.ylim == old(ax.ylim)
  {
    var arcAngle := seg * frac;
    var j := 0;
    while j < n
      invariant j <= Segments(n)
      invariant ax.shapes == old(ax.shapes) + RingArcs(r, offset, seg, frac, j)
      invariant ax.xlim == old(ax.xlim) && ax.ylim == old(ax.ylim)
    {
      var start := offset + (j as real) * seg;
      assert Arc(r, start, start + arcAngle) == RingArc(r, offset, seg, frac, j);
      ax.Add(Arc(r, start, start + arcAngle));
      j := j + 1;
    }
  }

  /** Arc j of staggered ring i at radius r: it starts j sectors round, plus half a
      sector on odd rings, and spans the arc fraction of a sector. */
  function StaggeredArc(r: real, on: bool, i: nat, seg: real, frac: real, j: nat): Primitive
  {
    var start := (if on && i % 2 == 1 then seg / 2.0 else 0.0) + (j as real) * seg;
    Arc(r, start, start + seg * frac)
  }

  /** Arc j of ring i of the staggered rings, in closed form. */
  lemma StaggeredArcAt(radii: seq<real>, n: int, frac: real, on: bool, i: nat, j: nat)
    requires 0 < n && i < |radii| && j < n
    ensures i * n + j < |ArcRings(radii, |radii|, n, frac, Staggered(on))| &&
            ArcRings(radii, |radii|, n, frac, Staggered(on))[i * n + j] == StaggeredArc(radii[i], on, i, SegmentAngle(n), frac, j)
  {
    ArcRingsAt(radii, |radii|, n, frac, Staggered(on), i, j);
    StaggeredRingArc(radii[i], on, i, SegmentAngle(n), frac, j);
  }

  lemma StaggeredRingArc(r: real, on: bool, i: nat, seg: real, frac: real, j: nat)
    ensures RingArc(r, RingOffset(Staggered(on), i, seg), seg, frac, j) == StaggeredArc(r, on, i, seg, frac, j)
  {
    RingArcIs(r, RingOffset(Staggered(on), i, seg), seg, frac, j);
  }

  /** The stagger expression both generators write, (i % 2) * (seg / 2) when staggering,
      is the staggered ring offset. */
  lemma StaggerOffset(on: bool, i: nat, seg: real)
    ensures (if !on then 0.0 else ((i % 2) as real) * (seg / 2.0)) == RingOffset(Staggered(on), i, seg)
  {
    if i % 2 == 1 {
      assert ((i % 2) as real) * (seg / 2.0) == seg / 2.0;
    } else {
      assert i % 2 == 0;
      assert ((i % 2) as real) * (seg / 2.0) == 0.0;
    }
  }
}
