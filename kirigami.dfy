/** The single-pattern generator (kirigami.py): the boundary circles, then rings of
    intermittent arcs at the interior evenly spaced radii, staggered between
    adjacent rings, in a square view. */
module Kirigami {
  import opened Scene
  import opened Layout
  import KirigamiOther

  /** The options main reads, with the radii already halved from the diameters;
      `staggerGiven` says whether `--stagger` was on the command line. */
  datatype Options = Options(
    outerR: real,
    innerR: real,
    numIntermediate: nat,
    numSegments: int,
    arcFraction: real,
    staggerGiven: bool)

  /** The declared default of `--stagger`. */
  const StaggerDefault := true

  /** `--stagger` is a store_true flag whose default is already true: giving it sets
      the option to true and leaving it out keeps the default, so it is always on. */
  function StaggerFlag(given: bool): (on: bool)
    ensures on
  {
    if given then true else StaggerDefault
  }

  /** The shapes main adds when no division fails: the inner and outer circles, then
      one ring of staggered arcs per interior radius. */
  function ParachuteShapes(o: Options): seq<Primitive>
    requires o.numSegments != 0 || o.numIntermediate == 0
  {
    var radii := LinearRadii(o.innerR, o.outerR, o.numIntermediate);
    [Circle(o.innerR), Circle(o.outerR)] + ArcRings(radii, |radii|, o.numSegments, o.arcFraction, Staggered(StaggerFlag(o.staggerGiven)))
  }

  /** What main leaves on the axis: the shapes and the square view, or the division
      of 360 by zero segments, which happens as soon as there is a ring. */
  function Parachute(o: Options): Result<Drawing>
  {
    if o.numSegments == 0 && o.numIntermediate > 0 then ZeroDivisionError
    else Ok(Drawing(ParachuteShapes(o), (-ViewMargin(o.outerR), ViewMargin(o.outerR)), (-ViewMargin(o.outerR), ViewMargin(o.outerR))))
  }

  /** main, from the parsed options on: the m + 2 evenly spaced radii, the two
      boundary circles, a ring of arcs for every radius but the first and the last,
      then the view limits. */
  method Generate(o: Options) returns (res: Result<Drawing>)
    ensures res == Parachute(o)
  {
    var outerR, innerR := o.outerR, o.innerR;
    var radii := Linspace(innerR, outerR, o.numIntermediate + 2);
    var ax := new Axes();
    ax.Add(Circle(innerR));
    ax.Add(Circle(outerR));
    assert ax.shapes == [Circle(innerR), Circle(outerR)];
    assert |radii| - 1 == o.numIntermediate + 1;
    var rings := radii[1..|radii| - 1];
    assert rings == LinearRadii(innerR, outerR, o.numIntermediate);
    var stagger := StaggerFlag(o.staggerGiven);
    var failed := AddRings(ax, rings, o.numSegments, o.arcFraction, stagger);
    if failed {
      return ZeroDivisionError;
    }
    assert ax.shapes == ParachuteShapes(o);
    var margin := outerR * 1.1;
    ax.SetXLim(-margin, margin);
    ax.SetYLim(-margin, margin);
    res := Ok(Drawing(ax.shapes, ax.xlim, ax.ylim));
  }

  /** The ring loop of main: for ring i, the sector and arc angles and the offset,
      odd rings turned by half a sector when staggered, then its n arcs. Dividing 360
      by zero segments fails as soon as there is a ring. */
  method AddRings(ax: Axes, rings: seq<real>, n: int, frac: real, stagger: bool) returns (failed: bool)
    modifies ax
    ensures failed <==> n == 0 && |rings| > 0
    ensures !failed ==> ax.shapes == old(ax.shapes) + ArcRings(rings, |rings|, n, frac, Staggered(stagger))
    ensures ax.xlim == old(ax.xlim) && ax.ylim == old(ax.ylim)
  {
    var base := ax.shapes;
    var law := Staggered(stagger);
    var i := 0;
    while i < |rings|
      invariant i <= |rings|
      invariant n != 0 || i == 0
      invariant ax.shapes == base + ArcRings(rings, i, n, frac, law)
      invariant ax.xlim == old(ax.xlim) && ax.ylim == old(ax.ylim)
    {
      if n == 0 {
        return true;
      }
      var seg := SegmentAngle(n);
      var offset := if !stagger then 0.0 else ((i % 2) as real) * (seg / 2.0);
      StaggerOffset(stagger, i, seg);
      AddRing(ax, rings[i], offset, seg, frac, n);
      ArcRingsUnfold(rings, i + 1, n, frac, law);
      i := i + 1;
    }
    return false;
  }

  /** A run fails exactly when there are no segments and at least one ring. A finished
      run holds the inner circle, the outer circle, then m rings of n arcs (none when n
      is negative), and nothing but arcs after the two circles; its view is the same
      square on both axes, reaching ten percent past the outer radius. */
  lemma ParachuteLayout(o: Options)
    ensures Parachute(o).ZeroDivisionError? <==> o.numSegments == 0 && o.numIntermediate > 0
    ensures Parachute(o).Ok? ==>
              var d := Parachute(o).value;
              |d.shapes| == 2 + o.numIntermediate * Segments(o.numSegments) &&
              d.shapes[0] == Circle(o.innerR) && d.shapes[1] == Circle(o.outerR) &&
              (forall t :: 2 <= t < |d.shapes| ==> d.shapes[t].Arc?) &&
              d.xlim == d.ylim && d.xlim == (-(o.outerR * 1.1), o.outerR * 1.1)
  {
    if Parachute(o).Ok? {
      var radii := LinearRadii(o.innerR, o.outerR, o.numIntermediate);
      var law := Staggered(StaggerFlag(o.staggerGiven));
      var rings := ArcRings(radii, |radii|, o.numSegments, o.arcFraction, law);
      ArcRingsLength(radii, |radii|, o.numSegments, o.arcFraction, law);
      ArcRingsAllArcs(radii, |radii|, o.numSegments, o.arcFraction, law);
      var shapes := [Circle(o.innerR), Circle(o.outerR)] + rings;
      forall t | 2 <= t < |shapes|
        ensures shapes[t].Arc?
      {
        assert shapes[t] == rings[t - 2];
      }
    }
  }

  /** Arc j of ring i comes after the two circles and the i rings before it; its radius
      is interior radius i, and it starts j sectors round, plus half a sector on every
      odd ring, since the stagger is always on. */
  lemma ParachuteArcAt(o: Options, i: nat, j: nat)
    requires 0 < o.numSegments && i < o.numIntermediate && j < o.numSegments
    ensures var shapes := ParachuteShapes(o);
            var radii := LinearRadii(o.innerR, o.outerR, o.numIntermediate);
            2 + (i * o.numSegments + j) < |shapes| &&
            shapes[2 + (i * o.numSegments + j)] == StaggeredArc(radii[i], true, i, SegmentAngle(o.numSegments), o.arcFraction, j)
  {
    var radii := LinearRadii(o.innerR, o.outerR, o.numIntermediate);
    var n := o.numSegments;
    var on := StaggerFlag(o.staggerGiven);
    StaggeredArcAt(radii, n, o.arcFraction, on, i, j);
    AppendAt([Circle(o.innerR), Circle(o.outerR)], ArcRings(radii, |radii|, n, o.arcFraction, Staggered(on)),
             2, i * n + j);
  }

  /** The multi-pattern generator reproduces this one: concentric arcs with linear
      spacing, stagger on, both boundary circles and no central hole draw the same
      shapes in the same order, fail on the same options, and set the same view. */
  lemma ParachuteIsConcentric(o: Options, e: nat, twist: real, ln: real -> real, exp: real -> real)
    ensures var p := KirigamiOther.Params(o.innerR, o.outerR, o.numIntermediate, o.numSegments, o.arcFraction,
                                          true, KirigamiOther.ConcentricArcs, KirigamiOther.Linear,
                                          e, twist, true, 0.0);
            KirigamiOther.Render(p, ln, exp) == Parachute(o)
  {
    var p := KirigamiOther.Params(o.innerR, o.outerR, o.numIntermediate, o.numSegments, o.arcFraction,
                                  true, KirigamiOther.ConcentricArcs, KirigamiOther.Linear,
                                  e, twist, true, 0.0);
    assert KirigamiOther.LogSubstituted(p) == p;
    var radii := LinearRadii(o.innerR, o.outerR, o.numIntermediate);
    assert KirigamiOther.SampleRadii(p, ln, exp) == radii;
    if !(o.numSegments == 0 && o.numIntermediate > 0) {
      var shapes := KirigamiOther.ConcentricShapes(p, radii);
      assert shapes == ParachuteShapes(o);
      assert KirigamiOther.HoleCircles(p) == [];
      assert shapes + [] == shapes;
    }
  }
}
