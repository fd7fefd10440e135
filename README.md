# Kirigami parachute cut patterns

Two scripts lay out the cuts of a circular kirigami parachute. The model covers what they put on the drawing: circles, arcs and radial line pieces, in order, plus the view limits.

- **`kirigami-other.py`** is the multi-pattern generator. It samples the ring radii with one of three spacing laws:
  - linear;
  - power (evenly spaced values on [0, 1] raised to an exponent);
  - log (evenly spaced logarithms).

  It then draws one of three patterns:
  - concentric rings of intermittent arcs, with odd rings optionally staggered by half a sector and optional boundary circles;
  - spiral rings, each turned by a further twist angle;
  - radial rays, each cut into pieces.

  Finally it adds an optional central hole and sets a square view reaching ten percent past the outer radius.
- **`kirigami.py`** is the earlier single-pattern generator. It draws the two boundary circles, then staggered rings of arcs at the interior evenly spaced radii, in the same square view.

The model has four modules:

- **`Scene`** (`scene.dfy`): the shapes (`Primitive`), the finished drawing, and the `Result` of a run. A run either finishes or stops dividing 360 by zero segments. The `Axes` class stands in for the matplotlib axis. Its shape list grows as shapes are added, and its limits are set at the end.
- **`Layout`** (`layout.dfy`) holds what the generators share:
  - numpy's `linspace` over exact reals, and natural powers;
  - the rings of arcs, specified by `ArcRings`;
  - the linear radii;
  - the loop that draws one ring (`AddRing`);
  - the closed form of a staggered arc.
- **`KirigamiOther`** (`kirigami_other.dfy`) models `kirigami-other.py`:
  - the option bag is a class whose only mutable field is the inner radius, because the log law overwrites it;
  - `get_radii`, the three drawing functions and `main` are methods, each proved equal to a specification function;
  - `Render` is what a whole run produces, and the lemmas state the promised properties about it.
- **`Kirigami`** (`kirigami.dfy`) models `main` of `kirigami.py`. `Generate` is proved equal to the specification `Parachute`. Lemmas give:
  - its layout;
  - the closed form of each arc;
  - the fact that the multi-pattern generator reproduces it exactly.

Notes on how the model is stated:

- **Ring offset.** The source turns a staggered ring by `(i % 2) * (seg / 2)`. The model writes the ring offset as a case split: half a sector on odd rings. `Layout.StaggerOffset` proves the two equal. The methods compute the source's own expression.
- **Stagger in `kirigami.py`.** The `--stagger` flag is `store_true` with `default=True`, so it is always on. The options record only whether the flag was given, and `Generate` and `Parachute` read the stagger through `Kirigami.StaggerFlag`, which is always true.
- **Radial pieces.** In `draw_radial_lines`, the arc fraction scales the radius where the next piece starts, not the length of the step (`kirigami-other.py:50`). So with a fraction below 1, the outer pieces run inwards and can overlap their neighbours. The model draws the pieces as written. `RadialPieceOutward` and `RadialPiecesOverlap` state the consequence.
- **Division by zero segments.** Dividing 360 by zero segments raises. It happens only when there is at least one ring, because the sector angle is computed inside the ring loop. The radial pattern never divides when it draws no rays. A negative segment count draws nothing, because `range` is empty.

## Model

| member | source | states |
|---|---|---|
| Scene.Axes.constructor | kirigami-other.py:93 | a fresh axis holds no shapes and the unit view |
| Scene.Axes.Add | kirigami-other.py:24 | a shape is appended after all earlier ones; the limits are unchanged |
| Scene.Axes.SetXLim | kirigami-other.py:111 | sets the x limits and nothing else |
| Scene.Axes.SetYLim | kirigami-other.py:112 | sets the y limits and nothing else |
| Layout.Sample | kirigami-other.py:47 | defines sample k of linspace: start plus k steps of (stop - start) / (num - 1), and start alone for a single sample; its properties are the linspace lemmas below |
| Layout.Linspace | kirigami-other.py:47 | linspace returns exactly `num` values |
| Layout.LinspaceEnds | kirigami.py:21 | the first value is the start and, with two or more values, the last is exactly the stop |
| Layout.LinspaceEvenSteps | kirigami.py:21 | consecutive values differ by the same step, (stop - start) / (num - 1) |
| Layout.StepBetweenSamples | kirigami.py:21 | each sample lies one step past the one before it |
| Layout.SampleIncreasing | kirigami.py:21 | with start < stop, later samples are strictly larger; sample 0 is start and the last is stop |
| Layout.SampleInside | kirigami.py:21 | interior samples lie strictly between start and stop |
| Layout.LinspaceIncreasing | kirigami.py:21 | with start < stop the values strictly increase and the interior ones lie strictly between the ends |
| Layout.Pow | kirigami-other.py:59 | defines `**` for a natural exponent, with x ** 0 == 1 |
| Layout.PowMonotone | kirigami-other.py:59 | on [0, 1] a positive natural power keeps strict order and stays in [0, 1] |
| Layout.PowFixesEnds | kirigami-other.py:59 | a positive power maps 0 to 0 and 1 to 1 |
| Layout.ViewMargin | kirigami-other.py:110 | the half-width outer_r * 1.1 of the square view (also kirigami.py:41) exceeds a positive outer radius, so the outer circle lies inside the view |
| Layout.SegmentAngle | kirigami-other.py:14-15 | defines the sector angle 360 / num_segments, which needs num_segments != 0 |
| Layout.Segments | kirigami-other.py:18 | defines how many times `range(num_segments)` runs: num_segments when positive, otherwise 0 |
| Layout.RingOffset | kirigami-other.py:17-33 | defines ring i's offset: seg / 2 on odd rings when staggered, else 0 (line 17), or i * twist for the spiral (line 33); StaggerOffset ties it to the source's expression |
| Layout.ArcRings | kirigami-other.py:13-36 | defines the arcs the ring loops add, ring after ring, as the specification the drawing methods are proved against; ArcRingsLength, ArcRingsAt and ArcRingsGaps state its properties |
| Layout.RingArc | kirigami-other.py:19-24 | every arc of a ring has the ring's radius and spans seg * arc_fraction degrees |
| Layout.RingArcs | kirigami-other.py:18-24 | the inner loop's first j arcs are j arcs |
| Layout.ArcRingsLength | kirigami-other.py:13-24 | k rings produce k * n arcs, none when n is not positive |
| Layout.RingArcsAt | kirigami-other.py:18-24 | position t of a ring's arcs is arc t of that ring |
| Layout.LastRingAt | kirigami-other.py:13-24 | the last ring's arc j sits at (k - 1) * n + j |
| Layout.ArcRingsAt | kirigami-other.py:13-24 | arc j of ring i sits at i * n + j, with ring i's radius, ring i's offset plus j sectors, and the arc fraction of a sector |
| Layout.RingArcGap | kirigami-other.py:15-19 | within a ring an arc ends no later than the next begins exactly when arc_fraction <= 1 |
| Layout.RingArcWrap | kirigami-other.py:15-19 | the last arc ends no later than the first begins a turn later exactly when arc_fraction <= 1 |
| Layout.ArcRingsGaps | kirigami-other.py:13-24 | consecutive arcs of every ring, including last-to-first around the turn, do not overlap exactly when arc_fraction <= 1 |
| Layout.RingArcsAllArcs | kirigami-other.py:18-24 | every shape of a ring is an arc at the ring's radius |
| Layout.ArcRingsAllArcs | kirigami-other.py:13-24 | the rings add nothing but arcs |
| Layout.LinearRadii | kirigami-other.py:57 | linear spacing gives exactly num_intermediate radii (none for 0) |
| Layout.LinearRadiiSpaced | kirigami-other.py:56-57 | linear radius k is inner + (k + 1) equal steps; with inner < outer the radii strictly increase and lie strictly between the bounds, so both ends are dropped |
| Layout.AddRing | kirigami-other.py:18-24 | the inner loop appends exactly the ring's n arcs, in order, and leaves the limits alone |
| Layout.StaggeredArc | kirigami-other.py:17-24 | defines staggered arc (i, j) in closed form: start j * seg, plus seg / 2 on odd rings when staggered (also kirigami.py:35-38), end start + seg * arc_fraction; StaggeredArcAt, ConcentricArcAt and ParachuteArcAt place it in the drawing |
| Layout.StaggeredArcAt | kirigami-other.py:13-24 | with stagger, arc j of ring i starts at j * seg, plus seg / 2 on odd rings, and spans seg * arc_fraction |
| Layout.StaggerOffset | kirigami-other.py:17 | the source's offset expression is half a sector on odd rings when staggering, 0 otherwise |
| KirigamiOther.Args.constructor | kirigami-other.py:89-91 | the option bag holds exactly the given options |
| KirigamiOther.UnitSample | kirigami-other.py:59 | defines interior sample k of linspace(0, 1, num_intermediate + 2), that is sample k + 1; UnitSamples states its order and bounds |
| KirigamiOther.Scaled | kirigami-other.py:60 | defines inner_r + (outer_r - inner_r) * y, the scaling of line 60; ScaleMonotone states its order and end values |
| KirigamiOther.PowerRadius | kirigami-other.py:59-60 | defines power radius k: the unit sample raised to the exponent, then scaled; PowerRadiusPair and PowerRadiusInside state its order and bounds |
| KirigamiOther.LogRadius | kirigami-other.py:64-67 | defines log radius k: exp of sample k + 1 of linspace(ln(inner_r), ln(outer_r), num_intermediate + 2); LogRadiiIncreasing and LogRadiiGeometric state its order and common ratio |
| KirigamiOther.PowerRadii | kirigami-other.py:59-60 | power spacing gives exactly num_intermediate radii |
| KirigamiOther.LogRadii | kirigami-other.py:64-67 | log spacing gives exactly num_intermediate radii |
| KirigamiOther.LogSubstituted | kirigami-other.py:61-63 | the log guard changes only the inner radius, changes it exactly when it is 0 under log spacing, and leaves it nonzero under log spacing |
| KirigamiOther.SampleRadii | kirigami-other.py:55-67 | every spacing law gives exactly num_intermediate radii |
| KirigamiOther.PowerOneIsLinear | kirigami-other.py:56-60 | exponent 1 gives the same radii as linear spacing |
| KirigamiOther.PowerOneAt | kirigami-other.py:58-60 | power radius k with exponent 1 is linspace sample k + 1 |
| KirigamiOther.PowerRadiiIncreasing | kirigami-other.py:58-60 | for a positive exponent and inner < outer, the power radii strictly increase and lie strictly inside (inner, outer) |
| KirigamiOther.PowerRadiusPair | kirigami-other.py:59-60 | an earlier power radius is strictly smaller than a later one |
| KirigamiOther.PowerRadiusInside | kirigami-other.py:59-60 | every power radius is strictly inside (inner, outer) |
| KirigamiOther.UnitSamples | kirigami-other.py:59 | the interior samples of [0, 1] lie strictly inside it, in strict order |
| KirigamiOther.ScaledPowLess | kirigami-other.py:60 | raising to the exponent and scaling onto [inner, outer] keeps strict order |
| KirigamiOther.ScaleMonotone | kirigami-other.py:60 | scaling onto [inner, outer] keeps order and maps 0 and 1 to the bounds |
| KirigamiOther.LogRadiiIncreasing | kirigami-other.py:64-67 | with exp increasing and ln(inner) < ln(outer), the log radii strictly increase; they lie inside the bounds when exp undoes ln there |
| KirigamiOther.LogRadiiGeometric | kirigami-other.py:64-67 | when exp turns sums into products, successive log radii share one ratio |
| KirigamiOther.LogRatioAt | kirigami-other.py:66-67 | log radius k is log radius k - 1 times exp of the log step |
| KirigamiOther.GetRadii | kirigami-other.py:55-67 | returns the chosen law's radii, read after the guard, and writes 0.01 into a zero inner radius under log spacing and nothing else |
| KirigamiOther.BoundCircles | kirigami-other.py:8-10 | exactly two circles when draw_bounds is set, none otherwise |
| KirigamiOther.ConcentricShapes | kirigami-other.py:6-24 | defines what draw_concentric_arcs adds: the boundary circles if asked, then the staggered rings; ConcentricArcAt and PatternCircles state its layout |
| KirigamiOther.DrawConcentricArcs | kirigami-other.py:6-24 | appends the boundary circles when asked, then the staggered rings; fails exactly when there are no segments and at least one radius |
| KirigamiOther.AddStaggeredRing | kirigami-other.py:14-24 | one pass of the concentric loop appends ring i's arcs with the staggered offset |
| KirigamiOther.SpiralShapes | kirigami-other.py:26-36 | defines what draw_spiral_arcs adds: the twisted rings and nothing else; SpiralArcAt states its layout |
| KirigamiOther.DrawSpiralArcs | kirigami-other.py:26-36 | appends the twisted rings and no circles; fails exactly when there are no segments and at least one radius |
| KirigamiOther.AddTwistedRing | kirigami-other.py:30-36 | one pass of the spiral loop appends ring i's arcs turned by i * twist |
| KirigamiOther.RayPiece | kirigami-other.py:49-53 | a ray piece is a line on the ray's angle |
| KirigamiOther.RayPieces | kirigami-other.py:48-53 | the inner loop's first k pieces are k pieces |
| KirigamiOther.Rays | kirigami-other.py:43-53 | defines the first j rays, each cut into the given number of pieces |
| KirigamiOther.RaysLength | kirigami-other.py:43-53 | j rays of p pieces are j * p pieces |
| KirigamiOther.RayPiecesAt | kirigami-other.py:48-53 | position t of a ray's pieces is piece t |
| KirigamiOther.RaysAt | kirigami-other.py:43-53 | piece k of ray j sits at j * pieces + k |
| KirigamiOther.RaysAllLines | kirigami-other.py:43-53 | the rays add nothing but line pieces |
| KirigamiOther.RadialShapes | kirigami-other.py:38-53 | defines what draw_radial_lines adds: num_segments rays (none when not positive) of num_intermediate + 1 pieces over linspace(inner_r, outer_r, num_intermediate + 2) |
| KirigamiOther.RayAngle | kirigami-other.py:44 | defines the angle of ray j, j * (360 / num_segments), needing num_segments != 0 |
| KirigamiOther.DrawRadialLines | kirigami-other.py:38-53 | appends num_segments rays (none when not positive) of num_intermediate + 1 pieces, ignoring the sampled radii |
| KirigamiOther.AddRay | kirigami-other.py:47-53 | one ray appends its num_intermediate + 1 pieces in order |
| KirigamiOther.HoleCircles | kirigami-other.py:106-107 | one circle of radius central_hole / 2 exactly when central_hole > 0 |
| KirigamiOther.PatternShapes | kirigami-other.py:98-103 | defines the chosen pattern's shapes, or the division by zero segments for an arc pattern with at least one radius |
| KirigamiOther.Render | kirigami-other.py:96-112 | defines a whole run from its options: the log guard, the radii, the pattern, then the hole and the view; RenderFails, RenderShapeCount and RenderView state its properties |
| KirigamiOther.Finish | kirigami-other.py:106-112 | defines the end of a run: the pattern's shapes, then the hole, in the square view, or the failed division unchanged |
| KirigamiOther.DrawPattern | kirigami-other.py:98-103 | the dispatch appends the chosen pattern's shapes or reports the failed division |
| KirigamiOther.AddHoleAndView | kirigami-other.py:106-112 | appends the hole circle when asked and sets both limits to ±outer_r * 1.1 |
| KirigamiOther.Run | kirigami-other.py:96-112 | main's result is Render of the options, and the options keep only the log guard's write |
| KirigamiOther.DrawAll | kirigami-other.py:98-112 | on a fresh axis, main yields the pattern, then the hole, in the square view |
| KirigamiOther.RenderFails | kirigami-other.py:98-103 | a run fails exactly when there are no segments, at least one ring, and an arc pattern |
| KirigamiOther.RenderShapeCount | kirigami-other.py:96-107 | a finished run holds the bound circles (concentric, if asked), m * n arcs or n * (m + 1) pieces, and the hole if any |
| KirigamiOther.RenderView | kirigami-other.py:110-112 | the view is the same square on both axes, ±outer_r * 1.1, and contains a positive outer circle |
| KirigamiOther.PatternCircles | kirigami-other.py:8-10 | only the concentric pattern draws circles, and only as its first two shapes when draw_bounds is set |
| KirigamiOther.LogGuardSeen | kirigami-other.py:62-63 | after the guard, the inner bound circle and the first radial piece start at 0.01 |
| KirigamiOther.ConcentricArcAt | kirigami-other.py:6-24 | concentric arc (i, j) follows the bound circles and i rings; closed-form radius and angles |
| KirigamiOther.TwistedArc | kirigami-other.py:33-36 | defines spiral arc (i, j) in closed form: start i * twist + j * seg, end start + seg * arc_fraction; SpiralArcAt places it in the drawing |
| KirigamiOther.SpiralArcAt | kirigami-other.py:26-36 | spiral arc (i, j) starts at i * twist + j * seg, not reduced mod 360, and spans seg * arc_fraction |
| KirigamiOther.RadialPieceAt | kirigami-other.py:43-53 | piece k of ray j is at j * (m + 1) + k, on angle j * 360 / n, from step k to step k + 1 times the fraction |
| KirigamiOther.RaysLineAt | kirigami-other.py:44-50 | a ray piece in closed form for any radii steps |
| KirigamiOther.RayEnds | kirigami-other.py:47-50 | every ray starts at inner_r and its last piece ends at outer_r * arc_fraction |
| KirigamiOther.RayPiecesMeet | kirigami-other.py:47-50 | each piece ends at the fraction of the radius where the next starts, so with fraction 1 they share endpoints; with positive radii a piece ends no further out than the next starts exactly when the fraction is at most 1 |
| KirigamiOther.RadialPieceOutward | kirigami-other.py:47-50 | with inner_r 0, piece k of a ray runs outwards exactly when k <= (k + 1) * arc_fraction, so with a fraction below 1 the outer pieces run inwards |
| KirigamiOther.RadialPiecesOverlap | kirigami-other.py:47-50 | radii 0 to 10, four intermediate steps, one ray, fraction 0.5: pieces 3 and 4 are (6 to 4) and (8 to 5), overlapping between 5 and 6 |
| KirigamiOther.RaysMeet | kirigami-other.py:48-50 | consecutive pieces of a ray meet, for any radii steps |
| KirigamiOther.NextPieceMeets | kirigami-other.py:49-50 | piece k ends at the fraction of where piece k + 1 starts |
| Kirigami.StaggerFlag | kirigami.py:13 | the stagger option is true whether or not the flag is given; main reads the stagger through it |
| Kirigami.ParachuteShapes | kirigami.py:27-38 | defines the shapes main adds: the inner and outer circles, then the always-staggered rings at the interior radii |
| Kirigami.Parachute | kirigami.py:19-43 | defines main's result: the division by zero segments when there are no segments and at least one ring, otherwise the shapes in the square view |
| Kirigami.Generate | kirigami.py:19-43 | main yields exactly Parachute of the options |
| Kirigami.AddRings | kirigami.py:31-38 | the ring loop appends the staggered rings at the interior radii; fails exactly when there are no segments and at least one ring |
| Kirigami.ParachuteLayout | kirigami.py:27-43 | fails exactly when n = 0 and m > 0; otherwise inner then outer circle, then m * n arcs and nothing else, in the view ±outer_r * 1.1 on both axes |
| Kirigami.ParachuteArcAt | kirigami.py:31-38 | arc (i, j) is at 2 + i * n + j, with interior radius i and angles j * seg, plus seg / 2 on every odd ring since the stagger is always on, to that plus seg * arc_fraction |
| Kirigami.ParachuteIsConcentric | kirigami.py:19-43 | the multi-pattern generator's concentric run with linear spacing, stagger on, bounds and no hole gives the same result |

## Left out

- Option parsing (argparse), the defaults, and the halving of diameters into radii: the model starts from the radii.
- Rendering and file output (the figure, `set_aspect`, `axis('off')`, `savefig`, `close`): only the shapes added to the axis and its limits are modelled.
- Line width and colour: they do not affect the layout.
- The `wavy` branch: it is an empty `pass` and has no effect.
- `np.deg2rad`, `np.cos` and `np.sin`: radial pieces stay in polar form (angle, r1, r2), so there is no trigonometry.
- `np.log` and `np.exp`: they are function parameters `ln` and `exp`, and the log lemmas state what they assume of them.
- Floating-point rounding: all arithmetic is over exact reals. numpy's linspace is computed as start + k * (stop - start) / (num - 1), and 1.1 is exact.
- KirigamiOther.PowerRadii: the exponent is a natural number; real exponents are not modelled.
- A negative `num_intermediate`: the count is a natural number.
- Shapes already added when the division by zero segments raises (the boundary circles of the concentric pattern): the run stops there and nothing is saved, so the model returns only `ZeroDivisionError`.
