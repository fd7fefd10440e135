/** The drawing surface both generators write to: the shapes they add, in order,
    and the symmetric view limits set at the end. Stands in for a matplotlib axis. */
module Scene {

  /** One drawable shape, centred on the origin. Angles are in degrees.
      A radial line piece stays in polar form: the ray's angle and the two radii it joins. */
  datatype Primitive =
    | Circle(r: real)
    | Arc(r: real, theta1: real, theta2: real)
    | Line(angle: real, r1: real, r2: real)

  /** What a finished run leaves behind: the shapes and the x and y view limits. */
  datatype Drawing = Drawing(shapes: seq<Primitive>, xlim: (real, real), ylim: (real, real))

  /** A run either finishes or stops on a division of the segment angle by zero segments. */
  datatype Result<T> = Ok(value: T) | ZeroDivisionError

  /** The axis that shapes are added to. */
  class Axes {
    var shapes: seq<Primitive>
    var xlim: (real, real)
    var ylim: (real, real)

    /** A fresh axis: no shapes and the unit view. */
    constructor ()
      ensures shapes == [] && xlim == (0.0, 1.0) && ylim == (0.0, 1.0)
    {
      shapes := [];
      xlim := (0.0, 1.0);
      ylim := (0.0, 1.0);
    }

    /** Adds one shape after every shape added so far (both add_patch and plot). */
    method Add(p: Primitive)
      modifies this
      ensures shapes == old(shapes) + [p]
      ensures xlim == old(xlim) && ylim == old(ylim)
    {
      shapes := shapes + [p];
    }

    method SetXLim(lo: real, hi: real)
      modifies this
      ensures xlim == (lo, hi)
      ensures shapes == old(shapes) && ylim == old(ylim)
    {
      xlim := (lo, hi);
    }

    method SetYLim(lo: real, hi: real)
      modifies this
      ensures ylim == (lo, hi)
      ensures shapes == old(shapes) && xlim == old(xlim)
    {
      ylim := (lo, hi);
    }
  }
}
