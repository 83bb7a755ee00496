/** Circles: a radius and a centre (client/src/palamander/common/circle.ts). */
module Circles {
  import opened Wrappers
  import opened Coordinates

  datatype Circle = Circle(radius: real, center: Coords)

  function CreateDefaultCircle(radius: real): (c: Circle)
    ensures c.radius == radius && c.center == CreateOrigin()
  {
    Circle(radius, CreateOrigin())
  }

  /** The phantom engine circle leading the head: radius opposite to the
      head's, centre the given origin or (0, 0) when none is given. */
  function CreateEngineCircle(head: Circle, origin: Option<Coords>): (c: Circle)
    ensures c.radius + head.radius == 0.0
    ensures c.center == (if origin.Some? then origin.value else Coords(0.0, 0.0))
  {
    Circle(-1.0 * head.radius, origin.GetOr(CreateOrigin()))
  }

  /** The returned closure keeps the circle's radius and moves its centre by
      the delta; the circle itself is a value and is not changed. */
  function GenerateUpdateCircle(circle: Circle): (update: Coords -> Circle)
    ensures forall d :: update(d).radius == circle.radius
    ensures forall d :: ShiftNegative(update(d).center, d) == circle.center
  {
    (delta: Coords) => Circle(circle.radius, Shift(circle.center, delta))
  }

  function StretchCircle(c: Circle, factor: real): (r: Circle)
    ensures factor == 1.0 ==> r == c
    ensures r.center == Stretch(c.center, factor)
    ensures r.radius == c.radius * factor
  {
    Circle(c.radius * factor, Stretch(c.center, factor))
  }

  /** Stretching by a non-zero factor and then by its inverse gives the circle back. */
  lemma StretchCircleInverse(c: Circle, f: real)
    requires f != 0.0
    ensures StretchCircle(StretchCircle(c, f), 1.0 / f) == c
  {
    var r := StretchCircle(StretchCircle(c, f), 1.0 / f);
    assert c.radius * f * (1.0 / f) == c.radius;
    assert c.center.x * f * (1.0 / f) == c.center.x;
    assert c.center.y * f * (1.0 / f) == c.center.y;
  }
}
