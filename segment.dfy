/** Segments as value trees: body-angle interpolation and clipping,
    hydration and update of whole trees, and traversals
    (client/src/palamander/morphology/segment.ts). */
module Segments {
  import opened Num
  import opened Coordinates
  import opened Circles
  import opened Wriggles

  /** absolute: the body angle at this segment; curveRange: the largest
      difference from the parent's absolute angle; relative: the angle at
      which the segment is drawn off the body angle. */
  datatype BodyAngle = BodyAngle(absolute: real, curveRange: real, relative: real)

  datatype Segment = Segment(
    circle: Circle,
    bodyAngle: BodyAngle,
    wriggle: Wriggle,
    overlap: real,
    propagationInterval: real,
    primary: bool,
    children: seq<Segment>)

  /** The floating-point geometry the model leaves uninterpreted: Math.sin
      and calculateCenter (the centre of a circle placed off its parent). */
  datatype Trig = Trig(sin: real -> real, center: (Circle, Circle, real, real) -> Coords)

  predicate Between(x: real, a: real, b: real) { Min(a, b) <= x <= Max(a, b) }

  lemma ConvexBetween(t: real, a: real, b: real)
    requires 0.0 <= t <= 1.0
    ensures Between(t * a + (1.0 - t) * b, a, b)
  {
    var d := a - b;
    var td := t * d;
    assert t * a + (1.0 - t) * b == b + td;
    if d >= 0.0 {
      MulLeMono(0.0, t, d);
      MulLeMono(t, 1.0, d);
      assert 0.0 <= td <= d;
      assert Min(a, b) == b && Max(a, b) == a;
    } else {
      var nd := b - a;
      MulLeMono(0.0, t, nd);
      MulLeMono(t, 1.0, nd);
      assert t * nd <= nd;
      assert t * nd == -td;
      assert d <= td <= 0.0;
      assert Min(a, b) == a && Max(a, b) == b;
    }
  }

  /** The absolute angle after a step of the given magnitude (elapsed time
      over propagation interval): below 1 it moves from the segment's own
      previous angle towards the parent's previous one; from 1 on it moves
      from the parent's previous angle towards the parent's current one. */
  function CalculateAbsoluteBodyAngle(step: real, prev: real, parentPrev: real, parent: real): (r: real)
    ensures step == 0.0 ==> r == prev
    ensures step == 1.0 ==> r == parentPrev
    ensures 0.0 <= step <= 1.0 ==> Between(r, prev, parentPrev)
    ensures step >= 1.0 ==> Between(r, parentPrev, parent)
  {
    if step < 1.0 then
      assert 0.0 <= step ==> Between(step * parentPrev + (1.0 - step) * prev, prev, parentPrev) by {
        if 0.0 <= step { ConvexBetween(step, parentPrev, prev); }
      }
      step * parentPrev + (1.0 - step) * prev
    else
      var t := 1.0 / step;
      assert 0.0 < t <= 1.0;
      assert (parentPrev + (step - 1.0) * parent) / step == t * parentPrev + (1.0 - t) * parent;
      ConvexBetween(t, parentPrev, parent);
      (parentPrev + (step - 1.0) * parent) / step
  }

  /** Keeps an absolute angle within curveRange of the parent's. */
  function ClipAbsoluteBodyAngle(curveRange: real, absolute: real, parent: real): (r: real)
    ensures curveRange >= 0.0 ==> parent - curveRange <= r <= parent + curveRange
    ensures parent - curveRange <= absolute <= parent + curveRange ==> r == absolute
    ensures absolute < parent - curveRange ==> r == parent - curveRange
  {
    if parent - absolute > curveRange then parent - curveRange
    else if absolute - parent > curveRange then parent + curveRange
    else absolute
  }

  /** A new body angle whose absolute part is interpolated and clipped;
      relative and curveRange are kept. */
  function UpdateBodyAngle(step: real, parentPrev: real, parent: real, prev: BodyAngle): (r: BodyAngle)
    ensures r.relative == prev.relative && r.curveRange == prev.curveRange
    ensures r.absolute == ClipAbsoluteBodyAngle(prev.curveRange,
      CalculateAbsoluteBodyAngle(step, prev.absolute, parentPrev, parent), parent)
    ensures prev.curveRange >= 0.0 ==> parent - prev.curveRange <= r.absolute <= parent + prev.curveRange
  {
    var absolute := CalculateAbsoluteBodyAngle(step, prev.absolute, parentPrev, parent);
    prev.(absolute := ClipAbsoluteBodyAngle(prev.curveRange, absolute, parent))
  }

  /** Two trees have the same shape: same radius, overlap, relative angle,
      curve range, propagation interval, primary flag and number of wriggle
      components, and pairwise the same shape of children in the same order. */
  predicate SameShape(a: Segment, b: Segment)
    decreases a
  {
    a.circle.radius == b.circle.radius && a.overlap == b.overlap
    && a.bodyAngle.relative == b.bodyAngle.relative && a.bodyAngle.curveRange == b.bodyAngle.curveRange
    && a.propagationInterval == b.propagationInterval && a.primary == b.primary
    && |a.wriggle| == |b.wriggle|
    && |a.children| == |b.children|
    && forall k :: 0 <= k < |a.children| ==> SameShape(a.children[k], b.children[k])
  }

  /** Every segment of the tree has the given absolute angle. */
  predicate AllAbsolute(s: Segment, absolute: real)
    decreases s
  {
    s.bodyAngle.absolute == absolute
    && forall k :: 0 <= k < |s.children| ==> AllAbsolute(s.children[k], absolute)
  }

  /** Places a freshly built tree: every segment takes the given absolute
      angle, wriggles are synced with zero interval and speed, and the
      centre of each is computed from its parent's new circle. */
  function HydrateSegment(s: Segment, parentCircle: Circle, absolute: real, trig: Trig): (r: Segment)
    ensures SameShape(r, s)
    ensures AllAbsolute(r, absolute)
    ensures r.circle.radius == s.circle.radius
    ensures forall k :: 0 <= k < |s.children| ==>
      r.children[k] == HydrateSegment(s.children[k], r.circle, absolute, trig)
    decreases s
  {
    var wriggle := SyncWriggle(s.wriggle, 0.0, 0.0, trig.sin);
    var center := trig.center(s.circle, parentCircle, s.overlap, absolute + s.bodyAngle.relative + Compound(wriggle));
    var circle := Circle(s.circle.radius, center);
    s.(circle := circle,
       bodyAngle := s.bodyAngle.(absolute := absolute),
       wriggle := wriggle,
       children := seq(|s.children|, k requires 0 <= k < |s.children| => HydrateSegment(s.children[k], circle, absolute, trig)))
  }

  /** One animation step of a tree: the step magnitude is interval over the
      propagation interval, quicker at speed; the body angle is updated, the
      wriggle synced, and each child is updated against this segment's new
      circle and its new and previous absolute angles. */
  function UpdateSegment(s: Segment, parentCircle: Circle, parentAbsolute: real, parentAbsolutePrev: real,
                         interval: real, speed: real, trig: Trig): (r: Segment)
    ensures SameShape(r, s)
    ensures r.bodyAngle == UpdateBodyAngle(Div(interval, s.propagationInterval) * (1.0 + speed / 100.0),
                                           parentAbsolutePrev, parentAbsolute, s.bodyAngle)
    ensures forall k :: 0 <= k < |s.children| ==>
      r.children[k] == UpdateSegment(s.children[k], r.circle, r.bodyAngle.absolute, s.bodyAngle.absolute, interval, speed, trig)
    decreases s
  {
    var step := Div(interval, s.propagationInterval) * (1.0 + speed / 100.0);
    var bodyAngle := UpdateBodyAngle(step, parentAbsolutePrev, parentAbsolute, s.bodyAngle);
    var wriggle := SyncWriggle(s.wriggle, interval, speed, trig.sin);
    var center := trig.center(s.circle, parentCircle, s.overlap, bodyAngle.absolute + bodyAngle.relative + Compound(wriggle));
    var circle := Circle(s.circle.radius, center);
    s.(circle := circle,
       bodyAngle := bodyAngle,
       wriggle := wriggle,
       children := seq(|s.children|, k requires 0 <= k < |s.children| =>
         UpdateSegment(s.children[k], circle, bodyAngle.absolute, s.bodyAngle.absolute, interval, speed, trig)))
  }

  /** The number of segments in a tree. */
  function Size(s: Segment): nat
    decreases s
  {
    1 + SizeOf(s.children)
  }

  function SizeOf(cs: seq<Segment>): nat
    decreases cs
  {
    if cs == [] then 0 else Size(cs[0]) + SizeOf(cs[1..])
  }

  /** The circles of a tree in pre-order, the root's first. */
  function GetSegmentCircles(s: Segment): (r: seq<Circle>)
    ensures |r| == Size(s) && r[0] == s.circle
    decreases s
  {
    [s.circle] + CirclesOf(s.children)
  }

  function CirclesOf(cs: seq<Segment>): (r: seq<Circle>)
    ensures |r| == SizeOf(cs)
    decreases cs
  {
    if cs == [] then [] else GetSegmentCircles(cs[0]) + CirclesOf(cs[1..])
  }

  /** The primary segments reachable from the root through primary
      segments, in pre-order; empty when the root itself is not primary. */
  function GetBodySegments(s: Segment): (r: seq<Segment>)
    ensures !s.primary ==> r == []
    ensures s.primary ==> |r| >= 1 && r[0] == s
    ensures forall k :: 0 <= k < |r| ==> r[k].primary
    ensures |r| <= Size(s)
    decreases s
  {
    if !s.primary then [] else [s] + BodiesOf(s.children)
  }

  function BodiesOf(cs: seq<Segment>): (r: seq<Segment>)
    ensures forall k :: 0 <= k < |r| ==> r[k].primary
    ensures |r| <= SizeOf(cs)
    decreases cs
  {
    if cs == [] then [] else GetBodySegments(cs[0]) + BodiesOf(cs[1..])
  }

  /** A segment of the given radius at the origin with every angle zero,
      no wriggle, no overlap, not primary and without children. */
  function CreateDefaultSegment(radius: real, propagationInterval: real): (s: Segment)
    ensures s.circle == CreateDefaultCircle(radius)
    ensures s.bodyAngle == BodyAngle(0.0, 0.0, 0.0)
    ensures s.wriggle == [] && s.overlap == 0.0 && s.propagationInterval == propagationInterval
    ensures !s.primary && s.children == []
  {
    Segment(CreateDefaultCircle(radius), BodyAngle(0.0, 0.0, 0.0), ToWriggle([]), 0.0, propagationInterval, false, [])
  }

  /** A default segment drawn at the given relative angle whose overlap is
      its radius times the multiplier. */
  function CreateSegment(radius: real, angle: real, overlapMult: real, propagationInterval: real): (s: Segment)
    ensures s == CreateDefaultSegment(radius, propagationInterval).(
      bodyAngle := BodyAngle(0.0, 0.0, angle), overlap := radius * overlapMult)
    ensures s.overlap == s.circle.radius * overlapMult
  {
    var d := CreateDefaultSegment(radius, propagationInterval);
    d.(bodyAngle := d.bodyAngle.(relative := angle), overlap := radius * overlapMult)
  }

  /** Hydration and update keep the number of segments. */
  lemma {:induction false} SameShapeSize(a: Segment, b: Segment)
    requires SameShape(a, b)
    ensures Size(a) == Size(b)
    decreases a
  {
    SameShapeSizeOf(a.children, b.children);
  }

  lemma {:induction false} SameShapeSizeOf(as_: seq<Segment>, bs: seq<Segment>)
    requires |as_| == |bs| && forall k :: 0 <= k < |as_| ==> SameShape(as_[k], bs[k])
    ensures SizeOf(as_) == SizeOf(bs)
    decreases as_
  {
    if as_ != [] {
      SameShapeSize(as_[0], bs[0]);
      SameShapeSizeOf(as_[1..], bs[1..]);
    }
  }
}
