/** The composite segmentations, which make no segments of their own but
    fan a section's `next` out into branches: a mirrored pair, an even
    spread over a range, and an even spread round the whole circle
    (client/src/palamander/morphology/segmentation/segmentate-composite.ts). */
module Composites {
  import opened Wrappers
  import opened Num
  import opened Segments
  import opened Sections
  import opened Builders

  /** The mirror image of `angle` about the parent's relative angle. */
  function FlippedAngle(parent: Segment, angle: real): (a: real)
    ensures (a + angle) / 2.0 == parent.bodyAngle.relative
    ensures angle == parent.bodyAngle.relative ==> a == angle
  {
    parent.bodyAngle.relative - (angle - parent.bodyAngle.relative)
  }

  /** `pair`: without a next, nothing happens. Otherwise next is cleared and
      the branches are replaced by two clones of it, the second mirrored
      about the parent's relative angle, with its mirror flag flipped and,
      when the section mirrors, its offset half a cycle back. */
  function Pair(env: Env, parent: Segment, section: Section): (o: Outcome)
    ensures section.next.None? ==> o == Outcome([], section)
    ensures section.next.Some? ==>
      var next := env.passthru(section.next.value);
      var first := env.deepClone(next);
      && o.segments == []
      && o.section == section.(next := None, branches := o.section.branches)
      && |o.section.branches| == 2
      && o.section.branches[0] == first
      && o.section.branches[1] == first.(mirror := !next.mirror, angle := FlippedAngle(parent, next.angle),
                                          offset := if section.mirror then next.offset - PI else next.offset)
  {
    if section.next.None? then Outcome([], section)
    else
      var next := env.passthru(section.next.value);
      var flippedAngle := parent.bodyAngle.relative - (next.angle - parent.bodyAngle.relative);
      var secondOffset := if section.mirror then next.offset - PI else next.offset;
      var branches := [env.deepClone(next),
                       env.deepClone(next).(mirror := !next.mirror, angle := flippedAngle, offset := secondOffset)];
      Outcome([], section.(next := None, branches := branches))
  }

  /** Angle of branch i of `count` spread evenly over `range` around `center`. */
  function EqualAngle(center: real, range: real, count: int, i: int): real
    requires count > 1
  {
    center - range / 2.0 + i as real * (range / (count - 1) as real)
  }

  /** Offset of branch i: a fixed pseudo-random bump per index when the
      section does not mirror, the section's own offset when it does. */
  function EqualOffset(section: Section, next: Section, i: int): real {
    if !section.mirror then next.offset + ((29 * i) % 17) as real else section.offset
  }

  /** Branch i that `equal` pushes: a clone of next at its spread angle and offset. */
  function EqualBranch(env: Env, section: Section, next: Section, i: int): Section
    requires section.count > 1
  {
    env.deepClone(next).(angle := EqualAngle(next.angle, section.angle, section.count, i),
                         offset := EqualOffset(section, next, i))
  }

  /** `equal`: without a next, nothing happens. Otherwise next is cleared;
      a count of at most 1 hands next to `follow`; a larger count appends
      `count` clones of next to the branches, spread evenly over the
      section's angle. */
  method Equal(env: Env, section: Section) returns (o: Outcome)
    ensures section.next.None? ==> o == Outcome([], section)
    ensures section.next.Some? && section.count <= 1 ==>
      o == env.follow(section.(next := None), env.passthru(section.next.value))
    ensures section.next.Some? && section.count > 1 ==>
      var next := env.passthru(section.next.value);
      var n := |section.branches|;
      && o.segments == []
      && o.section == section.(next := None, branches := o.section.branches)
      && |o.section.branches| == n + section.count
      && o.section.branches[..n] == section.branches
      && forall i :: 0 <= i < section.count ==> o.section.branches[n + i] == EqualBranch(env, section, next, i)
  {
    if section.next.None? {
      return Outcome([], section);
    }
    var next := env.passthru(section.next.value);
    var cleared := section.(next := None);
    if section.count <= 1 {
      return env.follow(cleared, next);
    }
    var stagger := !section.mirror;
    var range := section.angle;
    var between := range / (section.count - 1) as real;
    var branches := section.branches;
    var i := 0;
    while i < section.count
      invariant 0 <= i <= section.count
      invariant |branches| == |section.branches| + i
      invariant branches[..|section.branches|] == section.branches
      invariant forall j :: 0 <= j < i ==> branches[|section.branches| + j] == EqualBranch(env, section, next, j)
    {
      var angle := next.angle - range / 2.0 + i as real * between;
      var offset := if stagger then next.offset + ((29 * i) % 17) as real else section.offset;
      var child := env.deepClone(next).(angle := angle, offset := offset);
      assert child == EqualBranch(env, section, next, i);
      ghost var prev := branches;
      branches := branches + [child];
      assert branches[..|section.branches|] == prev[..|section.branches|];
      assert forall j :: 0 <= j < i ==> branches[|section.branches| + j] == EqualBranch(env, section, next, j);
      i := i + 1;
    }
    o := Outcome([], cleared.(branches := branches));
  }

  /** The first branch sits half the range below next's angle, the last half
      the range above, and neighbours are `range / (count - 1)` apart. */
  lemma EqualSpread(center: real, range: real, count: int, i: int)
    requires count > 1
    ensures EqualAngle(center, range, count, 0) == center - range / 2.0
    ensures EqualAngle(center, range, count, count - 1) == center + range / 2.0
    ensures EqualAngle(center, range, count, i + 1) - EqualAngle(center, range, count, i) == range / (count - 1) as real
  {
    var between := range / (count - 1) as real;
    assert (count - 1) as real * between == range;
    assert (i + 1) as real * between == i as real * between + between;
  }

  /** The angle range `radial` hands on: the whole circle less one step. */
  function RadialRange(count: int): (r: real)
    requires count > 1
    ensures r == 360.0 - 360.0 / count as real
  {
    360.0 - 360.0 / count as real
  }

  /** The 'equal' section `radial` hands to `follow`: a branch of the section
      that keeps its count and mirror, spans the radial range, and carries
      next. */
  function RadialEqual(section: Section, next: Section): (e: Section)
    requires section.count > 1
    ensures e.kind == "equal" && e.count == section.count && e.mirror == section.mirror
    ensures e.angle == RadialRange(section.count) && e.next == Some(next) && e.branches == []
    ensures e.index == section.index && e.size == section.size && e.offset == section.offset
  {
    CreateBranch(section.(next := None), "equal").(angle := RadialRange(section.count), next := Some(next))
  }

  /** `radial`: without a next, nothing happens. Otherwise next is cleared;
      a count of at most 1 hands next to `follow`, a larger count hands it
      the 'equal' section that spreads next round the circle. */
  function Radial(env: Env, section: Section): (o: Outcome)
    ensures section.next.None? ==> o == Outcome([], section)
    ensures section.next.Some? && section.count <= 1 ==>
      o == env.follow(section.(next := None), env.passthru(section.next.value))
    ensures section.next.Some? && section.count > 1 ==>
      o == env.follow(section.(next := None), RadialEqual(section, env.passthru(section.next.value)))
  {
    if section.next.None? then Outcome([], section)
    else
      var next := env.passthru(section.next.value);
      if section.count <= 1 then env.follow(section.(next := None), next)
      else
        var range := 360.0 - 360.0 / section.count as real;
        var equal := CreateBranch(section.(next := None), "equal").(angle := range);
        env.follow(section.(next := None), equal.(next := Some(next)))
  }

  /** Radial spreads round the whole circle: once its 'equal' section is
      expanded, neighbouring branches are 360/count degrees apart, so the
      last lands one step short of a full turn from the first. */
  lemma {:induction false} RadialStep(env: Env, section: Section, next: Section, i: int)
    requires section.count > 1
    ensures var e := RadialEqual(section, next);
      EqualAngle(next.angle, e.angle, e.count, i + 1) - EqualAngle(next.angle, e.angle, e.count, i)
        == 360.0 / section.count as real
  {
    var n := section.count as real;
    var e := RadialEqual(section, next);
    EqualSpread(next.angle, e.angle, e.count, i);
    assert e.angle == 360.0 - 360.0 / n;
    assert (n - 1.0) * (360.0 / n) == 360.0 - 360.0 / n;
    assert e.angle / (n - 1.0) == 360.0 / n;
    assert (e.count - 1) as real == n - 1.0;
  }
}
