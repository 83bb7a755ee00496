/** The lower-level part builders: limbs, tails, feelers and the like that
    hang off a parent segment
    (client/src/palamander/morphology/segmentation/segmentate-part.ts).
    `parent` is the id of the parent segment in the arena; builders that
    index into what the unseen `toSegments` returned fail with a TypeError
    when it returned too few segments. */
module Parts {
  import opened Wrappers
  import opened Num
  import opened WriggleSpecs
  import opened WriggleGradients
  import opened Wriggles
  import opened Segments
  import opened Sections
  import opened SegmentStore
  import opened Segmentations
  import opened Builders

  const TypeError: string := "TypeError"

  // ---------------------------------------------------------------- claw

  function ClawUpperArm(parent: Segment, section: Section): Segmentation {
    CreateSegmentation(NoFields.(count := Some(3), radius := Some(section.size * 0.4),
      angle := Some(parent.bodyAngle.relative + 105.0 * Dir(section.mirror)), overlapMult := Some(0.3)))
  }

  function ClawLowerArm(parent: Segment, section: Section): Segmentation {
    var upper := ClawUpperArm(parent, section);
    upper.(angle := upper.angle + 45.0 * Dir(section.mirror))
  }

  function ClawWave(section: Section): WaveSpec {
    Wave(30.0, DELIBERATE, section.offset, Some(0.0))
  }

  /** The two pincers: big along the lower arm, small 40 degrees further round. */
  function ClawBig(parent: Segment, section: Section): Segment {
    CreateSegment(section.size * 0.7, ClawLowerArm(parent, section).angle, 0.2, 100.0)
  }

  function ClawSmall(parent: Segment, section: Section): Segment {
    CreateSegment(section.size * 0.6, ClawLowerArm(parent, section).angle + 40.0 * Dir(section.mirror), 0.2, 100.0)
  }

  /** `claw`: a 3-segment rotating upper arm off the parent, a lower arm
      from `toSegments` off the upper arm's third segment, and the big and
      small pincers pushed, in that order, onto the lower arm's third
      segment. Returns the upper arm followed by the lower arm; fails when
      the lower arm has fewer than three segments. */
  method Claw(env: Env, store: Store, parent: SegId, section: Section) returns (r: Result<seq<SegId>>)
    requires Sound(env) && parent < |store.nodes|
    modifies store
    ensures var b := old(|store.nodes|);
      var p := old(store.nodes[parent].seg);
      var arm := AppendChain(old(store.nodes), parent, Chain(ClawUpperArm(p, section), RotationGenerator(ClawWave(section))));
      var lower := env.toSegments(arm, b + 2, ClawLowerArm(p, section));
      && (r.Ok? <==> |lower.segments| >= 3)
      && (r.Err? ==> r.error == TypeError && store.nodes == lower.nodes)
      && (r.Ok? ==>
            var wrist := lower.segments[2];
            && r.value == ChainIds(b, 3) + lower.segments
            && store.nodes == Attach(Attach(lower.nodes, wrist, ClawBig(p, section)), wrist, ClawSmall(p, section)))
  {
    var p := store.nodes[parent].seg;
    ClawArmCount(p, section);
    r := PincerArm(env, store, parent, ClawUpperArm(p, section), ClawWave(section), ClawLowerArm(p, section),
                   ClawBig(p, section), ClawSmall(p, section));
  }

  /** The upper arm of a claw has three segments. */
  lemma ClawArmCount(p: Segment, section: Section)
    ensures Count(ClawUpperArm(p, section)) == 3
  {
  }

  /** The steps of `claw` for any arm segmentations and pincers: a rotating
      upper arm off the parent, a lower arm from `toSegments` off its third
      segment, then the two pincers pushed onto the lower arm's third. */
  method PincerArm(env: Env, store: Store, parent: SegId, upper: Segmentation, wave: WaveSpec,
                   lowerSeg: Segmentation, big: Segment, small: Segment) returns (r: Result<seq<SegId>>)
    requires Sound(env) && parent < |store.nodes| && Count(upper) == 3
    modifies store
    ensures var b := old(|store.nodes|);
      var arm := AppendChain(old(store.nodes), parent, Chain(upper, RotationGenerator(wave)));
      var lower := env.toSegments(arm, b + 2, lowerSeg);
      && (r.Ok? <==> |lower.segments| >= 3)
      && (r.Err? ==> r.error == TypeError && store.nodes == lower.nodes)
      && (r.Ok? ==>
            var wrist := lower.segments[2];
            && r.value == ChainIds(b, 3) + lower.segments
            && store.nodes == Attach(Attach(lower.nodes, wrist, big), wrist, small))
  {
    var upperArm := CreateRotation(store, parent, upper, wave);
    ChainIdsAt(old(|store.nodes|), 3, 2);
    var lowerArm := ToSegments(env, store, upperArm[2], lowerSeg);
    if |lowerArm| < 3 {
      return Err(TypeError);
    }
    var _ := store.AddChild(lowerArm[2], big);
    var _ := store.AddChild(lowerArm[2], small);
    r := Ok(upperArm + lowerArm);
  }

  // ---------------------------------------------------------------- curl

  function CurlSegmentation(parent: Segment, section: Section): Segmentation {
    CreateSegmentation(NoFields.(count := Some(section.count), angle := Some(section.angle))).(
      radius := parent.circle.radius * section.size / 100.0, taperFactor := 0.9, overlapMult := 0.5,
      curveRange := Div(360.0, section.count as real))
  }

  function CurlWave(section: Section): WaveSpec {
    WaveSpec(Div(120.0, section.count as real), DELIBERATE, None, Some(section.offset), None)
  }

  /** `curl`: `toSegments` of a curling segmentation whose radius is the
      section's size in percent of the parent's, tapering by 0.9, with a
      curve range of a full turn shared out over the count. */
  method Curl(env: Env, store: Store, parent: SegId, section: Section) returns (segments: seq<SegId>)
    requires Sound(env) && parent < |store.nodes|
    modifies store
    ensures var p := old(store.nodes[parent].seg);
      var s := env.mixCurl(CurlSegmentation(p, section), CurlWave(section));
      store.nodes == env.toSegments(old(store.nodes), parent, s).nodes
      && segments == env.toSegments(old(store.nodes), parent, s).segments
  {
    var p := store.nodes[parent].seg;
    segments := ToSegments(env, store, parent, env.mixCurl(CurlSegmentation(p, section), CurlWave(section)));
  }

  /** The curl segmentation takes its radius from the parent and its count
      from the section; section size 100 keeps the parent's radius. */
  lemma CurlRadius(parent: Segment, section: Section)
    ensures var s := CurlSegmentation(parent, section);
      s.radius == CalculateRadius(parent, section) && s.count == section.count && s.angle == section.angle
      && (section.count != 0 ==> s.curveRange * section.count as real == 360.0)
  {
  }

  // -------------------------------------------------------------- feeler

  function FeelerSegmentation(parent: Segment, section: Section): Segmentation {
    CreateSegmentation(NoFields.(count := Some(5), radius := Some(parent.circle.radius * 20.0 / 100.0),
      taperFactor := Some(0.9), angle := Some(section.angle), overlapMult := Some(0.2)))
  }

  /** `feeler`: `toSegments` of a 5-segment feeler a fifth of the parent's radius. */
  method Feeler(env: Env, store: Store, parent: SegId, section: Section) returns (segments: seq<SegId>)
    requires Sound(env) && parent < |store.nodes|
    modifies store
    ensures var s := FeelerSegmentation(old(store.nodes[parent].seg), section);
      store.nodes == env.toSegments(old(store.nodes), parent, s).nodes
      && segments == env.toSegments(old(store.nodes), parent, s).segments
  {
    segments := ToSegments(env, store, parent, FeelerSegmentation(store.nodes[parent].seg, section));
  }

  // ----------------------------------------------------------- fish-tail

  function FishTailSegmentation(section: Section): Segmentation {
    CreateSegmentation(NoFields.(count := Some(section.count), radius := Some(section.size),
      taperFactor := Some(0.88), overlapMult := Some(0.6), curveRange := Some(MUSCLEY)))
  }

  function FishTailWave(section: Section): WaveSpec {
    Wave(Div(30.0, section.count as real), DELIBERATE, section.offset, Some(4.0))
  }

  /** A fin at 30 degrees to side `i`, curling one index past the tail. */
  function Fin(section: Section, i: real): Segment {
    CreateSegment(section.size * 0.5, 30.0 * i, 0.5, 100.0).(
      wriggle := ToWriggle([CreateCurlSpec(FishTailWave(section), section.count + 1)]))
  }

  /** `fish-tail`: `toSegments` of a tapering tail, then fins at −30 and +30
      degrees, in that order, pushed onto segment `count − 1` of the tail;
      fails when the tail has no such segment. */
  method FishTail(env: Env, store: Store, parent: SegId, section: Section) returns (r: Result<seq<SegId>>)
    requires Sound(env) && parent < |store.nodes|
    modifies store
    ensures var tail := env.toSegments(old(store.nodes), parent, env.mixCurl(FishTailSegmentation(section), FishTailWave(section)));
      && (r.Ok? <==> 1 <= section.count <= |tail.segments|)
      && (r.Err? ==> r.error == TypeError && store.nodes == tail.nodes)
      && (r.Ok? ==>
            var end := tail.segments[section.count - 1];
            && r.value == tail.segments
            && store.nodes == Attach(Attach(tail.nodes, end, Fin(section, -1.0)), end, Fin(section, 1.0)))
  {
    var count := section.count;
    var wave := FishTailWave(section);
    var tail := ToSegments(env, store, parent, env.mixCurl(FishTailSegmentation(section), wave));
    if !(0 <= count - 1 < |tail|) {
      return Err(TypeError);
    }
    var _ := store.AddChild(tail[count - 1], CreateSegment(section.size * 0.5, 30.0 * -1.0, 0.5, 100.0).(
      wriggle := ToWriggle([CreateCurlSpec(wave, count + 1)])));
    var _ := store.AddChild(tail[count - 1], CreateSegment(section.size * 0.5, 30.0 * 1.0, 0.5, 100.0).(
      wriggle := ToWriggle([CreateCurlSpec(wave, count + 1)])));
    r := Ok(tail);
  }

  // ------------------------------------------------------------- flicker

  function FlickerSegmentation(parent: Segment, section: Section): Segmentation {
    CreateSegmentation(NoFields.(count := Some(7), radius := Some(parent.circle.radius * 15.0 / 100.0),
      taperFactor := Some(0.95), angle := Some(section.angle + 180.0), overlapMult := Some(0.75)))
  }

  function FlickerGradient(section: Section): PartialGradient {
    PartialGradient(Wave(30.0, FRENETIC / 2.0, section.offset, Some(0.0)), Some(7.0), Some(0.0), None, None)
  }

  /** One fork of the tongue, created from id `at` on: a segment whose only
      child has an only child, at 140, 140 and 130 degrees to side `i`. */
  function Fork(parent: Segment, i: real, at: SegId): (f: seq<Node>)
    ensures |f| == 3 && f[0].children == [at + 1] && f[1].children == [at + 2] && f[2].children == []
  {
    var r := parent.circle.radius * 8.0 / 100.0;
    [Node(CreateSegment(r, 140.0 * i, 0.75, 100.0), [at + 1]),
     Node(CreateSegment(r, 140.0 * i, 0.75, 100.0), [at + 2]),
     Node(CreateSegment(r, 130.0 * i, 0.75, 100.0), [])]
  }

  /** A fork created and pushed, at its end, onto `tip`. */
  method AddFork(store: Store, parentSeg: Segment, tip: SegId, i: real) returns (fork: SegId)
    requires tip < |store.nodes|
    modifies store
    ensures fork == old(|store.nodes|)
    ensures store.nodes == Link(old(store.nodes) + Fork(parentSeg, i, fork), tip, fork)
  {
    var r := parentSeg.circle.radius * 8.0 / 100.0;
    var f := Fork(parentSeg, i, |store.nodes|);
    fork := store.Add(CreateSegment(r, 140.0 * i, 0.75, 100.0));
    LinkLast(old(store.nodes), Node(f[0].seg, []), fork + 1);
    var mid := store.AddChild(fork, CreateSegment(r, 140.0 * i, 0.75, 100.0));
    assert store.nodes == old(store.nodes) + [f[0], Node(f[1].seg, [])];
    LinkLast(old(store.nodes) + [f[0]], Node(f[1].seg, []), mid + 1);
    assert old(store.nodes) + [f[0]] + [f[1]] == old(store.nodes) + [f[0], f[1]];
    var _ := store.AddChild(mid, CreateSegment(r, 130.0 * i, 0.75, 100.0));
    assert store.nodes == old(store.nodes) + f;
    store.Push(tip, fork);
  }

  /** `flicker`: `toSegments` of a 7-segment squiggling tongue, then two
      three-segment forks (side −1, then side +1) pushed onto its seventh
      segment; fails when the tongue has fewer than seven segments. */
  method Flicker(env: Env, store: Store, parent: SegId, section: Section) returns (r: Result<seq<SegId>>)
    requires Sound(env) && parent < |store.nodes|
    modifies store
    ensures var p := old(store.nodes[parent].seg);
      var tongue := env.toSegments(old(store.nodes), parent,
                                   env.mixSquiggle(FlickerSegmentation(p, section), FlickerGradient(section)));
      && (r.Ok? <==> |tongue.segments| >= 7)
      && (r.Err? ==> r.error == TypeError && store.nodes == tongue.nodes)
      && (r.Ok? ==>
            var tip := tongue.segments[6];
            var n := |tongue.nodes|;
            var first := Link(tongue.nodes + Fork(p, -1.0, n), tip, n);
            && r.value == tongue.segments
            && store.nodes == Link(first + Fork(p, 1.0, n + 3), tip, n + 3)
            && store.nodes[tip].children == tongue.nodes[tip].children + [n, n + 3])
  {
    var p := store.nodes[parent].seg;
    var flicker := ToSegments(env, store, parent, env.mixSquiggle(FlickerSegmentation(p, section), FlickerGradient(section)));
    if |flicker| < 7 {
      return Err(TypeError);
    }
    var _ := AddFork(store, p, flicker[6], -1.0);
    var _ := AddFork(store, p, flicker[6], 1.0);
    r := Ok(flicker);
  }

  // ------------------------------------------------------------- flipper

  const FlipperSizes: seq<real> := [40.0, 50.0, 60.0, 70.0, 40.0, 20.0]

  function FlipperWave(section: Section): WaveSpec {
    Wave(20.0, RELAXED, section.offset, Some(4.0))
  }

  /** The six flipper segments as `sizes.map` creates them. */
  function FlipperShapes(section: Section): (segs: seq<Segment>)
    ensures |segs| == 6
  {
    var dir := Dir(section.mirror);
    seq(6, i requires 0 <= i < 6 =>
      CreateSegment(section.size * FlipperSizes[i] / 100.0, section.angle * dir - i as real * (15.0 * dir), 1.2, 100.0))
  }

  /** The flipper segments once the loop has given each its rotation. */
  function FlipperChain(section: Section): (segs: seq<Segment>)
    ensures |segs| == 6
  {
    seq(6, i requires 0 <= i < 6 => FlipperShapes(section)[i].(wriggle := ToWriggle([CreateRotationSpec(FlipperWave(section))])))
  }

  /** `flipper`: six segments chained off the parent, each the only new
      child of the one before. */
  method Flipper(store: Store, parent: SegId, section: Section) returns (segments: seq<SegId>)
    requires parent < |store.nodes|
    modifies store
    ensures store.nodes == AppendChain(old(store.nodes), parent, FlipperChain(section))
    ensures segments == ChainIds(old(|store.nodes|), 6)
  {
    var flipper := FlipperShapes(section);
    ghost var start := store.nodes;
    ghost var chain := FlipperChain(section);
    var curr := parent;
    segments := [];
    var i := 0;
    while i < |flipper|
      invariant 0 <= i <= 6
      invariant store.nodes == AppendChain(start, parent, chain[..i])
      invariant curr == Cursor(|start|, parent, i)
      invariant segments == ChainIds(|start|, i)
    {
      var waveSpec := Wave(20.0, RELAXED, section.offset, Some(4.0));
      var segment := flipper[i].(wriggle := ToWriggle([CreateRotationSpec(waveSpec)]));
      AppendChainStep(start, parent, chain, i);
      curr := store.AddChild(curr, segment);
      segments := segments + [curr];
      i := i + 1;
    }
    assert chain[..6] == chain;
  }

  /** Flipper segment i: radius `sizes[i]` percent of the section size, drawn
      at the section angle turned back by 15 degrees per step (both
      mirrored), overlapping by 1.2 radii, with one range-20 rotation. */
  lemma FlipperSegment(section: Section, i: int)
    requires 0 <= i < 6
    ensures var s := FlipperChain(section)[i];
      && s.circle.radius == section.size * FlipperSizes[i] / 100.0
      && s.bodyAngle.relative == Dir(section.mirror) * (section.angle - 15.0 * i as real)
      && s.overlap == 1.2 * s.circle.radius
      && |s.wriggle| == 1 && s.wriggle[0] == ToWriggleComponent(CreateRotationSpec(FlipperWave(section)))
      && s.wriggle[0].range == 20.0
  {
    var dir := Dir(section.mirror);
    assert section.angle * dir - i as real * (15.0 * dir) == dir * (section.angle - 15.0 * i as real);
  }

  // ------------------------------------------------------------ frog-leg

  function FrogUpperLeg(parent: Segment, section: Section): Segmentation {
    CreateSegmentation(NoFields.(count := Some(3), radius := Some(parent.circle.radius), taperFactor := Some(0.85),
      angle := Some(parent.bodyAngle.relative + 75.0 * Dir(section.mirror)), overlapMult := Some(0.3),
      curveRange := Some(2.0)))
  }

  function FrogLowerLeg(parent: Segment, section: Section): Segmentation {
    FrogUpperLeg(parent, section).(radius := parent.circle.radius * 0.7,
                                   angle := parent.bodyAngle.relative + 10.0 * Dir(section.mirror))
  }

  function FrogUpperWave(section: Section): WaveSpec {
    Wave(45.0, RELAXED, section.offset, Some(4.0))
  }

  function FrogLowerWave(section: Section): WaveSpec {
    FrogUpperWave(section).(range := 20.0)
  }

  /** The foot created from id `at` on: a pad with two toes (side +1, then
      side −1), each toe with exactly one child. */
  function FrogFoot(parent: Segment, section: Section, at: SegId): (f: seq<Node>)
    ensures |f| == 5 && f[0].children == [at + 1, at + 3]
    ensures f[1].children == [at + 2] && f[3].children == [at + 4] && f[2].children == [] && f[4].children == []
  {
    var pad := CreateSegment(parent.circle.radius * 0.6, parent.bodyAngle.relative + 10.0 * Dir(section.mirror), 0.5, 100.0);
    var toe1 := CreateSegment(pad.circle.radius, pad.bodyAngle.relative + 10.0, 0.5, 100.0);
    var toe2 := CreateSegment(pad.circle.radius, pad.bodyAngle.relative - 10.0, 0.5, 100.0);
    [Node(pad, [at + 1, at + 3]),
     Node(toe1, [at + 2]), Node(CreateSegment(toe1.circle.radius, toe1.bodyAngle.relative, 0.5, 100.0), []),
     Node(toe2, [at + 4]), Node(CreateSegment(toe2.circle.radius, toe2.bodyAngle.relative, 0.5, 100.0), [])]
  }

  /** The pad and toes, created in the order the source creates them. */
  method AddFrogFoot(store: Store, parentSeg: Segment, section: Section) returns (pad: SegId)
    modifies store
    ensures pad == old(|store.nodes|) && store.nodes == old(store.nodes) + FrogFoot(parentSeg, section, pad)
  {
    var padSeg := CreateSegment(parentSeg.circle.radius * 0.6, parentSeg.bodyAngle.relative + 10.0 * Dir(section.mirror), 0.5, 100.0);
    pad := store.Add(padSeg);
    var toe1 := AddToe(store, padSeg, 1.0);
    store.Push(pad, toe1);
    var toe2 := AddToe(store, padSeg, -1.0);
    store.Push(pad, toe2);
    ghost var t1 := CreateSegment(padSeg.circle.radius, padSeg.bodyAngle.relative + 10.0 * 1.0, 0.5, 100.0);
    ghost var t2 := CreateSegment(padSeg.circle.radius, padSeg.bodyAngle.relative + 10.0 * -1.0, 0.5, 100.0);
    FootLinks(old(store.nodes), padSeg, t1, CreateSegment(t1.circle.radius, t1.bodyAngle.relative, 0.5, 100.0),
              t2, CreateSegment(t2.circle.radius, t2.bodyAngle.relative, 0.5, 100.0));
  }

  /** A pad with a toe of two segments, pushed onto the pad, and then a
      second toe pushed onto it: the pad's children are the two toes. */
  lemma FootLinks(start: seq<Node>, padSeg: Segment, t1: Segment, c1: Segment, t2: Segment, c2: Segment)
    ensures var n := |start|;
      var withToe := Link(start + [Node(padSeg, [])] + [Node(t1, [n + 2]), Node(c1, [])], n, n + 1);
      Link(withToe + [Node(t2, [n + 4]), Node(c2, [])], n, n + 3)
      == start + [Node(padSeg, [n + 1, n + 3]), Node(t1, [n + 2]), Node(c1, []), Node(t2, [n + 4]), Node(c2, [])]
  {
    var n := |start|;
    PushOnPad(start, padSeg, [], [Node(t1, [n + 2]), Node(c1, [])], n + 1);
    assert [] + [n + 1] == [n + 1];
    var withToe := start + [Node(padSeg, [n + 1])] + [Node(t1, [n + 2]), Node(c1, [])];
    assert withToe + [Node(t2, [n + 4]), Node(c2, [])]
        == start + [Node(padSeg, [n + 1])] + [Node(t1, [n + 2]), Node(c1, []), Node(t2, [n + 4]), Node(c2, [])];
    PushOnPad(start, padSeg, [n + 1], [Node(t1, [n + 2]), Node(c1, []), Node(t2, [n + 4]), Node(c2, [])], n + 3);
    assert [n + 1] + [n + 3] == [n + 1, n + 3];
  }

  /** Pushing onto the pad, created just before `extra`, gives it one more
      child and keeps everything else. */
  lemma PushOnPad(start: seq<Node>, padSeg: Segment, kids: seq<SegId>, extra: seq<Node>, child: SegId)
    ensures Link(start + [Node(padSeg, kids)] + extra, |start|, child) == start + [Node(padSeg, kids + [child])] + extra
  {
    LinkBefore(start + [Node(padSeg, kids)], extra, |start|, child);
    LinkLast(start, Node(padSeg, kids), child);
  }

  /** A toe 10 degrees to side `toeDir` off the pad, with one child. */
  method AddToe(store: Store, pad: Segment, toeDir: real) returns (toe: SegId)
    modifies store
    ensures var t := CreateSegment(pad.circle.radius, pad.bodyAngle.relative + 10.0 * toeDir, 0.5, 100.0);
      toe == old(|store.nodes|)
      && store.nodes == old(store.nodes) + [Node(t, [toe + 1]), Node(CreateSegment(t.circle.radius, t.bodyAngle.relative, 0.5, 100.0), [])]
  {
    var t := CreateSegment(pad.circle.radius, pad.bodyAngle.relative + 10.0 * toeDir, 0.5, 100.0);
    toe := store.Add(t);
    LinkLast(old(store.nodes), Node(t, []), toe + 1);
    var _ := store.AddChild(toe, CreateSegment(t.circle.radius, t.bodyAngle.relative, 0.5, 100.0));
  }

  /** The arena after the upper and lower leg of a frog leg. */
  function FrogLegs(nodes: seq<Node>, parent: SegId, section: Section): (r: seq<Node>)
    requires parent < |nodes|
    ensures |r| == |nodes| + 6
  {
    var p := nodes[parent].seg;
    var upper := AppendChain(nodes, parent, Chain(FrogUpperLeg(p, section), RotationGenerator(FrogUpperWave(section))));
    AppendChain(upper, |nodes| + 2, Chain(FrogLowerLeg(p, section), RotationGenerator(FrogLowerWave(section))))
  }

  /** Both chains of a frog leg have three segments. */
  lemma FrogLegCounts(p: Segment, section: Section)
    ensures Count(FrogUpperLeg(p, section)) == 3 && Count(FrogLowerLeg(p, section)) == 3
  {
  }

  /** `frog-leg`: a 3-segment rotating upper leg off the parent, a
      3-segment rotating lower leg off its third segment, and the foot
      pushed onto the lower leg's third segment. Returns the seven segments
      upper leg, lower leg, pad. */
  method FrogLeg(store: Store, parent: SegId, section: Section) returns (segments: seq<SegId>)
    requires parent < |store.nodes|
    modifies store
    ensures var b := old(|store.nodes|);
      && store.nodes == Link(FrogLegs(old(store.nodes), parent, section) + FrogFoot(old(store.nodes[parent].seg), section, b + 6), b + 5, b + 6)
      && segments == ChainIds(b, 7)
  {
    var p := store.nodes[parent].seg;
    FrogLegCounts(p, section);
    segments := FootedLeg(store, parent, FrogUpperLeg(p, section), FrogUpperWave(section),
                          FrogLowerLeg(p, section), FrogLowerWave(section), p, section);
  }

  /** The steps of `frog-leg` for any 3-segment leg segmentations: the two
      rotating chains, then the foot created and pushed onto the lower
      chain's third segment. */
  method FootedLeg(store: Store, parent: SegId, upper: Segmentation, upperWave: WaveSpec,
                   lower: Segmentation, lowerWave: WaveSpec, p: Segment, section: Section) returns (segments: seq<SegId>)
    requires parent < |store.nodes| && Count(upper) == 3 && Count(lower) == 3
    modifies store
    ensures var b := old(|store.nodes|);
      var legs := AppendChain(AppendChain(old(store.nodes), parent, Chain(upper, RotationGenerator(upperWave))),
                              b + 2, Chain(lower, RotationGenerator(lowerWave)));
      && store.nodes == Link(legs + FrogFoot(p, section, b + 6), b + 5, b + 6)
      && segments == ChainIds(b, 7)
  {
    ghost var b := |store.nodes|;
    var upperLeg, lowerLeg := LegChains(store, parent, upper, upperWave, lower, lowerWave);
    ChainIdsAt(b + 3, 3, 2);
    var pad := AddFootOn(store, lowerLeg[2], p, section);
    segments := upperLeg + lowerLeg + [pad];
    ChainIdsSplit(b);
  }

  /** Two 3-segment rotating chains: the upper off the parent, the lower
      off the upper's third segment; the two runs of ids are returned. */
  method LegChains(store: Store, parent: SegId, upper: Segmentation, upperWave: WaveSpec,
                   lower: Segmentation, lowerWave: WaveSpec) returns (upperLeg: seq<SegId>, lowerLeg: seq<SegId>)
    requires parent < |store.nodes| && Count(upper) == 3 && Count(lower) == 3
    modifies store
    ensures store.nodes == AppendChain(AppendChain(old(store.nodes), parent, Chain(upper, RotationGenerator(upperWave))),
                                       old(|store.nodes|) + 2, Chain(lower, RotationGenerator(lowerWave)))
    ensures upperLeg == ChainIds(old(|store.nodes|), 3) && lowerLeg == ChainIds(old(|store.nodes|) + 3, 3)
  {
    upperLeg := CreateRotation(store, parent, upper, upperWave);
    ChainIdsAt(old(|store.nodes|), 3, 2);
    lowerLeg := CreateRotation(store, upperLeg[2], lower, lowerWave);
  }

  /** The foot of a frog leg created and pushed onto the end of the lower
      leg. */
  method AddFootOn(store: Store, lowerEnd: SegId, p: Segment, section: Section) returns (pad: SegId)
    requires lowerEnd < |store.nodes|
    modifies store
    ensures pad == old(|store.nodes|)
    ensures store.nodes == Link(old(store.nodes) + FrogFoot(p, section, pad), lowerEnd, pad)
  {
    pad := AddFrogFoot(store, p, section);
    store.Push(lowerEnd, pad);
  }

  lemma ChainIdsSplit(b: nat)
    ensures ChainIds(b, 3) + ChainIds(b + 3, 3) + [b + 6] == ChainIds(b, 7)
  {
    ChainIdsAppend(b, 3, 3);
    ChainIdsAppend(b, 6, 1);
  }

  // ---------------------------------------------------------------- hair

  function HairSegmentation(parent: Segment, section: Section): Segmentation {
    CreateSegmentation(NoFields.(count := Some(section.count), radius := Some(parent.circle.radius * section.size / 100.0),
      angle := Some(section.angle), overlapMult := Some(1.25), curveRange := Some(20.0)))
  }

  /** `hair`: `toSegments` of a segmentation that curls (range 30) and then
      rotates (range 5). */
  method Hair(env: Env, store: Store, parent: SegId, section: Section) returns (segments: seq<SegId>)
    requires Sound(env) && parent < |store.nodes|
    modifies store
    ensures var s := env.mixRotation(env.mixCurl(HairSegmentation(old(store.nodes[parent].seg), section),
                                                 WaveSpec(30.0, DELIBERATE, None, Some(section.offset), None)),
                                     WaveSpec(5.0, RELAXED, None, Some(section.offset), None));
      store.nodes == env.toSegments(old(store.nodes), parent, s).nodes
      && segments == env.toSegments(old(store.nodes), parent, s).segments
  {
    var rotationWave := WaveSpec(5.0, RELAXED, None, Some(section.offset), None);
    var curlWave := WaveSpec(30.0, DELIBERATE, None, Some(section.offset), None);
    var wriggling := env.mixRotation(env.mixCurl(HairSegmentation(store.nodes[parent].seg, section), curlWave), rotationWave);
    segments := ToSegments(env, store, parent, wriggling);
  }

  // ------------------------------------------------------------ mandible

  /** Mandibles curve further the way they already point. */
  function MandibleCurve(angle: real): (c: real)
    ensures angle < 0.0 <==> c == -10.0
    ensures angle >= 0.0 <==> c == 10.0
  {
    if angle < 0.0 then -10.0 else 10.0
  }

  function MandibleSegmentation(parent: Segment, section: Section): Segmentation {
    CreateSegmentation(NoFields.(count := Some(section.count), radius := Some(parent.circle.radius * section.size / 100.0),
      taperFactor := Some(0.8), angle := Some(section.angle), curve := Some(MandibleCurve(section.angle))))
  }

  function MandibleWave(section: Section): WaveSpec {
    Wave(5.0, DELIBERATE, section.offset, Some(0.0))
  }

  /** `mandible`: a rotating chain off the parent that curves 10 degrees per
      segment away from zero. */
  method Mandible(store: Store, parent: SegId, section: Section) returns (segments: seq<SegId>)
    requires parent < |store.nodes|
    modifies store
    ensures var s := MandibleSegmentation(old(store.nodes[parent].seg), section);
      store.nodes == AppendChain(old(store.nodes), parent, Chain(s, RotationGenerator(MandibleWave(section))))
      && segments == ChainIds(old(|store.nodes|), Count(s))
  {
    segments := CreateRotation(store, parent, MandibleSegmentation(store.nodes[parent].seg, section), MandibleWave(section));
  }

  /** Segment k of a mandible is drawn at the section angle plus k curves,
      so it points 10·k degrees further from zero than the section does. */
  lemma MandibleBends(parent: Segment, section: Section, k: nat)
    ensures var seg := ChainSegment(MandibleSegmentation(parent, section), RotationGenerator(MandibleWave(section)), k);
      && seg.bodyAngle.relative == section.angle + k as real * MandibleCurve(section.angle)
      && Abs(seg.bodyAngle.relative) == Abs(section.angle) + 10.0 * k as real
  {
    ChainSegmentFields(MandibleSegmentation(parent, section), RotationGenerator(MandibleWave(section)), k);
  }

  // ---------------------------------------------------------- monkey-arm

  function MonkeyUpperArm(section: Section): Segmentation {
    CreateSegmentation(NoFields.(count := Some(2), radius := Some(section.size * 0.45), taperFactor := Some(0.9),
      angle := Some(75.0 * Dir(section.mirror)), overlapMult := Some(0.8)))
  }

  function MonkeyForearm(section: Section): Segmentation {
    CreateSegmentation(NoFields.(count := Some(3), radius := Some(section.size * 0.45), taperFactor := Some(0.9),
      angle := Some(-40.0 * Dir(section.mirror)), overlapMult := Some(0.8)))
  }

  function MonkeyUpperWave(section: Section): WaveSpec {
    WaveSpec(45.0, DELIBERATE, None, Some(section.offset), None)
  }

  /** The forearm swings half a cycle behind the upper arm. */
  function MonkeyForearmWave(section: Section): WaveSpec {
    WaveSpec(20.0, DELIBERATE, None, Some(section.offset + PI), None)
  }

  function Pec(section: Section): Segment {
    CreateSegment(section.size * 0.75, 70.0 * Dir(section.mirror), 1.0, 100.0)
  }

  function Shoulder(section: Section): Segment {
    CreateSegment(section.size * 0.7, 130.0 * Dir(section.mirror), 0.6, 100.0)
  }

  /** The arena of a monkey arm before the fist is reshaped. */
  function MonkeyArmBuilt(nodes: seq<Node>, parent: SegId, section: Section): (r: seq<Node>)
    requires parent < |nodes|
    ensures |r| == |nodes| + 7
  {
    var b := |nodes|;
    var withShoulder := Attach(Attach(nodes, parent, Pec(section)), b, Shoulder(section));
    var upper := AppendChain(withShoulder, b + 1, Chain(MonkeyUpperArm(section), RotationGenerator(MonkeyUpperWave(section))));
    AppendChain(upper, b + 3, Chain(MonkeyForearm(section), RotationGenerator(MonkeyForearmWave(section))))
  }

  /** `monkey-arm`: the parent gains only the pec; the shoulder hangs off
      the pec, a 2-segment upper arm off the shoulder and a 3-segment
      forearm off the upper arm's second segment. The last forearm segment
      becomes a fist of radius 0.6·size and overlap 0.3·size. Returns all
      seven segments in that order. */
  method MonkeyArm(store: Store, parent: SegId, section: Section) returns (segments: seq<SegId>)
    requires parent < |store.nodes|
    modifies store
    ensures var b := old(|store.nodes|);
      var built := MonkeyArmBuilt(old(store.nodes), parent, section);
      && store.nodes == built[b + 6 := Node(built[b + 6].seg.(circle := built[b + 6].seg.circle.(radius := section.size * 0.6),
                                                              overlap := 0.3 * section.size), built[b + 6].children)]
      && segments == ChainIds(b, 7)
  {
    ghost var b := |store.nodes|;
    var pec := store.AddChild(parent, Pec(section));
    var shoulder := store.AddChild(pec, Shoulder(section));
    var upperArm := CreateRotation(store, shoulder, MonkeyUpperArm(section), MonkeyUpperWave(section));
    ChainIdsAt(b + 2, 2, 1);
    var forearm := CreateRotation(store, upperArm[1], MonkeyForearm(section), MonkeyForearmWave(section));
    ChainIdsAt(b + 4, 3, 2);
    var fist := store.nodes[forearm[2]].seg;
    store.SetSegment(forearm[2], fist.(circle := fist.circle.(radius := section.size * 0.6), overlap := 0.3 * section.size));
    segments := [pec, shoulder] + upperArm + forearm;
    MonkeyIds(b);
  }

  lemma MonkeyIds(b: nat)
    ensures [b, b + 1] + ChainIds(b + 2, 2) + ChainIds(b + 4, 3) == ChainIds(b, 7)
  {
    ChainIdsAppend(b, 2, 2);
    ChainIdsAppend(b, 4, 3);
  }

  // --------------------------------------------------------- noodle-limb

  function NoodleLimbSegmentation(parent: Segment, section: Section): Segmentation {
    CreateSegmentation(NoFields.(count := Some(section.count), radius := Some(parent.circle.radius * section.size / 100.0),
      taperFactor := Some(0.9), angle := Some(section.angle), curveRange := Some(SQUIGGLY)))
  }

  /** A squiggle that does not grow along the limb and tucks towards 0 by half. */
  function NoodleLimbGradient(section: Section): PartialGradient {
    PartialGradient(Wave(10.0, RELAXED, section.offset, Some(4.0)), None, None, Some(0.0),
                    Some(SuppressionGradient(None, Some(0.0), Some(0.5))))
  }

  /** `noodle-limb`: `toSegments` of a squiggling, tucking limb. */
  method NoodleLimb(env: Env, store: Store, parent: SegId, section: Section) returns (segments: seq<SegId>)
    requires Sound(env) && parent < |store.nodes|
    modifies store
    ensures var s := env.mixSquiggle(NoodleLimbSegmentation(old(store.nodes[parent].seg), section), NoodleLimbGradient(section));
      store.nodes == env.toSegments(old(store.nodes), parent, s).nodes
      && segments == env.toSegments(old(store.nodes), parent, s).segments
  {
    var s := env.mixSquiggle(NoodleLimbSegmentation(store.nodes[parent].seg, section), NoodleLimbGradient(section));
    segments := ToSegments(env, store, parent, s);
  }

  // ----------------------------------------------------------------- pod

  /** `pod`: the parent gains exactly one child, of radius `size` at the
      section angle plus 75 degrees to the mirrored side; a 'propellers'
      branch of the section is pushed onto its branches. */
  method Pod(store: Store, parent: SegId, section: Section) returns (o: Outcome)
    requires parent < |store.nodes|
    modifies store
    ensures var b := old(|store.nodes|);
      var pod := CreateSegment(section.size, section.angle + 75.0 * Dir(section.mirror), 0.25, 100.0);
      && store.nodes == Attach(old(store.nodes), parent, pod)
      && store.nodes[b].seg.overlap == 0.25 * section.size
      && o == Outcome([b], section.(branches := section.branches + [CreateBranch(section, "propellers")]))
  {
    var dir := Dir(section.mirror);
    var pod := store.AddChild(parent, CreateSegment(section.size, section.angle + 75.0 * dir, 0.25, 100.0));
    var branches := section.branches + [CreateBranch(section, "propellers")];
    o := Outcome([pod], section.(branches := branches));
  }

  // ------------------------------------------------------------ propeller

  function PropellerSegmentation(parent: Segment, section: Section): Segmentation {
    CreateSegmentation(NoFields.(count := Some(section.count), radius := Some(parent.circle.radius * section.size / 100.0),
      taperFactor := Some(1.0), angle := Some(section.angle), overlapMult := Some(0.5)))
  }

  function PropellerGradient(section: Section): PartialGradient {
    PartialGradient(Wave(30.0, RELAXED, section.offset, Some(5.0)), Some(section.count as real + 1.5), None, None, None)
  }

  /** `propeller`: `toSegments` of an untapered blade squiggling over its
      count plus one and a half segments. */
  method Propeller(env: Env, store: Store, parent: SegId, section: Section) returns (segments: seq<SegId>)
    requires Sound(env) && parent < |store.nodes|
    modifies store
    ensures var s := env.mixSquiggle(PropellerSegmentation(old(store.nodes[parent].seg), section), PropellerGradient(section));
      store.nodes == env.toSegments(old(store.nodes), parent, s).nodes
      && segments == env.toSegments(old(store.nodes), parent, s).segments
  {
    var s := env.mixSquiggle(PropellerSegmentation(store.nodes[parent].seg, section), PropellerGradient(section));
    segments := ToSegments(env, store, parent, s);
  }

  // ------------------------------------------------------------ rigid-leg

  function RigidLegSegmentation(parent: Segment, section: Section): Segmentation {
    CreateSegmentation(NoFields.(count := Some(section.count), radius := Some(parent.circle.radius * section.size / 100.0),
      taperFactor := Some(1.0), angle := Some(section.angle), overlapMult := Some(0.2)))
  }

  function RigidLegWave(section: Section): WaveSpec {
    Wave(30.0, DELIBERATE, section.offset, Some(4.0))
  }

  /** `rigid-leg`: a rotating chain off the parent. */
  method RigidLeg(store: Store, parent: SegId, section: Section) returns (segments: seq<SegId>)
    requires parent < |store.nodes|
    modifies store
    ensures var s := RigidLegSegmentation(old(store.nodes[parent].seg), section);
      store.nodes == AppendChain(old(store.nodes), parent, Chain(s, RotationGenerator(RigidLegWave(section))))
      && segments == ChainIds(old(|store.nodes|), Count(s))
  {
    segments := CreateRotation(store, parent, RigidLegSegmentation(store.nodes[parent].seg, section), RigidLegWave(section));
  }

  /** A rigid leg does not taper: every segment has the section's share of
      the parent's radius. */
  lemma RigidLegUntapered(parent: Segment, section: Section, k: nat)
    ensures ChainSegment(RigidLegSegmentation(parent, section), RotationGenerator(RigidLegWave(section)), k).circle.radius
         == CalculateRadius(parent, section)
  {
    UntaperedRadii(RigidLegSegmentation(parent, section), RotationGenerator(RigidLegWave(section)), k);
  }

  // ---------------------------------------------------------- simple-limb

  /** The limb curls one way when its offset is a whole number of cycles
      (JavaScript's truncating `%`), the other way otherwise. */
  function SimpleLimbCurve(offset: real): (c: real)
    ensures JsRem(offset, PI * 2.0) == 0.0 <==> c == 15.0
    ensures c == 15.0 || c == -15.0
  {
    if JsRem(offset, PI * 2.0) == 0.0 then 15.0 else -15.0
  }

  function SimpleLimbSegmentation(parent: Segment, section: Section): Segmentation {
    CreateSegmentation(NoFields.(count := Some(section.count), radius := Some(parent.circle.radius * section.size / 100.0),
      taperFactor := Some(0.9), angle := Some(section.angle), curveRange := Some(5.0), curve := Some(SimpleLimbCurve(section.offset))))
  }

  function SimpleLimbWave(section: Section): WaveSpec {
    WaveSpec(10.0, RELAXED, None, Some(section.offset), None)
  }

  /** `simple-limb`: a rotating chain off the parent curving 15 degrees per segment. */
  method SimpleLimb(store: Store, parent: SegId, section: Section) returns (segments: seq<SegId>)
    requires parent < |store.nodes|
    modifies store
    ensures var s := SimpleLimbSegmentation(old(store.nodes[parent].seg), section);
      store.nodes == AppendChain(old(store.nodes), parent, Chain(s, RotationGenerator(SimpleLimbWave(section))))
      && segments == ChainIds(old(|store.nodes|), Count(s))
  {
    segments := CreateRotation(store, parent, SimpleLimbSegmentation(store.nodes[parent].seg, section), SimpleLimbWave(section));
  }

  /** A limb at offset 0 and one half a cycle later curl in opposite
      directions: the mirrored limb of a pair bends the other way. */
  lemma SimpleLimbMirrors()
    ensures SimpleLimbCurve(0.0) == 15.0
    ensures SimpleLimbCurve(-PI) == -15.0 && SimpleLimbCurve(PI) == -15.0
  {
    assert JsRem(0.0, PI * 2.0) == 0.0;
    assert JsRem(PI, PI * 2.0) == PI;
    assert JsRem(-PI, PI * 2.0) == -PI;
  }

  // ------------------------------------------------------------- tentacle

  function TentacleSegmentation(parent: Segment, section: Section): Segmentation {
    CreateSegmentation(NoFields.(count := Some(section.count), radius := Some(parent.circle.radius * section.size / 100.0),
      taperFactor := Some(0.9), angle := Some(section.angle), overlapMult := Some(0.0), curveRange := Some(SQUIGGLY)))
  }

  function TentacleGradient(section: Section): PartialGradient {
    PartialGradient(WaveSpec(40.0, RELAXED, None, Some(section.offset), None), Some(section.count as real * 3.0), None, Some(0.0), None)
  }

  /** `tentacle`: `toSegments` of a squiggle spanning three times the count. */
  method Tentacle(env: Env, store: Store, parent: SegId, section: Section) returns (segments: seq<SegId>)
    requires Sound(env) && parent < |store.nodes|
    modifies store
    ensures var s := env.mixSquiggle(TentacleSegmentation(old(store.nodes[parent].seg), section), TentacleGradient(section));
      store.nodes == env.toSegments(old(store.nodes), parent, s).nodes
      && segments == env.toSegments(old(store.nodes), parent, s).segments
  {
    var s := env.mixSquiggle(TentacleSegmentation(store.nodes[parent].seg, section), TentacleGradient(section));
    segments := ToSegments(env, store, parent, s);
  }
}
