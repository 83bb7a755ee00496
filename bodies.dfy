/** The body segmentations: chains that hang off the parent (eel and
    inchworm), and bodies that hand a composed section to `follow` (fish
    and newt) (client/src/palamander/morphology/segmentation/segmentate-body.ts).

    The eel and inchworm builders call `createSegmentation` with two
    numbers where it takes one partial segmentation; spreading a number
    adds no field, so the defaults stand and are then overridden by the
    fields the literal lists. */
module Bodies {
  import opened Wrappers
  import opened Num
  import opened Suppressions
  import opened WriggleSpecs
  import opened Segments
  import opened Sections
  import opened SegmentStore
  import opened Segmentations
  import opened Builders

  // ---------------------------------------------------------------- eel

  /** The eel chain: radius from the parent, a taper that shrinks the chain
      to 45 percent over its count, overlap 0.5 and a squiggly curve range. */
  function EelSegmentation(env: Env, parent: Segment, section: Section): Segmentation {
    CreateSegmentation(NoFields.(count := Some(section.count), radius := Some(CalculateRadius(parent, section)),
      taperFactor := Some(CalculateTaper(env.pow, 0.45, section.count)), angle := Some(section.angle),
      overlapMult := Some(0.5), curveRange := Some(SQUIGGLY)))
  }

  function EelWave(section: Section): WaveSpec {
    Wave(25.0, RELAXED, section.offset, Some(4.0))
  }

  /** The eel's wriggle: a squiggle gradient from range 15, suppressed from
      0.5 at the front to -0.5 at the back. */
  function EelGenerator(env: Env, section: Section): Generator {
    env.squiggleGradient(section.count, EelWave(section), 15.0, DampenRange(0.5, -0.5))
  }

  /** `eel-body`: the chain loop of `createDefault` under the parent with the
      squiggle-gradient wriggle. */
  method EelBody(env: Env, store: Store, parent: SegId, section: Section) returns (segments: seq<SegId>)
    requires parent < |store.nodes|
    modifies store
    ensures var s := EelSegmentation(env, old(store.nodes[parent].seg), section);
      && store.nodes == AppendChain(old(store.nodes), parent, Chain(s, EelGenerator(env, section)))
      && segments == ChainIds(old(|store.nodes|), Count(s))
  {
    var s := EelSegmentation(env, store.nodes[parent].seg, section);
    segments := CreateDefault(store, parent, s, EelGenerator(env, section));
  }

  /** The eel tapers to 45 percent: when `pow` takes true roots (the taper
      raised to the count gives back 0.45), the last segment has 45 percent
      of the radius the body starts from. */
  lemma EelTapersTo(env: Env, parent: Segment, section: Section)
    requires section.count >= 1
    requires Pow(CalculateTaper(env.pow, 0.45, section.count), section.count) == 0.45
    ensures var s := EelSegmentation(env, parent, section);
      ChainSegment(s, EelGenerator(env, section), section.count - 1).circle.radius == 0.45 * CalculateRadius(parent, section)
  {
    var s := EelSegmentation(env, parent, section);
    ChainSegmentFields(s, EelGenerator(env, section), section.count - 1);
  }

  // --------------------------------------------------------------- fish

  /** The fish tail that `fish-body` follows with: six segments at 75
      percent, carrying two flippers off its first segment (by parent
      index), the second mirrored and half a cycle out of phase. */
  function FishTail(section: Section): (t: Section)
    ensures t.kind == "fish-tail" && t.count == 6 && t.size == section.size * 0.75 && t.next.None?
    ensures |t.branches| == 2 && t.branches[0].kind == "flipper"
    ensures t.branches[1] == t.branches[0].(mirror := true, offset := PI)
    ensures t.branches[0].size == t.size && t.branches[0].angle == 90.0 && t.branches[0].parentIndex == Some(0)
    ensures !t.branches[0].mirror && t.branches[0].offset == 0.0
  {
    var flipper := NewSection("flipper").(size := section.size * 0.75, angle := 90.0, parentIndex := Some(0));
    NewSection("fish-tail").(count := 6, size := section.size * 0.75,
                             branches := [flipper, flipper.(mirror := true, offset := PI)])
  }

  /** `fish-body`: the section followed by the fish tail. */
  function FishBody(env: Env, section: Section): Outcome {
    env.follow(section, FishTail(section))
  }

  // ------------------------------------------------------------ inchworm

  /** The inchworm chain: untapered, straight, barely overlapping, and able
      to curve 720 degrees over its whole length. */
  function InchwormSegmentation(parent: Segment, section: Section): Segmentation {
    CreateSegmentation(NoFields.(count := Some(section.count), radius := Some(CalculateRadius(parent, section)),
      taperFactor := Some(1.0), angle := Some(0.0), overlapMult := Some(0.1),
      curveRange := Some(Div(720.0, section.count as real))))
  }

  function InchwormWave(section: Section): WaveSpec {
    Wave(10.0, RELAXED * 4.0, section.offset, Some(20.0))
  }

  /** Segment i squiggles with the inchworm wave, a full wave every three
      quarters of the count. */
  function InchwormGenerator(section: Section): Generator {
    (i: int) => [CreateSquiggleSpec(InchwormWave(section), i, section.count as real * 0.75)]
  }

  /** `inchworm-body`: the chain loop of `createDefault` with the squiggle. */
  method InchwormBody(store: Store, parent: SegId, section: Section) returns (segments: seq<SegId>)
    requires parent < |store.nodes|
    modifies store
    ensures var s := InchwormSegmentation(old(store.nodes[parent].seg), section);
      && store.nodes == AppendChain(old(store.nodes), parent, Chain(s, InchwormGenerator(section)))
      && segments == ChainIds(old(|store.nodes|), Count(s))
  {
    var s := InchwormSegmentation(store.nodes[parent].seg, section);
    segments := CreateDefault(store, parent, s, InchwormGenerator(section));
  }

  /** Every inchworm segment has the radius the section asks of the parent,
      points straight on, may curve 720/count degrees, and squiggles one
      step of a wave that spans three quarters of the body. */
  lemma InchwormSegments(parent: Segment, section: Section, k: nat)
    requires section.count > 0
    ensures var seg := ChainSegment(InchwormSegmentation(parent, section), InchwormGenerator(section), k);
      && seg.circle.radius == CalculateRadius(parent, section)
      && seg.bodyAngle.relative == 0.0
      && seg.bodyAngle.curveRange * section.count as real == 720.0
      && |InchwormGenerator(section)(k)| == 1
      && InchwormGenerator(section)(k)[0].squiggleRate * section.count as real * 0.75 == 1.0
  {
    var s := InchwormSegmentation(parent, section);
    UntaperedRadii(s, InchwormGenerator(section), k);
    ChainSegmentFields(s, InchwormGenerator(section), k);
  }

  // --------------------------------------------------------------- newt

  /** The eel body a newt follows with, carrying two pairs of noodle limbs
      a third of the count long at 45 degrees off the section's angle: one
      off the first segment, one off segment third - 2. */
  function NewtBody(section: Section): Section {
    var third := section.count / 3;
    var legs := CreateBranch(section, "noodle-limbs").(count := third);
    CreateBranch(section, "eel-body").(branches := [legs.(index := 0, angle := section.angle + 45.0),
                                                   legs.(index := third - 2, angle := section.angle + 45.0)])
  }

  /** `newt-body`: the section followed by the newt's eel body. */
  function NewtBodyOutcome(env: Env, section: Section): Outcome {
    env.follow(section, NewtBody(section))
  }

  /** The newt's legs: the floor of a third of the count is what both
      pairs take as their count, and the second pair sits two segments
      short of that third (off no segment at all below a count of 6). */
  lemma NewtLegs(section: Section)
    ensures var b := NewtBody(section); var third := b.branches[0].count;
      && |b.branches| == 2 && b.kind == "eel-body" && b.count == section.count
      && 3 * third <= section.count < 3 * third + 3
      && b.branches[1].count == third && b.branches[0].index == 0 && b.branches[1].index == third - 2
      && b.branches[0].angle == b.branches[1].angle == section.angle + 45.0
      && b.branches[0].kind == b.branches[1].kind == "noodle-limbs"
      && (section.count < 6 <==> b.branches[1].index < 0)
  {
  }
}
