/** The whole-creature ("pal") segmentations: each assembles a head and a
    body out of other sections and segments
    (client/src/palamander/morphology/segmentation/segmentate-pal.ts).
    None reads its parent segment, so the parent is not a parameter here.

    A call `follow(head, body)` whose result is dropped still changes
    `head`; the head is then taken as `follow` leaves it. Pals that create
    segments append them to the arena in creation order, given as a
    function of the first new id, like the heads. */
module Pals {
  import opened Wrappers
  import opened Num
  import opened WriggleSpecs
  import opened Segments
  import opened Sections
  import opened SegmentStore
  import opened Segmentations
  import opened Builders
  import opened Bodies

  /** `{ ...createBranch(section, 'head'), size }`. */
  function HeadBranch(section: Section, size: real): Section {
    CreateBranch(section, "head").(size := size)
  }

  /** The head after `head.branches.push(branch)`. */
  function WithBranch(head: Section, branch: Section): Section {
    head.(branches := head.branches + [branch])
  }

  // ------------------------------------------- pals made of sections only

  /** The axolotl's head: size 100, with a pair of gills off its first segment. */
  function AxolotlHead(section: Section): Section {
    WithBranch(HeadBranch(section, 100.0), CreateBranch(section, "gill-pair").(index := 0))
  }

  /** `axolotl`: a gilled head followed by a 15-segment newt body at 50 percent. */
  function Axolotl(env: Env, section: Section): Outcome {
    var body := CreateBranch(section, "newt-body").(count := 15, size := 50.0);
    env.follow(section, env.follow(AxolotlHead(section), body).section)
  }

  /** `newt`: a plain head followed by an 18-segment newt body at 60 percent. */
  function Newt(env: Env, section: Section): Outcome {
    var body := CreateBranch(section, "newt-body").(count := 18, size := 60.0);
    env.follow(section, env.follow(HeadBranch(section, 100.0), body).section)
  }

  /** The three bodies of a newt king: an even spread of 3 over 90 degrees,
      each a 12-segment newt body at 50 percent. */
  function NewtKingBodies(section: Section): Section {
    NewSection("equal").(count := 3, angle := 90.0, mirror := false,
                         next := Some(CreateBranch(section, "newt-body").(count := 12, size := 50.0)))
  }

  /** `newt-king`: a head at 75 percent followed by three newt bodies. */
  function NewtKing(env: Env, section: Section): Outcome {
    env.follow(section, env.follow(HeadBranch(section, 75.0), NewtKingBodies(section)).section)
  }

  /** `sea-lion`: a lion head of the section's size followed by a fish body. */
  function SeaLion(env: Env, section: Section): Outcome {
    var head := NewSection("lion-head").(size := section.size);
    env.follow(section, env.follow(head, CreateBranch(section, "fish-body")).section)
  }

  /** The sea monkey's torso: a 6-segment fish tail of the section's size,
      with monkey arms off its first segment. */
  function SeaMonkeyTorso(section: Section): Section {
    WithBranch(NewSection("fish-tail").(count := 6, size := section.size),
               NewSection("monkey-arms").(size := section.size, index := 0))
  }

  /** `sea-monkey`: a monkey head of the section's size followed by the torso. */
  function SeaMonkey(env: Env, section: Section): Outcome {
    var head := NewSection("monkey-head").(size := section.size);
    env.follow(section, env.follow(head, SeaMonkeyTorso(section)).section)
  }

  /** The snake's head: a snake head of the section's size carrying an
      8-segment snake body at 70 percent off its second segment. */
  function SnakePalHead(section: Section): Section {
    WithBranch(NewSection("snake-head").(size := section.size),
               CreateBranch(section, "snake-body").(count := 8, index := 1, size := section.size * 0.7))
  }

  /** `snake`: the section followed by the snake's head. */
  function Snake(env: Env, section: Section): Outcome {
    env.follow(section, SnakePalHead(section))
  }

  /** The tadpole's head: size 100 with gills off its first segment, as
      `follow` leaves it after a 10-segment eel body at 50 percent. */
  function TadpoleHead(env: Env, section: Section): Section {
    var head := WithBranch(HeadBranch(section, 100.0), CreateBranch(section, "gill-pair").(index := 0));
    env.follow(head, CreateBranch(section, "eel-body").(count := 10, size := 50.0)).section
  }

  /** `tadpole`: the section is followed by the tadpole's head, but what
      `follow` returns is dropped: the tadpole itself returns no segments. */
  function Tadpole(env: Env, section: Section): (o: Outcome)
    ensures o.segments == []
    ensures o.section == env.follow(section, TadpoleHead(env, section)).section
  {
    var followed := env.follow(section, TadpoleHead(env, section));
    Outcome([], followed.section)
  }

  /** The axolotl and the tadpole share a head, the newt's is bare, and the
      newt king's is three quarters the size; the heads these pals build by
      branching keep the section's angle, offset and mirror. */
  lemma PalHeads(section: Section)
    ensures AxolotlHead(section).size == 100.0 && HeadBranch(section, 75.0).size == 75.0
    ensures AxolotlHead(section).branches == [CreateBranch(section, "gill-pair").(index := 0)]
    ensures HeadBranch(section, 100.0).branches == []
    ensures var h := AxolotlHead(section);
      h.kind == "head" && h.angle == section.angle && h.offset == section.offset && h.mirror == section.mirror
    ensures SnakePalHead(section).branches[0].index == 1 && SnakePalHead(section).branches[0].size == 0.7 * section.size
  {
  }

  /** Every newt body a pal asks for carries both of its leg pairs on
      segments the body has: counts 15, 18 and 12 put the second pair on
      segments 3, 4 and 2. */
  lemma NewtBodiesCarryLegs(section: Section)
    ensures var axolotl := NewtBody(CreateBranch(section, "newt-body").(count := 15, size := 50.0));
      axolotl.branches[1].index == 3 && 0 <= axolotl.branches[1].index < axolotl.count
    ensures var newt := NewtBody(CreateBranch(section, "newt-body").(count := 18, size := 60.0));
      newt.branches[1].index == 4 && 0 <= newt.branches[1].index < newt.count
    ensures var king := NewtBody(NewtKingBodies(section).next.value);
      king.branches[1].index == 2 && 0 <= king.branches[1].index < king.count
  {
  }

  // ------------------------------------------------- pals with leg loops

  /** Caterpillar leg pair i: buggy legs off body segment i, half a cycle
      out of phase with the pair before. */
  function CaterpillarLeg(section: Section, i: int): Section {
    CreateBranch(section, "buggy-legs").(index := i, offset := section.offset + ((2.0 * PI) / 2.0) * i as real)
  }

  /** The caterpillar's inchworm body at 80 percent with a leg pair on every
      segment but the last. */
  function CaterpillarBody(section: Section): (b: Section)
    ensures |b.branches| == MaxInt(0, section.count - 1)
    ensures forall i :: 0 <= i < |b.branches| ==> b.branches[i] == CaterpillarLeg(section, i)
  {
    CreateBranch(section, "inchworm-body").(size := 80.0,
      branches := seq(MaxInt(0, section.count - 1), i => CaterpillarLeg(section, i)))
  }

  function MandibledHead(section: Section): Section {
    WithBranch(HeadBranch(section, 100.0), CreateBranch(section, "mandibles"))
  }

  /** `caterpillar`: the legs are pushed one pair per turn of a loop. */
  method Caterpillar(env: Env, section: Section) returns (o: Outcome)
    ensures o == env.follow(section, env.follow(MandibledHead(section), CaterpillarBody(section)).section)
  {
    var head := MandibledHead(section);
    var body := CreateBranch(section, "inchworm-body").(size := 80.0);
    var legs: seq<Section> := [];
    var i := 0;
    while i < section.count - 1
      invariant 0 <= i <= MaxInt(0, section.count - 1)
      invariant |legs| == i && forall j :: 0 <= j < i ==> legs[j] == CaterpillarLeg(section, j)
    {
      var offset := section.offset + ((2.0 * PI) / 2.0) * i as real;
      legs := legs + [CreateBranch(section, "buggy-legs").(index := i, offset := offset)];
      i := i + 1;
    }
    assert legs == CaterpillarBody(section).branches;
    body := body.(branches := body.branches + legs);
    assert body.branches == [] + legs == legs;
    assert body == CaterpillarBody(section);
    head := env.follow(head, body).section;
    o := env.follow(section, head);
  }

  /** Caterpillar legs alternate: neighbouring pairs are half a cycle apart,
      so every other pair moves in step. */
  lemma CaterpillarAlternates(section: Section, i: nat)
    requires i + 2 < section.count - 1
    ensures var legs := CaterpillarBody(section).branches;
      && legs[i + 1].offset - legs[i].offset == PI
      && legs[i + 2].offset - legs[i].offset == 2.0 * PI
      && legs[i].index == i
  {
  }

  /** Centipede leg pair i: buggy legs off body segment i, the phase
      cascading by 1/(2.5 count) of a cycle per pair. */
  function CentipedeLeg(section: Section, i: int): Section {
    CreateBranch(section, "buggy-legs").(index := i,
      offset := section.offset + Div(2.0 * PI, section.count as real * 2.5) * i as real)
  }

  /** The centipede's two feelers off its last segment, 12 degrees either side. */
  function CentipedeFeelers(section: Section): (f: seq<Section>)
    ensures |f| == 2 && f[0].index == f[1].index == section.count - 1
    ensures f[0].angle - section.angle == section.angle - f[1].angle == 12.0
  {
    var feeler := CreateBranch(section, "feeler").(index := section.count - 1);
    [feeler.(angle := section.angle + 12.0), feeler.(angle := section.angle - 12.0)]
  }

  /** The centipede's inchworm body at 70 percent: a leg pair on every
      segment, then the feelers. */
  function CentipedeBody(section: Section): (b: Section)
    ensures |b.branches| == MaxInt(0, section.count) + 2
  {
    CreateBranch(section, "inchworm-body").(size := 70.0,
      branches := seq(MaxInt(0, section.count), i => CentipedeLeg(section, i)) + CentipedeFeelers(section))
  }

  /** `centipede`: one leg pair per turn of a loop, then the feelers. */
  method Centipede(env: Env, section: Section) returns (o: Outcome)
    ensures o == env.follow(section, env.follow(MandibledHead(section), CentipedeBody(section)).section)
  {
    var head := MandibledHead(section);
    var body := CreateBranch(section, "inchworm-body").(size := 70.0);
    var legs := CentipedeLegPairs(section);
    var feeler := CreateBranch(section, "feeler").(index := body.count - 1);
    body := body.(branches := body.branches + legs);
    body := body.(branches := body.branches + [feeler.(angle := section.angle + 12.0)]);
    body := body.(branches := body.branches + [feeler.(angle := section.angle - 12.0)]);
    assert body.branches == [] + legs + CentipedeFeelers(section) == legs + CentipedeFeelers(section);
    assert body == CentipedeBody(section);
    head := env.follow(head, body).section;
    o := env.follow(section, head);
  }

  /** The loop of `centipede`: leg pair i for each of the `count` body
      segments, in order. */
  method CentipedeLegPairs(section: Section) returns (legs: seq<Section>)
    ensures legs == seq(MaxInt(0, section.count), i => CentipedeLeg(section, i))
  {
    legs := [];
    var i := 0;
    while i < section.count
      invariant 0 <= i <= MaxInt(0, section.count)
      invariant |legs| == i && forall j :: 0 <= j < i ==> legs[j] == CentipedeLeg(section, j)
    {
      var offset := section.offset + ((2.0 * PI) / (section.count as real * 2.5)) * i as real;
      var leg := CreateBranch(section, "buggy-legs").(index := i, offset := offset);
      assert leg == CentipedeLeg(section, i);
      legs := legs + [leg];
      i := i + 1;
    }
  }

  /** The centipede's body carries exactly one leg pair per segment, in
      segment order, and then the two feelers. */
  lemma CentipedeLegs(section: Section, i: nat)
    requires i < section.count
    ensures var bs := CentipedeBody(section).branches;
      && bs[i].kind == "buggy-legs" && bs[i].index == i
      && bs[section.count] == CentipedeFeelers(section)[0] && bs[section.count + 1] == CentipedeFeelers(section)[1]
  {
  }

  /** Centipede legs cascade: each pair is the same small step behind the
      one before, and all of them fit in less than half a cycle. */
  lemma {:induction false} CentipedeCascade(section: Section, i: nat)
    requires i + 1 < section.count
    ensures var legs := CentipedeBody(section).branches;
      && legs[i + 1].offset - legs[i].offset == 2.0 * PI / (section.count as real * 2.5)
      && 0.0 <= legs[i].offset - section.offset < PI
  {
    var n := section.count as real;
    var step := 2.0 * PI / (n * 2.5);
    var legs := CentipedeBody(section).branches;
    assert legs[i] == CentipedeLeg(section, i) && legs[i + 1] == CentipedeLeg(section, i + 1);
    assert (i + 1) as real * step == i as real * step + step;
    assert i as real * step < n * step;
    assert n * step == 2.0 * PI / 2.5;
  }

  // ------------------------------------------- pals that create segments

  /** The crawdad's own segments from id b on: a default head and the
      spacer it carries. */
  function CrawdadHead(section: Section, b: nat): seq<Node> {
    [Node(CreateDefaultSegment(section.size, 100.0), [b + 1]),
     Node(CreateSegment(section.size, section.angle, 1.0, 100.0), [])]
  }

  /** The crawdad's carapace: three untapered, straight, fully overlapping
      segments at one and a half times the section's size. */
  function CrawdadCarapace(section: Section): Segmentation {
    CreateSegmentation(NoFields.(count := Some(3), angle := Some(section.angle))).(
      radius := section.size * 1.5, taperFactor := 1.0, overlapMult := 1.0, curveRange := 0.0)
  }

  /** Crawdad leg pair off chain segment i. */
  function CrawdadLeg(section: Section, i: int): Section {
    CreateBranch(section, "buggy-legs").(index := i)
  }

  /** What the crawdad pushes onto its section: a three-segment fish tail
      off chain segment 4, legs off segments 2 to 4, two feelers and the
      claws (the last three marked with a parent index). */
  function CrawdadBranches(section: Section): (bs: seq<Section>)
    ensures |bs| == 7
    ensures bs[0] == NewSection("fish-tail").(count := 3, index := 4, size := section.size * 1.5)
    ensures forall k :: 1 <= k <= 3 ==> bs[k] == CrawdadLeg(section, k + 1)
    ensures bs[4].kind == bs[5].kind == "feeler" && bs[4].parentIndex == bs[5].parentIndex == Some(0)
    ensures bs[4].angle == section.angle + 210.0 && bs[5].angle == section.angle + 150.0
    ensures bs[6] == CreateBranch(section, "claws").(parentIndex := Some(2))
  {
    var feeler := CreateBranch(section, "feeler").(parentIndex := Some(0));
    [NewSection("fish-tail").(count := 3, index := 4, size := section.size * 1.5),
     CrawdadLeg(section, 2), CrawdadLeg(section, 3), CrawdadLeg(section, 4),
     feeler.(angle := section.angle + 210.0), feeler.(angle := section.angle + 150.0),
     CreateBranch(section, "claws").(parentIndex := Some(2))]
  }

  /** `crawdad`: head and spacer, the carapace chain off the spacer, and the
      branches; head, spacer and carapace are returned. */
  method Crawdad(env: Env, store: Store, section: Section) returns (o: Outcome)
    requires Sound(env)
    modifies store
    ensures var b := old(|store.nodes|);
      var body := env.toSegments(old(store.nodes) + CrawdadHead(section, b), b + 1, CrawdadCarapace(section));
      && store.nodes == body.nodes
      && o == Outcome([b, b + 1] + body.segments, section.(branches := section.branches + CrawdadBranches(section)))
  {
    ghost var start := store.nodes;
    var b := |store.nodes|;
    var headSeg := CreateDefaultSegment(section.size, 100.0);
    var head := store.Add(headSeg);
    var spacerSeg := CreateSegment(section.size, section.angle, 1.0, 100.0);
    var spacer := store.AddChild(head, spacerSeg);
    AttachAt(start, Node(headSeg, []), [], spacerSeg);
    assert [] + [b + 1] == [b + 1];
    assert store.nodes == start + CrawdadHead(section, b);
    var body := ToSegments(env, store, spacer, CrawdadCarapace(section));
    var branches := AddCrawdadBranches(section);
    o := Outcome([head, spacer] + body, section.(branches := branches));
  }

  /** The branches the crawdad pushes, in the order it pushes them: the
      fish tail, the leg pairs in a loop, the feelers and the claws. */
  method AddCrawdadBranches(section: Section) returns (branches: seq<Section>)
    ensures branches == section.branches + CrawdadBranches(section)
  {
    branches := section.branches + [NewSection("fish-tail").(count := 3, index := 4, size := section.size * 1.5)];
    var legs := CreateBranch(section, "buggy-legs");
    var i := 2;
    while i <= 4
      invariant 2 <= i <= 5
      invariant |branches| == |section.branches| + i - 1
      invariant branches[..|section.branches| + 1] == section.branches + CrawdadBranches(section)[..1]
      invariant forall k :: 2 <= k < i ==> branches[|section.branches| + k - 1] == CrawdadLeg(section, k)
    {
      branches := branches + [legs.(index := i)];
      i := i + 1;
    }
    var feeler := CreateBranch(section, "feeler").(parentIndex := Some(0));
    branches := branches + [feeler.(angle := section.angle + 210.0)];
    branches := branches + [feeler.(angle := section.angle + 150.0)];
    branches := branches + [CreateBranch(section, "claws").(parentIndex := Some(2))];
    assert branches == section.branches + CrawdadBranches(section);
  }

  /** The frog's own segments from id b on: a default head with two eyes
      150 degrees to either side. */
  function FrogHead(section: Section, b: nat): seq<Node> {
    [Node(CreateDefaultSegment(section.size, 100.0), [b + 1, b + 2]),
     Node(CreateSegment(section.size * 0.4, 150.0 * -1.0, 1.2, 100.0), []),
     Node(CreateSegment(section.size * 0.4, 150.0 * 1.0, 1.2, 100.0), [])]
  }

  /** The frog's four-segment body, tapering by 0.75 per segment. */
  function FrogBody(section: Section): Segmentation {
    CreateSegmentation(NoFields.(count := Some(4), radius := Some(section.size), taperFactor := Some(0.75),
      angle := Some(section.angle), overlapMult := Some(1.2), curveRange := Some(5.0)))
  }

  /** The body's squiggle: a relaxed wave of range 2 (no offset) over its length. */
  function FrogGradient(): PartialGradient {
    PartialGradient(WaveSpec(2.0, RELAXED, None, None, None), Some(4.0), None, None, None)
  }

  /** What the frog pushes onto its section: five-segment arms at 20 percent
      off its head, 45 degrees round, and frog legs off the last body segment. */
  function FrogBranches(section: Section): (bs: seq<Section>)
    ensures |bs| == 2
    ensures bs[0].kind == "simple-limbs" && bs[0].count == 5 && bs[0].size == section.size * 0.2
    ensures bs[0].index == 0 && bs[0].angle == section.angle + 45.0
    ensures bs[1] == CreateBranch(section, "frog-legs").(index := 4)
  {
    var arms := CreateBranch(section, "simple-limbs").(count := 5, size := 50.0);
    [arms.(size := section.size * 0.2, index := 0, angle := section.angle + 45.0),
     CreateBranch(section, "frog-legs").(index := 4)]
  }

  /** `frog`: head and eyes, the squiggling body off the head, and the
      limbs; the head and the body are returned. */
  method Frog(env: Env, store: Store, section: Section) returns (o: Outcome)
    requires Sound(env)
    modifies store
    ensures var b := old(|store.nodes|);
      var body := env.toSegments(old(store.nodes) + FrogHead(section, b), b, env.mixSquiggle(FrogBody(section), FrogGradient()));
      && store.nodes == body.nodes
      && o == Outcome([b] + body.segments, section.(branches := section.branches + FrogBranches(section)))
  {
    ghost var start := store.nodes;
    var b := |store.nodes|;
    var headSeg := CreateDefaultSegment(section.size, 100.0);
    var head := store.Add(headSeg);
    var leftSeg := CreateSegment(section.size * 0.4, 150.0 * -1.0, 1.2, 100.0);
    var left := store.AddChild(head, leftSeg);
    var rightSeg := CreateSegment(section.size * 0.4, 150.0 * 1.0, 1.2, 100.0);
    var right := store.AddChild(head, rightSeg);
    AttachFresh2(start, headSeg, leftSeg, rightSeg);
    assert store.nodes == start + FrogHead(section, b);
    var body := ToSegments(env, store, head, env.mixSquiggle(FrogBody(section), FrogGradient()));
    var arms := CreateBranch(section, "simple-limbs").(count := 5, size := 50.0);
    var branches := section.branches + [arms.(size := section.size * 0.2, index := 0, angle := section.angle + 45.0)];
    branches := branches + [CreateBranch(section, "frog-legs").(index := 4)];
    o := Outcome([head] + body, section.(branches := branches));
  }

  /** The jellyfish's segments from id b on: a default head, a medulla
      under it, and an inner bell under the medulla. */
  function JellyNodes(section: Section, b: nat): seq<Node> {
    [Node(CreateDefaultSegment(section.size, 100.0), [b + 1]),
     Node(CreateSegment(section.size * 0.75, section.angle, 2.66, 100.0), [b + 2]),
     Node(CreateSegment(section.size * 0.75, section.angle, 2.0, 100.0), [])]
  }

  /** `jelly`: head, medulla and bell in a line, tentacles followed off the
      medulla; head and medulla are returned. */
  method Jelly(env: Env, store: Store, section: Section) returns (o: Outcome)
    modifies store
    ensures var b := old(|store.nodes|);
      && store.nodes == old(store.nodes) + JellyNodes(section, b)
      && o == Outcome([b, b + 1], env.follow(section, CreateBranch(section, "tentacles").(index := 1)).section)
  {
    ghost var start := store.nodes;
    var b := |store.nodes|;
    var headSeg := CreateDefaultSegment(section.size, 100.0);
    var head := store.Add(headSeg);
    var medullaSeg := CreateSegment(section.size * 0.75, section.angle, 2.66, 100.0);
    var medulla := store.AddChild(head, medullaSeg);
    AttachAt(start, Node(headSeg, []), [], medullaSeg);
    assert [] + [b + 1] == [b + 1];
    var bellSeg := CreateSegment(section.size * 0.75, section.angle, 2.0, 100.0);
    var bell := store.AddChild(medulla, bellSeg);
    AttachAt(start + [Node(headSeg, [b + 1])], Node(medullaSeg, []), [], bellSeg);
    assert [] + [b + 2] == [b + 2];
    assert store.nodes == start + JellyNodes(section, b);
    var followed := env.follow(section, CreateBranch(section, "tentacles").(index := 1));
    o := Outcome([head, medulla], followed.section);
  }

  /** The horseshoe crab's segments from id b on: a default head and its shell. */
  function HorseshoeCrabNodes(section: Section, b: nat): seq<Node> {
    [Node(CreateDefaultSegment(section.size, 100.0), [b + 1]),
     Node(CreateSegment(section.size * 0.75, 0.0, 1.2, 100.0), [])]
  }

  /** Three pairs of nubby legs off the shell, fanned 30 degrees apart. */
  function HorseshoeCrabLegs(section: Section): (legs: seq<Section>)
    ensures |legs| == 3
    ensures forall k :: 0 <= k < 3 ==> legs[k] == CreateBranch(section, "nubby-legs").(
      index := 1, angle := section.angle + 30.0 * (k - 1) as real)
  {
    var legPair := CreateBranch(section, "nubby-legs").(index := 1);
    [legPair.(angle := section.angle + -30.0), legPair.(angle := section.angle + 0.0),
     legPair.(angle := section.angle + 30.0)]
  }

  /** `horshoe-crab`: head and shell, the leg pairs, then a feeler followed
      off the head; head and shell are returned. */
  method HorseshoeCrab(env: Env, store: Store, section: Section) returns (o: Outcome)
    modifies store
    ensures var b := old(|store.nodes|);
      && store.nodes == old(store.nodes) + HorseshoeCrabNodes(section, b)
      && o == Outcome([b, b + 1], env.follow(section.(branches := section.branches + HorseshoeCrabLegs(section)),
                                             CreateBranch(section, "feeler").(index := 0)).section)
  {
    ghost var start := store.nodes;
    var b := |store.nodes|;
    var headSeg := CreateDefaultSegment(section.size, 100.0);
    var head := store.Add(headSeg);
    var bodySeg := CreateSegment(section.size * 0.75, 0.0, 1.2, 100.0);
    var body := store.AddChild(head, bodySeg);
    AttachAt(start, Node(headSeg, []), [], bodySeg);
    assert [] + [b + 1] == [b + 1];
    assert store.nodes == start + HorseshoeCrabNodes(section, b);
    var legPair := CreateBranch(section, "nubby-legs").(index := 1);
    var s := section;
    s := s.(branches := s.branches + [legPair.(angle := section.angle + -30.0)]);
    s := s.(branches := s.branches + [legPair.(angle := section.angle + 0.0)]);
    s := s.(branches := s.branches + [legPair.(angle := section.angle + 30.0)]);
    assert s.branches == section.branches + HorseshoeCrabLegs(section);
    var followed := env.follow(s, CreateBranch(section, "feeler").(index := 0));
    o := Outcome([head, body], followed.section);
  }

  /** `nautilus`: one hull segment, with pods at half size and propellers
      pushed onto the section. */
  method Nautilus(store: Store, section: Section) returns (o: Outcome)
    modifies store
    ensures store.nodes == old(store.nodes) + [Node(CreateDefaultSegment(section.size, 100.0), [])]
    ensures o == Outcome([old(|store.nodes|)], section.(branches := section.branches
                   + [CreateBranch(section, "pods").(size := section.size * 0.5), CreateBranch(section, "propellers")]))
  {
    var hull := store.Add(CreateDefaultSegment(section.size, 100.0));
    var s := section.(branches := section.branches + [CreateBranch(section, "pods").(size := section.size * 0.5)]);
    s := s.(branches := s.branches + [CreateBranch(section, "propellers")]);
    o := Outcome([hull], s);
  }

  /** `octopus` and `starfish`: one default head, with the arms (`octo-arms`
      or `starfish-arms`) followed off it. */
  method HeadWithArms(env: Env, store: Store, section: Section, arms: string) returns (o: Outcome)
    modifies store
    ensures store.nodes == old(store.nodes) + [Node(CreateDefaultSegment(section.size, 100.0), [])]
    ensures o == Outcome([old(|store.nodes|)], env.follow(section, CreateBranch(section, arms)).section)
  {
    var head := store.Add(CreateDefaultSegment(section.size, 100.0));
    var followed := env.follow(section, CreateBranch(section, arms));
    o := Outcome([head], followed.section);
  }

  /** `wyrm`: one default head with a 6-segment snake body at 90 percent
      pushed onto the section. */
  method Wyrm(store: Store, section: Section) returns (o: Outcome)
    modifies store
    ensures store.nodes == old(store.nodes) + [Node(CreateDefaultSegment(section.size, 100.0), [])]
    ensures o == Outcome([old(|store.nodes|)], section.(branches := section.branches
                   + [CreateBranch(section, "snake-body").(count := 6, size := section.size * 0.9)]))
  {
    var head := store.Add(CreateDefaultSegment(section.size, 100.0));
    o := Outcome([head], section.(branches := section.branches
                   + [CreateBranch(section, "snake-body").(count := 6, size := section.size * 0.9)]));
  }

  /** The crawdad's branches index the chain [head, spacer, carapace...]:
      with a three-segment carapace the tail hangs off its last segment and
      the three leg pairs off each carapace segment in turn. The feelers
      and claws carry a parent index, but the index segmentation reads is
      the section's own. */
  lemma CrawdadIndices(section: Section, carapace: seq<SegId>, b: nat)
    requires |carapace| == 3
    ensures var chain := [b, b + 1] + carapace; var bs := CrawdadBranches(section);
      && chain[bs[0].index] == carapace[2]
      && chain[bs[1].index] == carapace[0] && chain[bs[2].index] == carapace[1] && chain[bs[3].index] == carapace[2]
    ensures var bs := CrawdadBranches(section);
      bs[4].index == bs[5].index == bs[6].index == section.index
      && bs[4].parentIndex == Some(0) && bs[6].parentIndex == Some(2)
  {
  }

  /** The frog's eyes mirror each other, and its body tapers: each body
      segment is three quarters of the one before. */
  lemma FrogShape(section: Section, b: nat, gen: Generator, k: nat)
    ensures FrogHead(section, b)[1].seg == FrogHead(section, b)[2].seg.(bodyAngle := BodyAngle(0.0, 0.0, -150.0))
    ensures ChainSegment(FrogBody(section), gen, k + 1).circle.radius
         == ChainSegment(FrogBody(section), gen, k).circle.radius * 0.75
  {
  }
}
