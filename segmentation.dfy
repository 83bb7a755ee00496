/** Segmentations: the parameters of a chain of segments, and the chain
    loops that build them (client/src/palamander/morphology/segmentation/segmentation.ts). */
module Segmentations {
  import opened Wrappers
  import opened Num
  import opened Suppressions
  import opened WriggleSpecs
  import opened Wriggles
  import opened Segments
  import opened Sections
  import opened SegmentStore

  /** A wriggle-spec generator: the specs of the segment at each index. */
  type Generator = int -> seq<WriggleSpec>

  datatype Segmentation = Segmentation(
    count: int,
    radius: real,
    taperFactor: real,
    angle: real,
    overlapMult: real,
    curveRange: real,
    curve: real,
    wriggle: Option<Generator>)

  /** A `Partial<Segmentation>`: every field may be missing. */
  datatype PartialSegmentation = PartialSegmentation(
    count: Option<int>,
    radius: Option<real>,
    taperFactor: Option<real>,
    angle: Option<real>,
    overlapMult: Option<real>,
    curveRange: Option<real>,
    curve: Option<real>,
    wriggle: Option<Generator>)

  const NoFields := PartialSegmentation(None, None, None, None, None, None, None, None)

  /** The period and curve presets shared by the builders. */
  const RELAXED: real := 3.5
  const DELIBERATE: real := 2.75
  const FRENETIC: real := 2.0
  const SQUIGGLY: real := 20.0
  const MUSCLEY: real := 10.0

  /** The defaults (count 1, radius 100, taper 1, angle 0, overlap 0.5,
      curve range 0, curve 0, no wriggle) overridden by the given fields. */
  function CreateSegmentation(p: PartialSegmentation): (s: Segmentation)
    ensures s.count == p.count.GetOr(1) && s.radius == p.radius.GetOr(100.0)
    ensures s.taperFactor == p.taperFactor.GetOr(1.0) && s.angle == p.angle.GetOr(0.0)
    ensures s.overlapMult == p.overlapMult.GetOr(0.5) && s.curveRange == p.curveRange.GetOr(0.0)
    ensures s.curve == p.curve.GetOr(0.0) && s.wriggle == p.wriggle
    ensures p == NoFields ==> s == Segmentation(1, 100.0, 1.0, 0.0, 0.5, 0.0, 0.0, None)
  {
    Segmentation(p.count.GetOr(1), p.radius.GetOr(100.0), p.taperFactor.GetOr(1.0), p.angle.GetOr(0.0),
                 p.overlapMult.GetOr(0.5), p.curveRange.GetOr(0.0), p.curve.GetOr(0.0), p.wriggle)
  }

  /** Count and angle from the section, radius scaled from the parent, the
      rest defaulted. */
  function ToSegmentation(sec: Section, parent: Segment): (s: Segmentation)
    ensures s == CreateSegmentation(NoFields.(count := Some(sec.count), radius := Some(CalculateRadius(parent, sec)),
                                              angle := Some(sec.angle)))
    ensures s.radius * 100.0 == parent.circle.radius * sec.size
  {
    CreateSegmentation(NoFields.(count := Some(sec.count), radius := Some(CalculateRadius(parent, sec)),
                                 angle := Some(sec.angle)))
  }

  /** The per-segment taper that shrinks a chain of `count` segments to
      `terminationFactor` of its radius: the count-th root, taken through
      the fractional power `pow`; a count below 2 takes the first power. */
  function CalculateTaper(pow: (real, real) -> real, terminationFactor: real, count: int): (r: real)
    ensures count <= 1 ==> r == pow(terminationFactor, 1.0)
    ensures count > 1 ==> r == pow(terminationFactor, 1.0 / count as real)
  {
    pow(terminationFactor, 1.0 / MaxInt(1, count) as real)
  }

  /** The number of segments a chain loop creates: `count`, or none. */
  function Count(s: Segmentation): nat { if s.count > 0 then s.count else 0 }

  /** Segment k of a chain. */
  function ChainSegment(s: Segmentation, gen: Generator, k: nat): Segment {
    var base := CreateSegment(Tapered(s.radius, s.taperFactor, k + 1), s.angle, s.overlapMult, 100.0);
    base.(bodyAngle := BodyAngle(0.0, s.curveRange, s.angle + k as real * s.curve), wriggle := ToWriggle(gen(k)))
  }

  /** Segment k of a chain: its radius is tapered k + 1 times, its overlap
      scales with that radius, its relative angle turns by k curves, its
      wriggle comes from the generator, and it starts without children. */
  lemma ChainSegmentFields(s: Segmentation, gen: Generator, k: nat)
    ensures var seg := ChainSegment(s, gen, k);
      && seg.circle.radius == s.radius * Pow(s.taperFactor, k + 1)
      && seg.overlap == seg.circle.radius * s.overlapMult
      && seg.bodyAngle == BodyAngle(0.0, s.curveRange, s.angle + k as real * s.curve)
      && seg.wriggle == ToWriggle(gen(k)) && seg.children == [] && !seg.primary
      && seg.propagationInterval == 100.0
  {
    TaperedPow(s.radius, s.taperFactor, k + 1);
  }

  /** The segments of a chain, in order. */
  function Chain(s: Segmentation, gen: Generator): (segs: seq<Segment>)
    ensures |segs| == Count(s)
  {
    seq(Count(s), (k: int) => ChainSegment(s, gen, if k < 0 then 0 else k))
  }

  /** The generator a segmentation carries, or none (no wriggle). */
  function GeneratorOf(s: Segmentation): Generator {
    if s.wriggle.Some? then s.wriggle.value else (_ => [])
  }

  /** A taper factor strictly between 0 and 1 makes radii strictly decrease
      along a chain, and keeps them positive. */
  lemma TaperedRadii(s: Segmentation, gen: Generator, j: nat, k: nat)
    requires s.radius > 0.0 && 0.0 < s.taperFactor < 1.0 && j < k
    ensures 0.0 < ChainSegment(s, gen, k).circle.radius < ChainSegment(s, gen, j).circle.radius
  {
    TaperedPow(s.radius, s.taperFactor, j + 1);
    TaperedPow(s.radius, s.taperFactor, k + 1);
    PowStrictlyDecreasing(s.taperFactor, j + 1, k + 1);
    PowPositive(s.taperFactor, k + 1);
    MulLtMono(Pow(s.taperFactor, k + 1), Pow(s.taperFactor, j + 1), s.radius);
  }

  /** With taper 1 every segment has the segmentation's radius. */
  lemma UntaperedRadii(s: Segmentation, gen: Generator, k: nat)
    requires s.taperFactor == 1.0
    ensures ChainSegment(s, gen, k).circle.radius == s.radius
  {
    TaperedPow(s.radius, 1.0, k + 1);
    PowOne(k + 1);
  }

  /** One more turn of a chain loop: segment i of the chain is attached
      under the cursor. */
  lemma ChainStep(start: seq<Node>, parent: SegId, s: Segmentation, gen: Generator, i: nat)
    requires parent < |start| && i < Count(s)
    ensures AppendChain(start, parent, Chain(s, gen)[..i + 1])
         == Attach(AppendChain(start, parent, Chain(s, gen)[..i]), Cursor(|start|, parent, i), ChainSegment(s, gen, i))
  {
    var chain := Chain(s, gen);
    assert chain[..i + 1][..i] == chain[..i];
  }

  /** A chain loop that ran all its turns has attached the whole chain. */
  lemma WholeChain(start: seq<Node>, parent: SegId, s: Segmentation, gen: Generator)
    requires parent < |start|
    ensures AppendChain(start, parent, Chain(s, gen)[..Count(s)]) == AppendChain(start, parent, Chain(s, gen))
    ensures ChainShape(start, parent, Chain(s, gen), AppendChain(start, parent, Chain(s, gen)))
  {
    assert Chain(s, gen)[..Count(s)] == Chain(s, gen);
    AppendChainShape(start, parent, Chain(s, gen));
  }

  /** The radius accumulator of a chain loop after n tapers. */
  function Tapered(radius: real, taper: real, n: nat): real {
    if n == 0 then radius else Tapered(radius, taper, n - 1) * taper
  }

  /** One more taper multiplies the accumulator by the factor. */
  lemma TaperedNext(radius: real, taper: real, n: nat, acc: real)
    requires acc == Tapered(radius, taper, n)
    ensures acc * taper == Tapered(radius, taper, n + 1)
  {
  }

  /** The accumulator holds radius * taper^n. */
  lemma {:induction false} TaperedPow(radius: real, taper: real, n: nat)
    ensures Tapered(radius, taper, n) == radius * Pow(taper, n)
  {
    if n > 0 {
      TaperedPow(radius, taper, n - 1);
      assert radius * Pow(taper, n - 1) * taper == radius * (taper * Pow(taper, n - 1));
    }
  }

  /** The segment that turn i of a chain loop creates from the tapered
      radius: the segmentation's angle, overlap and curve range, its relative
      angle turned by i curves, its wriggle from the generator. Given the
      accumulator's value, it is segment i of the chain. */
  method NextSegment(s: Segmentation, gen: Generator, radius: real, i: nat) returns (next: Segment)
    ensures radius == Tapered(s.radius, s.taperFactor, i + 1) ==> next == ChainSegment(s, gen, i)
  {
    next := CreateSegment(radius, s.angle, s.overlapMult, 100.0);
    next := next.(bodyAngle := next.bodyAngle.(curveRange := s.curveRange));
    next := next.(bodyAngle := next.bodyAngle.(relative := next.bodyAngle.relative + i as real * s.curve));
    next := next.(wriggle := ToWriggle(gen(i)));
  }

  /** Turn i of a chain loop, from the segment `curr` that the last turn
      created (or the parent): the radius tapers once more and the next
      segment is pushed onto `curr`'s children. */
  method ChainTurn(store: Store, ghost start: seq<Node>, parent: SegId, s: Segmentation, gen: Generator,
                   curr: SegId, radius: real, i: nat)
    returns (next: SegId, tapered: real)
    requires parent < |start| && i < Count(s)
    requires radius == Tapered(s.radius, s.taperFactor, i)
    requires store.nodes == AppendChain(start, parent, Chain(s, gen)[..i])
    requires curr == Cursor(|start|, parent, i)
    modifies store
    ensures tapered == Tapered(s.radius, s.taperFactor, i + 1)
    ensures store.nodes == AppendChain(start, parent, Chain(s, gen)[..i + 1])
    ensures next == |start| + i == Cursor(|start|, parent, i + 1)
  {
    TaperedNext(s.radius, s.taperFactor, i, radius);
    tapered := radius * s.taperFactor;
    var seg := NextSegment(s, gen, tapered, i);
    ChainStep(start, parent, s, gen, i);
    next := store.AddChild(curr, seg);
  }

  /** The chain loop of `createDefault` with a wriggle generator. */
  method CreateDefault(store: Store, parent: SegId, s: Segmentation, gen: Generator) returns (segments: seq<SegId>)
    requires parent < |store.nodes|
    modifies store
    ensures store.nodes == AppendChain(old(store.nodes), parent, Chain(s, gen))
    ensures ChainShape(old(store.nodes), parent, Chain(s, gen), store.nodes)
    ensures segments == ChainIds(old(|store.nodes|), Count(s))
  {
    ghost var start := store.nodes;
    segments := [];
    var curr := parent;
    var radius := s.radius;
    var i := 0;
    while i < s.count
      invariant 0 <= i <= Count(s)
      invariant radius == Tapered(s.radius, s.taperFactor, i)
      invariant store.nodes == AppendChain(start, parent, Chain(s, gen)[..i])
      invariant curr == Cursor(|start|, parent, i)
      invariant segments == ChainIds(|start|, i)
    {
      curr, radius := ChainTurn(store, start, parent, s, gen, curr, radius, i);
      segments := segments + [curr];
      i := i + 1;
    }
    WholeChain(start, parent, s, gen);
  }

  /** The chain loop of `asSegments`: the wriggle comes from the
      segmentation's own generator, or is empty when it has none. */
  method AsSegments(store: Store, parent: SegId, s: Segmentation) returns (segments: seq<SegId>)
    requires parent < |store.nodes|
    modifies store
    ensures store.nodes == AppendChain(old(store.nodes), parent, Chain(s, GeneratorOf(s)))
    ensures segments == ChainIds(old(|store.nodes|), Count(s))
  {
    segments := CreateDefault(store, parent, s, GeneratorOf(s));
  }

  /** Every segment rotates with the whole line: one rotation component
      built from the same wave. */
  function RotationGenerator(wave: WaveSpec): (gen: Generator)
    ensures forall i :: gen(i) == [CreateRotationSpec(wave)]
  {
    _ => [CreateRotationSpec(wave)]
  }

  method CreateRotation(store: Store, parent: SegId, s: Segmentation, wave: WaveSpec) returns (segments: seq<SegId>)
    requires parent < |store.nodes|
    modifies store
    ensures store.nodes == AppendChain(old(store.nodes), parent, Chain(s, RotationGenerator(wave)))
    ensures segments == ChainIds(old(|store.nodes|), Count(s))
  {
    segments := CreateDefault(store, parent, s, RotationGenerator(wave));
  }

  /** Each segment of a rotation chain has exactly one component: a
      rotation (index 0, no phase step) of the given wave. */
  lemma RotationChainWriggle(s: Segmentation, wave: WaveSpec, k: nat)
    ensures var c := ChainSegment(s, RotationGenerator(wave), k).wriggle;
      |c| == 1 && c[0] == ToWriggleComponent(WriggleSpec(wave, 0, 0.0, false))
  {
  }

  /** Segment i of a noodle limb squiggles over twice the limb's length and
      tucks towards `pullTowards` at speed. */
  function NoodleGenerator(s: Segmentation, wave: WaveSpec, pullTowards: real): (gen: Generator)
    ensures forall i :: |gen(i)| == 1
    ensures forall i :: gen(i)[0].i == i && !gen(i)[0].synchronize
    ensures forall i :: s.count != 0 ==> gen(i)[0].squiggleRate * (s.count * 2) as real == 1.0
    ensures forall i :: (gen(i)[0].wave.suppression ==
      Some(Suppression(None, Some((pullTowards - s.angle) * 0.5), CalculateDelta(wave.range, wave.period))))
  {
    (i: int) =>
      var spec := CreateSquiggleSpec(wave, i, (s.count * 2) as real);
      [spec.(wave := spec.wave.(suppression := Some(CreateSuppression(wave.range, wave.period).(
        tuck := Some(CalculateTuck(s.angle, pullTowards, 0.5))))))]
  }

  method CreateNoodleLimb(store: Store, parent: SegId, s: Segmentation, wave: WaveSpec, pullTowards: real)
    returns (segments: seq<SegId>)
    requires parent < |store.nodes|
    modifies store
    ensures store.nodes == AppendChain(old(store.nodes), parent, Chain(s, NoodleGenerator(s, wave, pullTowards)))
    ensures segments == ChainIds(old(|store.nodes|), Count(s))
  {
    segments := CreateDefault(store, parent, s, NoodleGenerator(s, wave, pullTowards));
  }
}
