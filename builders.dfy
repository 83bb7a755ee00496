/** What every segmentation function shares: its outcome, the helpers it
    calls whose code is not part of this model, and the mirror direction.

    A segmentation function (`SegmentationFunc`) takes a parent segment and
    a section, may push segments onto existing ones and branches onto the
    section, and returns the segments it made. Here the parent is an id in
    the segment arena, and the section, a value, is returned as it is
    afterwards. */
module Builders {
  import opened Wrappers
  import opened Sections
  import opened SegmentStore
  import opened Suppressions
  import opened WriggleSpecs
  import opened WriggleGradients
  import opened Segmentations

  /** The segments a segmentation function returns, and its section as the
      function left it. `follow(section, next)` has this shape too: the
      segments it returns and its first argument as it leaves it. */
  datatype Outcome = Outcome(segments: seq<SegId>, section: Section)

  /** What `toSegments(parent, segmentation)` leaves behind: the arena
      afterwards, and the segments it returns. */
  datatype Built = Built(nodes: seq<Node>, segments: seq<SegId>)

  /** The gradient literal handed to `mixSquiggle`: a wave and the fields
      the literal sets. */
  datatype PartialGradient = PartialGradient(
    wave: WaveSpec,
    length: Option<real>,
    easeFactor: Option<real>,
    increase: Option<real>,
    suppression: Option<SuppressionGradient>)

  /** The helpers the builders import but whose code is not part of this
      model, as parameters without semantics:
      `follow`, `replace`, `passthru` and `deepClone` on sections;
      `toSegments` and the `mixCurl`, `mixRotation`, `mixSquiggle` mixers
      on segmentations; `squiggleGradient`, the wriggle generator that
      `createSquiggleGradient` assembles from unexported gradient helpers;
      and `pow`, the fractional `Math.pow` that `calculateTaper` uses. */
  datatype Env = Env(
    follow: (Section, Section) -> Outcome,
    replace: Section -> Section,
    passthru: Section -> Section,
    deepClone: Section -> Section,
    toSegments: (seq<Node>, SegId, Segmentation) -> Built,
    mixCurl: (Segmentation, WaveSpec) -> Segmentation,
    mixRotation: (Segmentation, WaveSpec) -> Segmentation,
    mixSquiggle: (Segmentation, PartialGradient) -> Segmentation,
    squiggleGradient: (int, WaveSpec, real, DampenRange) -> Generator,
    pow: (real, real) -> real)

  /** The one assumption made about the unseen `toSegments`: it keeps every
      segment that exists (the arena never shrinks) and returns segments
      that exist. */
  ghost predicate Sound(env: Env) {
    forall nodes: seq<Node>, parent: SegId, s: Segmentation {:trigger env.toSegments(nodes, parent, s)} ::
      parent < |nodes| ==>
        var b := env.toSegments(nodes, parent, s);
        |nodes| <= |b.nodes| && forall k :: 0 <= k < |b.segments| ==> b.segments[k] < |b.nodes|
  }

  /** `toSegments(parent, segmentation)` applied to the arena. */
  method ToSegments(env: Env, store: Store, parent: SegId, s: Segmentation) returns (segments: seq<SegId>)
    requires Sound(env) && parent < |store.nodes|
    modifies store
    ensures var b := env.toSegments(old(store.nodes), parent, s);
      store.nodes == b.nodes && segments == b.segments
    ensures old(|store.nodes|) <= |store.nodes|
    ensures forall k :: 0 <= k < |segments| ==> segments[k] < |store.nodes|
  {
    var b := env.toSegments(store.nodes, parent, s);
    store.nodes := b.nodes;
    segments := b.segments;
  }

  /** A wave literal `{ range, period, offset, acceleration? }`. */
  function Wave(range: real, period: real, offset: real, acceleration: Option<real>): WaveSpec {
    WaveSpec(range, period, acceleration, Some(offset), None)
  }

  /** `section.mirror ? -1 : 1`: the sign of every side angle. */
  function Dir(mirror: bool): (d: real)
    ensures d == 1.0 || d == -1.0
    ensures d == -1.0 <==> mirror
  {
    if mirror then -1.0 else 1.0
  }
}
