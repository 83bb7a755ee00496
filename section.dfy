/** Sections: the declarative description of a creature that segmentation
    expands into segments (client/src/palamander/morphology/section.ts). */
module Sections {
  import opened Wrappers
  import opened Segments

  /** `kind` is the section's `type`, the key by which segmentation
      dispatches. `count`: how many segments; `index`: which segment of the
      parent section a branch hangs off; `size`: percent of the parent's
      radius; `angle` in degrees; `offset` for animation timing; `mirror`
      flips asymmetric parts. `parentIndex` is an extra property some
      builders spread onto a section literal (absent on fresh sections). */
  datatype Section = Section(
    kind: string,
    count: int,
    index: int,
    size: real,
    angle: real,
    offset: real,
    mirror: bool,
    next: Option<Section>,
    branches: seq<Section>,
    parentIndex: Option<int>)

  /** An 'empty' section with every number zero, no mirror, no next and no branches. */
  function CreateSection(): (s: Section)
    ensures s.kind == "empty" && s.count == 0 && s.index == 0
    ensures s.size == 0.0 && s.angle == 0.0 && s.offset == 0.0 && !s.mirror
    ensures s.next.None? && s.branches == [] && s.parentIndex.None?
  {
    Section("empty", 0, 0, 0.0, 0.0, 0.0, false, None, [], None)
  }

  /** The callers' `createSection(kind)`: a fresh section of the given kind. */
  function NewSection(kind: string): (s: Section)
    ensures s == CreateSection().(kind := kind)
  {
    CreateSection().(kind := kind)
  }

  /** A copy of the section with another kind, and with next and branches cleared. */
  function CreateBranch(s: Section, kind: string): (b: Section)
    ensures b.kind == kind && b.next.None? && b.branches == []
    ensures b.count == s.count && b.index == s.index && b.size == s.size
    ensures b.angle == s.angle && b.offset == s.offset && b.mirror == s.mirror
    ensures b.parentIndex == s.parentIndex
  {
    s.(kind := kind, next := None, branches := [])
  }

  function CreatePassthru(): (s: Section)
    ensures s == NewSection("passthru")
  {
    CreateSection().(kind := "passthru")
  }

  /** A branch of a passthru section, always hanging off index 0. */
  function CreatePassthruBranch(passthru: Section, kind: string): (b: Section)
    ensures b == CreateBranch(passthru, kind).(index := 0)
  {
    CreateBranch(passthru, kind).(index := 0)
  }

  /** The radius a section of the given size gets under a parent segment. */
  function CalculateRadius(parent: Segment, s: Section): (r: real)
    ensures r * 100.0 == parent.circle.radius * s.size
    ensures s.size == 100.0 ==> r == parent.circle.radius
  {
    parent.circle.radius * s.size / 100.0
  }

  /** Branching is idempotent, and a section without next or branches is its
      own branch of the same kind. */
  lemma CreateBranchIdempotent(s: Section, kind: string)
    ensures CreateBranch(CreateBranch(s, kind), kind) == CreateBranch(s, kind)
    ensures s.next.None? && s.branches == [] ==> CreateBranch(s, s.kind) == s
  {
  }
}
