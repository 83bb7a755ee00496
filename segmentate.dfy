/** `segmentate`: expands a section tree into segments by dispatching each
    section on its type through the segmentation map, which here is a
    parameter (client/src/palamander/morphology/segmentation/segmentate.ts).

    A segmentation function is modelled on the arena as a value: given the
    arena, the parent (absent where the source passes `undefined`) and the
    section, it returns the arena afterwards, the segments it made and the
    section as it left it, or fails with the error it throws.

    The recursion is bounded by `fuel`: the sections that `follow` and the
    builders hand on are not part of the input tree, so nothing bounds
    their depth. Running out of fuel is a failure of its own. */
module Segmentate {
  import opened Wrappers
  import opened Segments
  import opened Sections
  import opened SegmentStore
  import opened Builders

  datatype Dispatched = Dispatched(nodes: seq<Node>, segments: seq<SegId>, section: Section)

  type SegmentationFunc = (seq<Node>, Option<SegId>, Section) -> Result<Dispatched>

  type SegmentationMap = map<string, SegmentationFunc>

  const OutOfFuel: string := "out of fuel"

  predicate ValidParent(parent: Option<SegId>, size: nat) {
    parent.None? || parent.value < size
  }

  predicate AllBelow(ids: seq<SegId>, size: nat) {
    forall k :: 0 <= k < |ids| ==> ids[k] < size
  }

  /** What every entry of the map is taken to do: keep the segments that
      exist and return segments that exist. */
  ghost predicate ValidMap(m: SegmentationMap) {
    forall key, nodes, parent, section {:trigger m[key](nodes, parent, section)} ::
      key in m && ValidParent(parent, |nodes|) && m[key](nodes, parent, section).Ok? ==>
        var d := m[key](nodes, parent, section).value;
        |nodes| <= |d.nodes| && AllBelow(d.segments, |d.nodes|)
  }

  /** `[...parents, ...follows, grandparent][index]`: absent past either end. */
  function BranchParent(parents: seq<SegId>, grandparent: Option<SegId>, index: int): (p: Option<SegId>)
    ensures 0 <= index < |parents| ==> p == Some(parents[index])
    ensures index == |parents| ==> p == grandparent
    ensures (index < 0 || index > |parents|) ==> p == None
  {
    if 0 <= index < |parents| then Some(parents[index])
    else if index == |parents| then grandparent
    else None
  }

  /** The parent of `next`: the last segment the section made, else the grandparent. */
  function LastParent(parents: seq<SegId>, grandparent: Option<SegId>): (p: Option<SegId>)
    ensures parents == [] ==> p == grandparent
    ensures parents != [] ==> p == Some(parents[|parents| - 1])
  {
    if parents == [] then grandparent else Some(parents[|parents| - 1])
  }

  /** `processSection` as a function: the arena afterwards and the segments
      returned, which are the section's own followed by those of its next
      chain. A type missing from the map returns nothing and changes nothing. */
  function Process(m: SegmentationMap, nodes: seq<Node>, parent: Option<SegId>, section: Section, fuel: nat): (r: Result<Built>)
    requires ValidMap(m) && ValidParent(parent, |nodes|)
    ensures section.kind !in m ==> r == Ok(Built(nodes, []))
    ensures r.Ok? ==> |nodes| <= |r.value.nodes| && AllBelow(r.value.segments, |r.value.nodes|)
    decreases fuel, 0
  {
    if section.kind !in m then Ok(Built(nodes, []))
    else if fuel == 0 then Err(OutOfFuel)
    else
      match m[section.kind](nodes, parent, section)
      case Err(e) => Err(e)
      case Ok(d) =>
        match Children(m, d.nodes, d.section, d.segments, parent, fuel - 1)
        case Err(e) => Err(e)
        case Ok(c) => Ok(Built(c.nodes, d.segments + c.segments))
  }

  /** `processChildren` as a function: next is processed under the last
      parent (or the grandparent), then every branch in order under its
      indexed parent; only the segments of next are returned. */
  function Children(m: SegmentationMap, nodes: seq<Node>, section: Section, parents: seq<SegId>,
                    grandparent: Option<SegId>, fuel: nat): (r: Result<Built>)
    requires ValidMap(m) && AllBelow(parents, |nodes|) && ValidParent(grandparent, |nodes|)
    ensures r.Ok? ==> |nodes| <= |r.value.nodes| && AllBelow(r.value.segments, |r.value.nodes|)
    decreases fuel, 2
  {
    var follows :=
      if section.next.None? then Ok(Built(nodes, []))
      else Process(m, nodes, LastParent(parents, grandparent), section.next.value, fuel);
    match follows
    case Err(e) => Err(e)
    case Ok(f) =>
      var chain := parents + f.segments;
      match Branches(m, f.nodes, section.branches, chain, grandparent, fuel)
      case Err(e) => Err(e)
      case Ok(after) => Ok(Built(after, f.segments))
  }

  /** The branches processed in list order; their segments are dropped. */
  function Branches(m: SegmentationMap, nodes: seq<Node>, branches: seq<Section>, chain: seq<SegId>,
                    grandparent: Option<SegId>, fuel: nat): (r: Result<seq<Node>>)
    requires ValidMap(m) && AllBelow(chain, |nodes|) && ValidParent(grandparent, |nodes|)
    ensures r.Ok? ==> |nodes| <= |r.value|
    decreases fuel, 1, |branches|
  {
    if branches == [] then Ok(nodes)
    else
      match Process(m, nodes, BranchParent(chain, grandparent, branches[0].index), branches[0], fuel)
      case Err(e) => Err(e)
      case Ok(b) => Branches(m, b.nodes, branches[1..], chain, grandparent, fuel)
  }

  /** `processChildren` returns the segments of `next` alone: none without
      a next, else exactly what processing next returned. The branches
      only change the arena: with the branches dropped the same segments
      come back, and that call fails only when next does. */
  lemma ChildrenIgnoresBranches(m: SegmentationMap, nodes: seq<Node>, section: Section, parents: seq<SegId>,
                                grandparent: Option<SegId>, fuel: nat)
    requires ValidMap(m) && AllBelow(parents, |nodes|) && ValidParent(grandparent, |nodes|)
    ensures var r := Children(m, nodes, section, parents, grandparent, fuel);
      && (section.next.None? && r.Ok? ==> r.value.segments == [])
      && (section.next.Some? && r.Ok? ==>
            var f := Process(m, nodes, LastParent(parents, grandparent), section.next.value, fuel);
            f.Ok? && r.value.segments == f.value.segments)
    ensures var r := Children(m, nodes, section, parents, grandparent, fuel);
      var bare := Children(m, nodes, section.(branches := []), parents, grandparent, fuel);
      && (bare.Ok? <==> section.next.None? || Process(m, nodes, LastParent(parents, grandparent), section.next.value, fuel).Ok?)
      && (r.Ok? ==> bare.Ok? && r.value.segments == bare.value.segments)
  {
    var bare := section.(branches := []);
    assert bare.next == section.next;
    if section.next.Some? {
      var f := Process(m, nodes, LastParent(parents, grandparent), section.next.value, fuel);
      if f.Ok? {
        assert Branches(m, f.value.nodes, bare.branches, parents + f.value.segments, grandparent, fuel) == Ok(f.value.nodes);
      }
    } else {
      assert Branches(m, nodes, bare.branches, parents + [], grandparent, fuel) == Ok(nodes);
    }
  }

  /** An Ok result of `processSection` on a section whose type is in the
      map begins with the segments its segmentation function made, and
      goes on with those of its next chain, which the section's branches
      do not affect. */
  lemma ProcessOwnThenNext(m: SegmentationMap, nodes: seq<Node>, parent: Option<SegId>, section: Section, fuel: nat)
    requires ValidMap(m) && ValidParent(parent, |nodes|)
    ensures var r := Process(m, nodes, parent, section, fuel);
      r.Ok? && section.kind in m ==>
        && fuel > 0 && m[section.kind](nodes, parent, section).Ok?
        && var d := m[section.kind](nodes, parent, section).value;
           var bare := Children(m, d.nodes, d.section.(branches := []), d.segments, parent, fuel - 1);
           && bare.Ok? && r.value.segments == d.segments + bare.value.segments
           && r.value.segments[..|d.segments|] == d.segments
  {
    var r := Process(m, nodes, parent, section, fuel);
    if r.Ok? && section.kind in m {
      var d := m[section.kind](nodes, parent, section).value;
      ChildrenIgnoresBranches(m, d.nodes, d.section, d.segments, parent, fuel - 1);
      var c := Children(m, d.nodes, d.section, d.segments, parent, fuel - 1);
      assert (d.segments + c.value.segments)[..|d.segments|] == d.segments;
    }
  }

  /** The arena after `segment.primary = true` for each of `ids`. */
  function MarkPrimary(nodes: seq<Node>, ids: seq<SegId>): (r: seq<Node>)
    requires AllBelow(ids, |nodes|)
    ensures |r| == |nodes|
    decreases |ids|
  {
    if ids == [] then nodes
    else
      var prev := MarkPrimary(nodes, ids[..|ids| - 1]);
      var id := ids[|ids| - 1];
      prev[id := prev[id].(seg := prev[id].seg.(primary := true))]
  }

  /** Marking touches only the primary flag: every marked segment is
      primary, every other segment is as it was, and no children change. */
  lemma {:induction false} MarkPrimaryEffect(nodes: seq<Node>, ids: seq<SegId>)
    requires AllBelow(ids, |nodes|)
    ensures forall k :: 0 <= k < |ids| ==> MarkPrimary(nodes, ids)[ids[k]].seg.primary
    ensures forall j :: 0 <= j < |nodes| && j !in ids ==> MarkPrimary(nodes, ids)[j] == nodes[j]
    ensures forall j :: 0 <= j < |nodes| ==>
      MarkPrimary(nodes, ids)[j].children == nodes[j].children
      && MarkPrimary(nodes, ids)[j].seg == nodes[j].seg.(primary := MarkPrimary(nodes, ids)[j].seg.primary)
    decreases |ids|
  {
    if ids != [] {
      var init := ids[..|ids| - 1];
      MarkPrimaryEffect(nodes, init);
      forall j | 0 <= j < |nodes| && j !in ids
        ensures MarkPrimary(nodes, ids)[j] == nodes[j]
      {
        assert j !in init;
      }
      forall k | 0 <= k < |ids|
        ensures MarkPrimary(nodes, ids)[ids[k]].seg.primary
      {
        if k < |ids| - 1 {
          assert ids[k] == init[k];
        }
      }
    }
  }

  /** `processSection`. */
  method ProcessSection(m: SegmentationMap, store: Store, parent: Option<SegId>, section: Section, fuel: nat)
    returns (r: Result<seq<SegId>>)
    requires ValidMap(m) && ValidParent(parent, |store.nodes|)
    modifies store
    ensures var spec := Process(m, old(store.nodes), parent, section, fuel);
      && (r.Err? <==> spec.Err?)
      && (r.Ok? ==> store.nodes == spec.value.nodes && r.value == spec.value.segments)
      && (r.Err? ==> r.error == spec.error)
    decreases fuel, 0
  {
    if section.kind !in m {
      return Ok([]);
    }
    if fuel == 0 {
      return Err(OutOfFuel);
    }
    var d := m[section.kind](store.nodes, parent, section);
    if d.Err? {
      return Err(d.error);
    }
    store.nodes := d.value.nodes;
    var follows := ProcessChildren(m, store, d.value.section, d.value.segments, parent, fuel - 1);
    if follows.Err? {
      return Err(follows.error);
    }
    r := Ok(d.value.segments + follows.value);
  }

  /** `processChildren`. */
  method ProcessChildren(m: SegmentationMap, store: Store, section: Section, parents: seq<SegId>,
                         grandparent: Option<SegId>, fuel: nat)
    returns (r: Result<seq<SegId>>)
    requires ValidMap(m) && AllBelow(parents, |store.nodes|) && ValidParent(grandparent, |store.nodes|)
    modifies store
    ensures var spec := Children(m, old(store.nodes), section, parents, grandparent, fuel);
      && (r.Err? <==> spec.Err?)
      && (r.Ok? ==> store.nodes == spec.value.nodes && r.value == spec.value.segments)
      && (r.Err? ==> r.error == spec.error)
    decreases fuel, 2
  {
    var follows: seq<SegId> := [];
    if section.next.Some? {
      var last := LastParent(parents, grandparent);
      var f := ProcessSection(m, store, last, section.next.value, fuel);
      if f.Err? {
        return Err(f.error);
      }
      follows := f.value;
    }
    var chain := parents + follows;
    var b := ProcessBranches(m, store, section.branches, chain, grandparent, fuel);
    if b.Err? {
      return Err(b.error);
    }
    r := Ok(follows);
  }

  /** The loop of `processChildren` over the branches: each is processed
      under its indexed parent, and the first error stops the loop. */
  method ProcessBranches(m: SegmentationMap, store: Store, branches: seq<Section>, chain: seq<SegId>,
                         grandparent: Option<SegId>, fuel: nat)
    returns (r: Result<()>)
    requires ValidMap(m) && AllBelow(chain, |store.nodes|) && ValidParent(grandparent, |store.nodes|)
    modifies store
    ensures var spec := Branches(m, old(store.nodes), branches, chain, grandparent, fuel);
      && (r.Err? <==> spec.Err?)
      && (r.Ok? ==> store.nodes == spec.value)
      && (r.Err? ==> r.error == spec.error)
    decreases fuel, 1
  {
    ghost var before := store.nodes;
    var i := 0;
    while i < |branches|
      invariant 0 <= i <= |branches|
      invariant AllBelow(chain, |store.nodes|) && ValidParent(grandparent, |store.nodes|)
      invariant Branches(m, before, branches, chain, grandparent, fuel)
             == Branches(m, store.nodes, branches[i..], chain, grandparent, fuel)
    {
      var branch := branches[i];
      assert branches[i..][1..] == branches[i + 1..];
      var parent := BranchParent(chain, grandparent, branch.index);
      var b := ProcessSection(m, store, parent, branch, fuel);
      if b.Err? {
        return Err(b.error);
      }
      i := i + 1;
    }
    r := Ok(());
  }

  /** `segmentate`: the tree hangs off a radius-100 root created first, and
      every segment returned is then marked primary. */
  method Segmentate(m: SegmentationMap, store: Store, tree: Section, fuel: nat) returns (r: Result<seq<SegId>>)
    requires ValidMap(m)
    modifies store
    ensures var root := old(|store.nodes|);
      var start := old(store.nodes) + [Node(CreateDefaultSegment(100.0, 100.0), [])];
      var spec := Process(m, start, Some(root), tree, fuel);
      && (r.Err? <==> spec.Err?)
      && (r.Ok? ==> r.value == spec.value.segments && store.nodes == MarkPrimary(spec.value.nodes, r.value))
  {
    var root := store.Add(CreateDefaultSegment(100.0, 100.0));
    var body := ProcessSection(m, store, Some(root), tree, fuel);
    if body.Err? {
      return body;
    }
    ghost var built := store.nodes;
    var i := 0;
    while i < |body.value|
      invariant 0 <= i <= |body.value|
      invariant store.nodes == MarkPrimary(built, body.value[..i])
    {
      assert body.value[..i + 1][..i] == body.value[..i];
      var id := body.value[i];
      store.SetSegment(id, store.nodes[id].seg.(primary := true));
      i := i + 1;
    }
    assert body.value[..i] == body.value;
    r := body;
  }
}
