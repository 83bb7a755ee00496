/** The head segmentations: a few segments created apart from the parent
    (the parent is never read, so it is not a parameter here), returned
    with the segment the body is to hang off last, and a decorative branch
    added to the section
    (client/src/palamander/morphology/segmentation/segmentate-head.ts).
    The new segments are appended to the arena in creation order; the
    nodes each head adds are given as a function of the first new id. */
module Heads {
  import opened Segments
  import opened Sections
  import opened SegmentStore
  import opened Builders

  /** `head`: one default segment with the section's size as its radius. */
  method Head(store: Store, section: Section) returns (o: Outcome)
    modifies store
    ensures store.nodes == old(store.nodes) + [Node(CreateDefaultSegment(section.size, 100.0), [])]
    ensures o == Outcome([old(|store.nodes|)], section)
  {
    var head := store.Add(CreateDefaultSegment(section.size, 100.0));
    o := Outcome([head], section);
  }

  /** A lion's ear on side `i` (-1 or 1): 40 percent of the head, 80 degrees
      off its axis, overlapping fully, never curving. */
  function LionEar(section: Section, i: real): Segment {
    var ear := CreateSegment(section.size * 0.4, 80.0 * i, 1.0, 100.0);
    ear.(bodyAngle := ear.bodyAngle.(curveRange := 0.0))
  }

  /** The lion head's segments from id b on: head, two ears, snout and neck,
      the last four all children of the head. */
  function LionHeadNodes(section: Section, b: nat): seq<Node> {
    [Node(CreateSegment(section.size, section.angle, 0.0, 100.0), [b + 1, b + 2, b + 3, b + 4]),
     Node(LionEar(section, -1.0), []),
     Node(LionEar(section, 1.0), []),
     Node(CreateSegment(section.size * 0.75, 180.0, 1.5, 100.0), []),
     Node(CreateSegment(section.size * 0.5, 0.0, 0.8, 100.0), [])]
  }

  /** `lion-head`: head, ears, snout and neck; a mane branch is added, and
      head and neck are returned. */
  method LionHead(store: Store, section: Section) returns (o: Outcome)
    modifies store
    ensures var b := old(|store.nodes|);
      && store.nodes == old(store.nodes) + LionHeadNodes(section, b)
      && o == Outcome([b, b + 4], section.(branches := section.branches + [CreateBranch(section, "mane")]))
  {
    ghost var start := store.nodes;
    var headSeg := CreateSegment(section.size, section.angle, 0.0, 100.0);
    var head := store.Add(headSeg);
    var left := store.AddChild(head, LionEar(section, -1.0));
    var right := store.AddChild(head, LionEar(section, 1.0));
    var snout := store.AddChild(head, CreateSegment(section.size * 0.75, 180.0, 1.5, 100.0));
    var neck := store.AddChild(head, CreateSegment(section.size * 0.5, 0.0, 0.8, 100.0));
    AttachFresh4(start, headSeg, LionEar(section, -1.0), LionEar(section, 1.0),
                 CreateSegment(section.size * 0.75, 180.0, 1.5, 100.0),
                 CreateSegment(section.size * 0.5, 0.0, 0.8, 100.0));
    var mane := CreateBranch(section, "mane");
    o := Outcome([head, neck], section.(branches := section.branches + [mane]));
  }

  /** A monkey's ear on side `i`: 45 percent of the head, square to its axis. */
  function MonkeyEar(section: Section, i: real): Segment {
    CreateSegment(section.size * 0.45, 90.0 * i, 0.6, 100.0)
  }

  /** The monkey head's segments from id b on: head, two ears and neck. */
  function MonkeyHeadNodes(section: Section, b: nat): seq<Node> {
    [Node(CreateSegment(section.size, section.angle, 0.0, 100.0), [b + 1, b + 2, b + 3]),
     Node(MonkeyEar(section, -1.0), []),
     Node(MonkeyEar(section, 1.0), []),
     Node(CreateSegment(section.size * 0.6, section.angle, 1.0, 100.0), [])]
  }

  /** `monkey-head`: head, ears and neck; a hairdo branch turned half round
      is added, and head and neck are returned. */
  method MonkeyHead(store: Store, section: Section) returns (o: Outcome)
    modifies store
    ensures var b := old(|store.nodes|);
      && store.nodes == old(store.nodes) + MonkeyHeadNodes(section, b)
      && o == Outcome([b, b + 3], section.(branches := section.branches
                        + [CreateBranch(section, "hairdo").(angle := section.angle + 180.0)]))
  {
    ghost var start := store.nodes;
    var headSeg := CreateSegment(section.size, section.angle, 0.0, 100.0);
    var head := store.Add(headSeg);
    var left := store.AddChild(head, MonkeyEar(section, -1.0));
    var right := store.AddChild(head, MonkeyEar(section, 1.0));
    var neck := store.AddChild(head, CreateSegment(section.size * 0.6, section.angle, 1.0, 100.0));
    AttachFresh3(start, headSeg, MonkeyEar(section, -1.0), MonkeyEar(section, 1.0),
                 CreateSegment(section.size * 0.6, section.angle, 1.0, 100.0));
    var mane := CreateBranch(section, "hairdo");
    mane := mane.(angle := mane.angle + 180.0);
    o := Outcome([head, neck], section.(branches := section.branches + [mane]));
  }

  /** The snake head's segments from id b on: a snout and the head behind it. */
  function SnakeHeadNodes(section: Section, b: nat): seq<Node> {
    [Node(CreateSegment(section.size * 0.75, section.angle, 0.0, 100.0), [b + 1]),
     Node(CreateSegment(section.size, section.angle, 1.0, 100.0), [])]
  }

  /** `snake-head`: a snout with the head as its child; a flicker (tongue)
      branch is added, and snout and head are returned. */
  method SnakeHead(store: Store, section: Section) returns (o: Outcome)
    modifies store
    ensures var b := old(|store.nodes|);
      && store.nodes == old(store.nodes) + SnakeHeadNodes(section, b)
      && o == Outcome([b, b + 1], section.(branches := section.branches + [CreateBranch(section, "flicker")]))
  {
    ghost var start := store.nodes;
    var b := |store.nodes|;
    var snoutSeg := CreateSegment(section.size * 0.75, section.angle, 0.0, 100.0);
    var snout := store.Add(snoutSeg);
    var headSeg := CreateSegment(section.size, section.angle, 1.0, 100.0);
    var head := store.AddChild(snout, headSeg);
    AttachAt(start, Node(snoutSeg, []), [], headSeg);
    assert [] + [b + 1] == [b + 1];
    var flicker := CreateBranch(section, "flicker");
    o := Outcome([snout, head], section.(branches := section.branches + [flicker]));
  }

  /** The children of the nodes, list after list. */
  function AllChildren(ns: seq<Node>): seq<SegId> {
    if ns == [] then [] else AllChildren(ns[..|ns| - 1]) + ns[|ns| - 1].children
  }

  /** The nodes from id b on form one tree rooted at the first: every child
      id points forward, and the children lists taken together name every
      other node exactly once, in creation order. */
  predicate FreshTree(ns: seq<Node>, b: nat) {
    && |ns| > 0
    && (forall j, k :: 0 <= j < |ns| && 0 <= k < |ns[j].children| ==> b + j < ns[j].children[k])
    && AllChildren(ns) == ChainIds(b + 1, |ns| - 1)
  }

  /** The lion head is a fresh tree; the neck it returns is the head's
      last child, so a body that follows hangs off the neck. */
  lemma LionHeadShape(section: Section, b: nat)
    ensures FreshTree(LionHeadNodes(section, b), b)
    ensures LionHeadNodes(section, b)[0].children[3] == b + 4
  {
    FanTree4(b, LionHeadNodes(section, b)[0].seg, LionEar(section, -1.0), LionEar(section, 1.0),
             LionHeadNodes(section, b)[3].seg, LionHeadNodes(section, b)[4].seg);
  }

  /** The monkey head is a fresh tree whose neck is the head's last child. */
  lemma MonkeyHeadShape(section: Section, b: nat)
    ensures FreshTree(MonkeyHeadNodes(section, b), b)
    ensures MonkeyHeadNodes(section, b)[0].children[2] == b + 3
  {
    FanTree3(b, MonkeyHeadNodes(section, b)[0].seg, MonkeyEar(section, -1.0), MonkeyEar(section, 1.0),
             MonkeyHeadNodes(section, b)[3].seg);
  }

  /** The snake head is a fresh tree: the head is the snout's only child. */
  lemma SnakeHeadShape(section: Section, b: nat)
    ensures FreshTree(SnakeHeadNodes(section, b), b)
    ensures SnakeHeadNodes(section, b)[0].children == [b + 1]
  {
    OnlyRootBranches(SnakeHeadNodes(section, b));
    assert ChainIds(b + 1, 1) == [b + 1];
  }

  /** A head with three fresh leaves as its children is a fresh tree. */
  lemma FanTree3(b: nat, h: Segment, s1: Segment, s2: Segment, s3: Segment)
    ensures FreshTree([Node(h, [b + 1, b + 2, b + 3]), Node(s1, []), Node(s2, []), Node(s3, [])], b)
  {
    OnlyRootBranches([Node(h, [b + 1, b + 2, b + 3]), Node(s1, []), Node(s2, []), Node(s3, [])]);
    assert ChainIds(b + 1, 1) == [b + 1];
    assert ChainIds(b + 1, 2) == [b + 1, b + 2];
    assert ChainIds(b + 1, 3) == [b + 1, b + 2, b + 3];
  }

  /** A head with four fresh leaves as its children is a fresh tree. */
  lemma FanTree4(b: nat, h: Segment, s1: Segment, s2: Segment, s3: Segment, s4: Segment)
    ensures FreshTree([Node(h, [b + 1, b + 2, b + 3, b + 4]), Node(s1, []), Node(s2, []), Node(s3, []), Node(s4, [])], b)
  {
    OnlyRootBranches([Node(h, [b + 1, b + 2, b + 3, b + 4]), Node(s1, []), Node(s2, []), Node(s3, []), Node(s4, [])]);
    assert ChainIds(b + 1, 1) == [b + 1];
    assert ChainIds(b + 1, 2) == [b + 1, b + 2];
    assert ChainIds(b + 1, 3) == [b + 1, b + 2, b + 3];
    assert ChainIds(b + 1, 4) == [b + 1, b + 2, b + 3, b + 4];
  }

  /** When only the first node has children, they are all the children. */
  lemma {:induction false} OnlyRootBranches(ns: seq<Node>)
    requires |ns| > 0 && forall j :: 1 <= j < |ns| ==> ns[j].children == []
    ensures AllChildren(ns) == ns[0].children
    decreases |ns|
  {
    if |ns| == 1 {
      assert ns[..0] == [];
    } else {
      var init := ns[..|ns| - 1];
      OnlyRootBranches(init);
      assert AllChildren(ns) == AllChildren(init) + [];
    }
  }

  /** Ears come in mirror pairs: the two ears of a head differ only in the
      sign of their angle off the head's axis. */
  lemma EarsMirror(section: Section)
    ensures LionEar(section, -1.0) == LionEar(section, 1.0).(bodyAngle := BodyAngle(0.0, 0.0, -80.0))
    ensures LionEar(section, 1.0).bodyAngle == BodyAngle(0.0, 0.0, 80.0)
    ensures MonkeyEar(section, -1.0) == MonkeyEar(section, 1.0).(bodyAngle := BodyAngle(0.0, 0.0, -90.0))
    ensures MonkeyEar(section, 1.0).bodyAngle == BodyAngle(0.0, 0.0, 90.0)
  {
  }
}
