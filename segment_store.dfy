/** The segment objects the TypeScript builders create and link. Each
    segment is a node of an arena addressed by its id (the position at
    which it was created); a node holds the segment's own fields and the
    ids of its children in order. `children.push` on an object becomes
    `Link` on the arena. */
module SegmentStore {
  import opened Segments

  type SegId = nat

  /** `seg` carries every field of the segment except its children, which
      are the ids in `children`. */
  datatype Node = Node(seg: Segment, children: seq<SegId>)

  /** `parent.children.push(child)`. */
  function Link(nodes: seq<Node>, parent: SegId, child: SegId): (r: seq<Node>)
    requires parent < |nodes|
    ensures |r| == |nodes|
    ensures r[parent] == Node(nodes[parent].seg, nodes[parent].children + [child])
    ensures forall i | 0 <= i < |nodes| && i != parent :: r[i] == nodes[i]
  {
    nodes[parent := nodes[parent].(children := nodes[parent].children + [child])]
  }

  /** A fresh segment created and pushed onto the parent's children. */
  function Attach(nodes: seq<Node>, parent: SegId, seg: Segment): (r: seq<Node>)
    requires parent < |nodes|
    ensures |r| == |nodes| + 1 && r[|nodes|] == Node(seg, [])
  {
    Link(nodes, parent, |nodes|) + [Node(seg, [])]
  }

  /** The `curr` cursor of a chain loop after k steps that started at
      `parent` and created its segments from id `base` on. */
  function Cursor(base: nat, parent: SegId, k: nat): SegId {
    if k == 0 then parent else base + k - 1
  }

  /** The arena after a chain loop: each segment of `segs` in turn becomes
      the only new child of the previous one, the first of `parent`. */
  function AppendChain(nodes: seq<Node>, parent: SegId, segs: seq<Segment>): (r: seq<Node>)
    requires parent < |nodes|
    ensures |r| == |nodes| + |segs|
    decreases |segs|
  {
    if segs == [] then nodes
    else
      var prev := AppendChain(nodes, parent, segs[..|segs| - 1]);
      Attach(prev, Cursor(|nodes|, parent, |segs| - 1), segs[|segs| - 1])
  }

  /** One more turn of a chain loop: segment i is created and pushed onto
      the segment the previous turn created (the parent on the first turn). */
  lemma AppendChainStep(nodes: seq<Node>, parent: SegId, segs: seq<Segment>, i: nat)
    requires parent < |nodes| && i < |segs|
    ensures AppendChain(nodes, parent, segs[..i + 1])
         == Attach(AppendChain(nodes, parent, segs[..i]), Cursor(|nodes|, parent, i), segs[i])
  {
    assert segs[..i + 1][..i] == segs[..i];
  }

  /** The ids of n segments created one after another from `base`. */
  function ChainIds(base: nat, n: nat): (ids: seq<SegId>)
    ensures |ids| == n
  {
    if n == 0 then [] else ChainIds(base, n - 1) + [base + n - 1]
  }

  /** Id k of the run is base + k. */
  lemma {:induction false} ChainIdsAt(base: nat, n: nat, k: nat)
    requires k < n
    ensures ChainIds(base, n)[k] == base + k
  {
    if k < n - 1 {
      ChainIdsAt(base, n - 1, k);
    }
  }

  /** Pushing onto the newest segment only changes that segment. */
  lemma LinkLast(nodes: seq<Node>, n: Node, child: SegId)
    ensures Link(nodes + [n], |nodes|, child) == nodes + [n.(children := n.children + [child])]
    ensures n.children == [] ==> Link(nodes + [n], |nodes|, child) == nodes + [Node(n.seg, [child])]
    ensures |n.children| == 1 ==> Link(nodes + [n], |nodes|, child) == nodes + [Node(n.seg, [n.children[0], child])]
  {
    assert n.children == [] ==> n.children + [child] == [child];
    assert |n.children| == 1 ==> n.children + [child] == [n.children[0], child];
    var r := Link(nodes + [n], |nodes|, child);
    var e := nodes + [n.(children := n.children + [child])];
    forall j | 0 <= j < |r| ensures r[j] == e[j] {}
  }

  /** Pushing onto an older segment commutes with creating newer ones. */
  lemma LinkBefore(nodes: seq<Node>, extra: seq<Node>, parent: SegId, child: SegId)
    requires parent < |nodes|
    ensures Link(nodes + extra, parent, child) == Link(nodes, parent, child) + extra
  {
    var r := Link(nodes + extra, parent, child);
    var e := Link(nodes, parent, child) + extra;
    forall j | 0 <= j < |r| ensures r[j] == e[j] {}
  }

  /** A fresh segment pushed onto a segment created before `extra`: that
      segment gains the new id, `extra` is kept, the new node comes last. */
  lemma AttachAt(nodes: seq<Node>, n: Node, extra: seq<Node>, seg: Segment)
    ensures Attach(nodes + [n] + extra, |nodes|, seg)
         == nodes + [n.(children := n.children + [|nodes| + 1 + |extra|])] + extra + [Node(seg, [])]
  {
    var r := Attach(nodes + [n] + extra, |nodes|, seg);
    var e := nodes + [n.(children := n.children + [|nodes| + 1 + |extra|])] + extra + [Node(seg, [])];
    forall j | 0 <= j < |r| ensures r[j] == e[j] {}
  }

  /** Two fresh segments pushed in turn onto a segment just created
      without children: it gains their ids in order, and they come last. */
  lemma AttachFresh2(start: seq<Node>, h: Segment, s1: Segment, s2: Segment)
    ensures var n := |start|;
      Attach(Attach(start + [Node(h, [])], n, s1), n, s2)
      == start + [Node(h, [n + 1, n + 2]), Node(s1, []), Node(s2, [])]
  {
    var n := |start|;
    assert start + [Node(h, [])] + [] == start + [Node(h, [])];
    AttachAt(start, Node(h, []), [], s1);
    assert [] + [n + 1] == [n + 1];
    AttachAt(start, Node(h, [n + 1]), [Node(s1, [])], s2);
    assert [n + 1] + [n + 2] == [n + 1, n + 2];
  }

  /** Three fresh segments pushed in turn onto a segment just created
      without children. */
  lemma AttachFresh3(start: seq<Node>, h: Segment, s1: Segment, s2: Segment, s3: Segment)
    ensures var n := |start|;
      Attach(Attach(Attach(start + [Node(h, [])], n, s1), n, s2), n, s3)
      == start + [Node(h, [n + 1, n + 2, n + 3]), Node(s1, []), Node(s2, []), Node(s3, [])]
  {
    var n := |start|;
    AttachFresh2(start, h, s1, s2);
    AttachAt(start, Node(h, [n + 1, n + 2]), [Node(s1, []), Node(s2, [])], s3);
    assert [n + 1, n + 2] + [n + 3] == [n + 1, n + 2, n + 3];
  }

  /** Four fresh segments pushed in turn onto a segment just created
      without children. */
  lemma AttachFresh4(start: seq<Node>, h: Segment, s1: Segment, s2: Segment, s3: Segment, s4: Segment)
    ensures var n := |start|;
      Attach(Attach(Attach(Attach(start + [Node(h, [])], n, s1), n, s2), n, s3), n, s4)
      == start + [Node(h, [n + 1, n + 2, n + 3, n + 4]), Node(s1, []), Node(s2, []), Node(s3, []), Node(s4, [])]
  {
    var n := |start|;
    AttachFresh3(start, h, s1, s2, s3);
    AttachAt(start, Node(h, [n + 1, n + 2, n + 3]), [Node(s1, []), Node(s2, []), Node(s3, [])], s4);
    assert [n + 1, n + 2, n + 3] + [n + 4] == [n + 1, n + 2, n + 3, n + 4];
  }

  /** Two runs of ids one after the other make one run. */
  lemma {:induction false} ChainIdsAppend(base: nat, m: nat, n: nat)
    ensures ChainIds(base, m) + ChainIds(base + m, n) == ChainIds(base, m + n)
  {
    if n > 0 {
      ChainIdsAppend(base, m, n - 1);
      assert ChainIds(base, m) + ChainIds(base + m, n)
          == (ChainIds(base, m) + ChainIds(base + m, n - 1)) + [base + m + n - 1];
    }
  }

  /** Two fresh segments pushed onto the same parent: the parent's children
      gain exactly those two, in order, and every other old node is kept. */
  lemma AttachTwice(nodes: seq<Node>, parent: SegId, x: Segment, y: Segment)
    requires parent < |nodes|
    ensures var r := Attach(Attach(nodes, parent, x), parent, y);
      && |r| == |nodes| + 2
      && r[parent] == Node(nodes[parent].seg, nodes[parent].children + [|nodes|, |nodes| + 1])
      && r[|nodes|] == Node(x, []) && r[|nodes| + 1] == Node(y, [])
      && forall j :: 0 <= j < |nodes| && j != parent ==> r[j] == nodes[j]
  {
  }

  /** What a chain does to the arena: the parent gains exactly one child
      (the first new segment) after its earlier children, every other old
      node is untouched, and new segment k holds `segs[k]` with the next new
      segment as its only child (the last has none). */
  predicate ChainShape(nodes: seq<Node>, parent: SegId, segs: seq<Segment>, r: seq<Node>)
    requires parent < |nodes|
  {
    var b := |nodes|;
    |r| == b + |segs|
    && (forall j :: 0 <= j < b && j != parent ==> r[j] == nodes[j])
    && r[parent] == (if segs == [] then nodes[parent] else Node(nodes[parent].seg, nodes[parent].children + [b]))
    && (forall k :: 0 <= k < |segs| ==> r[b + k] == Node(segs[k], if k + 1 < |segs| then [b + k + 1] else []))
  }

  lemma {:induction false} AppendChainShape(nodes: seq<Node>, parent: SegId, segs: seq<Segment>)
    requires parent < |nodes|
    ensures ChainShape(nodes, parent, segs, AppendChain(nodes, parent, segs))
    decreases |segs|
  {
    if segs != [] {
      var n := |segs|;
      var init := segs[..n - 1];
      AppendChainShape(nodes, parent, init);
      var prev := AppendChain(nodes, parent, init);
      var b := |nodes|;
      var c := Cursor(b, parent, n - 1);
      var r := AppendChain(nodes, parent, segs);
      assert r == Attach(prev, c, segs[n - 1]);
      forall k | 0 <= k < n
        ensures r[b + k] == Node(segs[k], if k + 1 < n then [b + k + 1] else [])
      {
        if k == n - 1 {
        } else if k == n - 2 {
          assert c == b + k;
          assert prev[b + k] == Node(init[k], []);
        } else {
          assert prev[b + k] == Node(init[k], [b + k + 1]);
        }
      }
      if n == 1 {
        assert c == parent;
      } else {
        assert c != parent;
      }
    }
  }

  class Store {
    var nodes: seq<Node>

    constructor ()
      ensures nodes == []
    {
      nodes := [];
    }

    /** A segment created without a parent. */
    method Add(seg: Segment) returns (id: SegId)
      modifies this
      ensures id == old(|nodes|) && nodes == old(nodes) + [Node(seg, [])]
    {
      id := |nodes|;
      nodes := nodes + [Node(seg, [])];
    }

    /** A segment created and pushed onto the parent's children. */
    method AddChild(parent: SegId, seg: Segment) returns (id: SegId)
      requires parent < |nodes|
      modifies this
      ensures id == old(|nodes|) && nodes == Attach(old(nodes), parent, seg)
    {
      id := |nodes|;
      nodes := Attach(nodes, parent, seg);
    }

    /** An existing segment pushed onto the parent's children. */
    method Push(parent: SegId, child: SegId)
      requires parent < |nodes|
      modifies this
      ensures nodes == Link(old(nodes), parent, child)
    {
      nodes := Link(nodes, parent, child);
    }

    /** Overwrites the fields (not the children) of an existing segment. */
    method SetSegment(id: SegId, seg: Segment)
      requires id < |nodes|
      modifies this
      ensures nodes == old(nodes)[id := Node(seg, old(nodes)[id].children)]
    {
      nodes := nodes[id := Node(seg, nodes[id].children)];
    }
  }
}
