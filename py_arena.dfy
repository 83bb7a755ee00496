/** The segment dicts the Python generator builds (tools/generate_palamanders.py).
    Each dict is a node of an arena addressed by its id (the position at
    which it was created); a node holds the dict's own keys and the ids of
    its `children` list in order. `curr['children'].append(x)` becomes
    `Link` on the arena, and a dict that is created but never appended
    anywhere stays in the arena as a node nobody points to. */
module PyArena {
  /** A wriggle spec dict: the keys every spec the generator writes has. */
  datatype PySpec = PySpec(range: real, period: real, i: int, squiggleRate: real, offset: real, synchronize: bool)

  /** The `bodyAngle` dict. */
  datatype PyAngle = PyAngle(relative: real, absolute: real, curveRange: real)

  /** A segment dict without its `children`. */
  datatype PySegment = PySegment(radius: real, bodyAngle: PyAngle, wriggle: seq<PySpec>,
                                 overlap: real, propagationInterval: real)

  datatype PyNode = PyNode(seg: PySegment, children: seq<nat>)

  /** `parent['children'].append(child)`. */
  function Link(nodes: seq<PyNode>, parent: nat, child: nat): (r: seq<PyNode>)
    requires parent < |nodes|
    ensures |r| == |nodes|
    ensures r[parent] == PyNode(nodes[parent].seg, nodes[parent].children + [child])
  {
    nodes[parent := nodes[parent].(children := nodes[parent].children + [child])]
  }

  /** A fresh dict created and appended to the parent's children. */
  function Attach(nodes: seq<PyNode>, parent: nat, seg: PySegment): (r: seq<PyNode>)
    requires parent < |nodes|
    ensures |r| == |nodes| + 1 && r[|nodes|] == PyNode(seg, [])
  {
    Link(nodes + [PyNode(seg, [])], parent, |nodes|)
  }

  /** The `curr` cursor of a chain loop after k turns that started at
      `parent` and created its dicts from id `base` on. */
  function Cursor(base: nat, parent: nat, k: nat): nat {
    if k == 0 then parent else base + k - 1
  }

  /** The arena after a chain loop: each dict of `segs` in turn becomes the
      only child of the previous one, the first the last child of `parent`. */
  function Chain(nodes: seq<PyNode>, parent: nat, segs: seq<PySegment>): (r: seq<PyNode>)
    requires parent < |nodes|
    ensures |r| == |nodes| + |segs|
    decreases |segs|
  {
    if segs == [] then nodes
    else
      var prev := Chain(nodes, parent, segs[..|segs| - 1]);
      Attach(prev, Cursor(|nodes|, parent, |segs| - 1), segs[|segs| - 1])
  }

  /** What a chain does to the arena: the parent gains exactly one child
      (the first new dict) after its earlier children, every other old node
      is untouched, and new dict k holds `segs[k]` with the next new dict as
      its only child (the last has none). */
  predicate ChainShape(nodes: seq<PyNode>, parent: nat, segs: seq<PySegment>, r: seq<PyNode>)
    requires parent < |nodes|
  {
    var b := |nodes|;
    |r| == b + |segs|
    && (forall j :: 0 <= j < b && j != parent ==> r[j] == nodes[j])
    && r[parent] == (if segs == [] then nodes[parent] else PyNode(nodes[parent].seg, nodes[parent].children + [b]))
    && (forall k :: 0 <= k < |segs| ==> r[b + k] == PyNode(segs[k], if k + 1 < |segs| then [b + k + 1] else []))
  }

  lemma {:induction false} ChainHasShape(nodes: seq<PyNode>, parent: nat, segs: seq<PySegment>)
    requires parent < |nodes|
    ensures ChainShape(nodes, parent, segs, Chain(nodes, parent, segs))
    decreases |segs|
  {
    if segs != [] {
      var n := |segs|;
      var init := segs[..n - 1];
      ChainHasShape(nodes, parent, init);
      var prev := Chain(nodes, parent, init);
      var b := |nodes|;
      var c := Cursor(b, parent, n - 1);
      var r := Chain(nodes, parent, segs);
      assert r == Attach(prev, c, segs[n - 1]);
      forall k | 0 <= k < n
        ensures r[b + k] == PyNode(segs[k], if k + 1 < n then [b + k + 1] else [])
      {
        if k == n - 1 {
        } else if k == n - 2 {
          assert c == b + k;
          assert prev[b + k] == PyNode(init[k], []);
        } else {
          assert prev[b + k] == PyNode(init[k], [b + k + 1]);
        }
      }
      if n == 1 {
        assert c == parent;
      } else {
        assert c != parent;
      }
    }
  }

  /** The nodes of a chain created from id `b` on, before the first is
      appended anywhere: dict k with dict k + 1 as its only child. */
  function Run(b: nat, segs: seq<PySegment>): (r: seq<PyNode>)
    ensures |r| == |segs|
  {
    seq(|segs|, k requires 0 <= k < |segs| => PyNode(segs[k], if k + 1 < |segs| then [b + k + 1] else []))
  }

  /** A chain is its run appended to the arena, the first dict of the run
      appended to the parent's children. */
  lemma ChainClosed(nodes: seq<PyNode>, parent: nat, segs: seq<PySegment>)
    requires parent < |nodes| && segs != []
    ensures Chain(nodes, parent, segs) == Link(nodes + Run(|nodes|, segs), parent, |nodes|)
  {
    ChainHasShape(nodes, parent, segs);
    var r := Chain(nodes, parent, segs);
    var e := Link(nodes + Run(|nodes|, segs), parent, |nodes|);
    forall j | 0 <= j < |r| ensures r[j] == e[j] {
      if j >= |nodes| {
        assert r[|nodes| + (j - |nodes|)] == e[j];
      }
    }
  }

  /** The nodes after a node, regrouped. */
  lemma Regroup(nodes: seq<PyNode>, n: PyNode, a: seq<PyNode>, b: seq<PyNode>)
    ensures nodes + [n] + a + b == nodes + [n] + (a + b)
    ensures nodes + [n] + (a + b) == nodes + ([n] + (a + b))
  {
  }

  /** Appending to a node leaves the nodes before and after it alone. */
  lemma LinkAt(nodes: seq<PyNode>, n: PyNode, extra: seq<PyNode>, child: nat)
    ensures Link(nodes + [n] + extra, |nodes|, child) == nodes + [n.(children := n.children + [child])] + extra
  {
    var r := Link(nodes + [n] + extra, |nodes|, child);
    var e := nodes + [n.(children := n.children + [child])] + extra;
    forall j | 0 <= j < |r| ensures r[j] == e[j] {}
  }

  /** One more turn of a chain loop. */
  lemma ChainStep(nodes: seq<PyNode>, parent: nat, segs: seq<PySegment>, i: nat)
    requires parent < |nodes| && i < |segs|
    ensures Chain(nodes, parent, segs[..i + 1])
         == Attach(Chain(nodes, parent, segs[..i]), Cursor(|nodes|, parent, i), segs[i])
  {
    assert segs[..i + 1][..i] == segs[..i];
  }

  /** The number of dicts in the chains. */
  function Total(chains: seq<seq<PySegment>>): nat
    decreases |chains|
  {
    if chains == [] then 0 else Total(chains[..|chains| - 1]) + |chains[|chains| - 1]|
  }

  /** Several chains hung off one parent, one after the other. */
  function Fan(nodes: seq<PyNode>, parent: nat, chains: seq<seq<PySegment>>): (r: seq<PyNode>)
    requires parent < |nodes|
    ensures |r| == |nodes| + Total(chains)
    decreases |chains|
  {
    if chains == [] then nodes
    else Chain(Fan(nodes, parent, chains[..|chains| - 1]), parent, chains[|chains| - 1])
  }

  lemma FanStep(nodes: seq<PyNode>, parent: nat, chains: seq<seq<PySegment>>, i: nat)
    requires parent < |nodes| && i < |chains|
    ensures Fan(nodes, parent, chains[..i + 1]) == Chain(Fan(nodes, parent, chains[..i]), parent, chains[i])
  {
    assert chains[..i + 1][..i] == chains[..i];
  }

  /** The id each chain of a fan starts at, when the fan creates its dicts
      from id `b` on. */
  function Starts(b: nat, chains: seq<seq<PySegment>>): (s: seq<nat>)
    ensures |s| == |chains|
    decreases |chains|
  {
    if chains == [] then []
    else var init := chains[..|chains| - 1]; Starts(b, init) + [b + Total(init)]
  }

  /** A chain keeps every old node but its parent. */
  lemma ChainKeeps(nodes: seq<PyNode>, parent: nat, segs: seq<PySegment>, j: nat)
    requires parent < |nodes| && j < |nodes| && j != parent
    ensures Chain(nodes, parent, segs)[j] == nodes[j]
  {
    ChainHasShape(nodes, parent, segs);
  }

  /** A chain's parent gains the chain's first dict, if there is one. */
  lemma ChainParent(nodes: seq<PyNode>, parent: nat, segs: seq<PySegment>)
    requires parent < |nodes|
    ensures Chain(nodes, parent, segs)[parent]
         == PyNode(nodes[parent].seg, nodes[parent].children + (if segs == [] then [] else [|nodes|]))
  {
    ChainHasShape(nodes, parent, segs);
    if segs == [] {
      assert nodes[parent].children + [] == nodes[parent].children;
    }
  }

  /** New dict k of a chain. */
  lemma ChainNode(nodes: seq<PyNode>, parent: nat, segs: seq<PySegment>, k: nat)
    requires parent < |nodes| && k < |segs|
    ensures Chain(nodes, parent, segs)[|nodes| + k]
         == PyNode(segs[k], if k + 1 < |segs| then [|nodes| + k + 1] else [])
  {
    ChainHasShape(nodes, parent, segs);
  }

  /** A fan keeps every old node but its parent. */
  lemma {:induction false} FanKeeps(nodes: seq<PyNode>, parent: nat, chains: seq<seq<PySegment>>, j: nat)
    requires parent < |nodes| && j < |nodes| && j != parent
    ensures Fan(nodes, parent, chains)[j] == nodes[j]
    decreases |chains|
  {
    if chains != [] {
      var init := chains[..|chains| - 1];
      FanKeeps(nodes, parent, init, j);
      ChainKeeps(Fan(nodes, parent, init), parent, chains[|chains| - 1], j);
    }
  }

  /** Dict k of chain i of a fan sits at the chain's start plus k, with the
      next dict of its chain as its only child. */
  lemma {:induction false} FanNode(nodes: seq<PyNode>, parent: nat, chains: seq<seq<PySegment>>, i: nat, k: nat)
    requires parent < |nodes| && i < |chains| && k < |chains[i]|
    ensures var s := Starts(|nodes|, chains)[i];
      && |nodes| <= s && s + |chains[i]| <= |nodes| + Total(chains)
      && Fan(nodes, parent, chains)[s + k]
         == PyNode(chains[i][k], if k + 1 < |chains[i]| then [s + k + 1] else [])
    decreases |chains|
  {
    var n := |chains|;
    var init := chains[..n - 1];
    var prev := Fan(nodes, parent, init);
    assert Starts(|nodes|, chains) == Starts(|nodes|, init) + [|nodes| + Total(init)];
    if i < n - 1 {
      assert init[i] == chains[i];
      FanNode(nodes, parent, init, i, k);
      ChainKeeps(prev, parent, chains[n - 1], Starts(|nodes|, init)[i] + k);
    } else {
      ChainNode(prev, parent, chains[n - 1], k);
    }
  }

  /** The parent of a fan gains the starts of its non-empty chains. */
  function NonEmptyStarts(b: nat, chains: seq<seq<PySegment>>): seq<nat>
    decreases |chains|
  {
    if chains == [] then []
    else
      var init := chains[..|chains| - 1];
      NonEmptyStarts(b, init) + (if chains[|chains| - 1] == [] then [] else [b + Total(init)])
  }

  lemma {:induction false} FanParent(nodes: seq<PyNode>, parent: nat, chains: seq<seq<PySegment>>)
    requires parent < |nodes|
    ensures Fan(nodes, parent, chains)[parent]
         == PyNode(nodes[parent].seg, nodes[parent].children + NonEmptyStarts(|nodes|, chains))
    decreases |chains|
  {
    if chains == [] {
      assert nodes[parent].children + [] == nodes[parent].children;
    } else {
      var init := chains[..|chains| - 1];
      FanParent(nodes, parent, init);
      var prev := Fan(nodes, parent, init);
      ChainParent(prev, parent, chains[|chains| - 1]);
      var extra := if chains[|chains| - 1] == [] then [] else [|prev|];
      assert nodes[parent].children + NonEmptyStarts(|nodes|, init) + extra
          == nodes[parent].children + NonEmptyStarts(|nodes|, chains);
    }
  }

  /** A fan of chains of one length L: the total is L per chain, every
      chain's start is where its parent gains a child, and chain i starts
      L * i ids after the first. */
  lemma {:induction false} UniformStarts(b: nat, chains: seq<seq<PySegment>>, L: nat)
    requires L > 0 && forall i :: 0 <= i < |chains| ==> |chains[i]| == L
    ensures Total(chains) == L * |chains|
    ensures NonEmptyStarts(b, chains) == Starts(b, chains)
    ensures forall i :: 0 <= i < |chains| ==> Starts(b, chains)[i] == b + L * i
    decreases |chains|
  {
    if chains != [] {
      var init := chains[..|chains| - 1];
      UniformStarts(b, init, L);
      assert L * (|chains| - 1) + L == L * |chains|;
    }
  }

  /** The parent of a fan of chains of one length L gains a child every L
      ids from the first new id on. */
  lemma UniformFanParent(nodes: seq<PyNode>, parent: nat, chains: seq<seq<PySegment>>, L: nat)
    requires parent < |nodes| && L > 0 && forall i :: 0 <= i < |chains| ==> |chains[i]| == L
    ensures |Fan(nodes, parent, chains)| == |nodes| + L * |chains|
    ensures Fan(nodes, parent, chains)[parent].children
         == nodes[parent].children + seq(|chains|, j => |nodes| + L * j)
  {
    UniformStarts(|nodes|, chains, L);
    FanParent(nodes, parent, chains);
    assert Starts(|nodes|, chains) == seq(|chains|, j => |nodes| + L * j);
  }

  /** Dict k of chain i of a fan of chains of one length L. */
  lemma UniformFanNode(nodes: seq<PyNode>, parent: nat, chains: seq<seq<PySegment>>, L: nat, i: nat, k: nat)
    requires parent < |nodes| && L > 0 && forall i :: 0 <= i < |chains| ==> |chains[i]| == L
    requires i < |chains| && k < L
    ensures |nodes| + L * i + k < |Fan(nodes, parent, chains)|
    ensures Fan(nodes, parent, chains)[|nodes| + L * i + k]
         == PyNode(chains[i][k], if k + 1 < L then [|nodes| + L * i + k + 1] else [])
  {
    UniformStarts(|nodes|, chains, L);
    FanNode(nodes, parent, chains, i, k);
  }

  /** Two fans off one parent, one after the other, are one fan. */
  lemma {:induction false} FanAppend(nodes: seq<PyNode>, parent: nat, a: seq<seq<PySegment>>, c: seq<seq<PySegment>>)
    requires parent < |nodes|
    ensures Fan(nodes, parent, a + c) == Fan(Fan(nodes, parent, a), parent, c)
    decreases |c|
  {
    if c == [] {
      assert a + c == a;
    } else {
      var init := c[..|c| - 1];
      FanAppend(nodes, parent, a, init);
      assert (a + c)[..|a + c| - 1] == a + init;
    }
  }

  /** The dicts of one run of the generator. */
  class Pool {
    var nodes: seq<PyNode>

    constructor ()
      ensures nodes == []
    {
      nodes := [];
    }

    /** A dict created without a parent. */
    method Add(seg: PySegment) returns (id: nat)
      modifies this
      ensures id == old(|nodes|) && nodes == old(nodes) + [PyNode(seg, [])]
    {
      id := |nodes|;
      nodes := nodes + [PyNode(seg, [])];
    }

    /** `parent['children'].append(child)`. */
    method Append(parent: nat, child: nat)
      requires parent < |nodes|
      modifies this
      ensures nodes == Link(old(nodes), parent, child)
    {
      nodes := Link(nodes, parent, child);
    }
  }
}
