/** The creature assemblers of the Python generator
    (tools/generate_palamanders.py, `create_tadpole` to `create_axolotl`).
    Each creates its head dict first and hangs chains off it with the
    chain builders; each is proved against the arena it leaves, given as a
    function of the arena it started from, and the shape of that arena is
    stated in lemmas. Two assemblers raise before they finish (centipede
    and crawdad); they are modelled as failing, each beside the version
    that was evidently intended. */
module PyCreatures {
  import opened Wrappers
  import opened Num
  import opened PyArena
  import opened PyGenerate

  /** A head dict: the default dict of the given radius, no children yet. */
  function Head(radius: real): PyNode {
    PyNode(DefaultSegment(radius, 100.0), [])
  }

  // -------------------------------------------------------------- tadpole

  /** The tadpole: a head of radius 20 trailing a ten-dict tapered snake. */
  function TadpoleNodes(nodes: seq<PyNode>): seq<PyNode> {
    Chain(nodes + [Head(20.0)], |nodes|, TaperedSnake(15.0, 10, 0.0, 0.9, 0.0))
  }

  /** `create_tadpole`. */
  method CreateTadpole(pool: Pool) returns (head: nat)
    modifies pool
    ensures head == old(|pool.nodes|) && pool.nodes == TadpoleNodes(old(pool.nodes))
  {
    head := pool.Add(DefaultSegment(20.0, 100.0));
    var tail := AddTaperedSnake(pool, head, 15.0, 10, 0.0, 0.9, 0.0);
  }

  /** The tadpole is a head with one tail of ten dicts, each the only child
      of the one before, shrinking from 15 by a factor 0.9 per dict. */
  lemma TadpoleShape(nodes: seq<PyNode>, k: nat)
    requires k < 10
    ensures var b := |nodes|; var t := TadpoleNodes(nodes);
      && |t| == b + 11 && t[b] == PyNode(DefaultSegment(20.0, 100.0), [b + 1])
      && t[b + 1 + k].seg.radius == 15.0 * Pow(0.9, k + 1)
      && t[b + 1 + k].children == (if k < 9 then [b + 2 + k] else [])
  {
    var b := |nodes|;
    var tail := TaperedSnake(15.0, 10, 0.0, 0.9, 0.0);
    ChainParent(nodes + [Head(20.0)], b, tail);
    ChainNode(nodes + [Head(20.0)], b, tail, k);
    SnakeTapers(15.0, 10, 0.0, 0.9, 0.0, k);
  }

  // -------------------------------------------------------- horseshoe crab

  /** The horseshoe crab: a head of radius 40 whose only child is a body of
      radius 30 overlapping by 30, trailing a spike of five dicts. The spike
      is hung off the body before the body is appended to the head. */
  function HorseshoeCrabNodes(nodes: seq<PyNode>): seq<PyNode> {
    var b := |nodes|;
    var body := PyNode(DefaultSegment(30.0, 100.0).(overlap := 30.0), []);
    Link(Chain(nodes + [Head(40.0), body], b + 1, Spike(3.0, 5, 0.0)), b, b + 1)
  }

  /** `create_horseshoe_crab`. */
  method CreateHorseshoeCrab(pool: Pool) returns (head: nat)
    modifies pool
    ensures head == old(|pool.nodes|) && pool.nodes == HorseshoeCrabNodes(old(pool.nodes))
  {
    head := pool.Add(DefaultSegment(40.0, 100.0));
    var seg := DefaultSegment(30.0, 100.0);
    seg := seg.(overlap := 30.0);
    var body := pool.Add(seg);
    assert pool.nodes == old(pool.nodes) + [Head(40.0), PyNode(seg, [])];
    var spiked := AddSpike(pool, body, 3.0, 5, 0.0);
    pool.Append(head, body);
  }

  /** The crab is head, body and a spike of five dicts in one line, the
      spike thinning from 3 by 0.6 per dict. */
  lemma HorseshoeCrabShape(nodes: seq<PyNode>, k: nat)
    requires k < 5
    ensures var b := |nodes|; var c := HorseshoeCrabNodes(nodes);
      && |c| == b + 7 && c[b].children == [b + 1] && c[b + 1].children == [b + 2]
      && c[b + 1].seg.overlap == 30.0 && c[b + 1].seg.radius == 30.0
      && c[b + 2 + k].seg.radius == 3.0 - 0.6 * k as real
      && c[b + 2 + k].children == (if k < 4 then [b + 3 + k] else [])
  {
    var b := |nodes|;
    var body := PyNode(DefaultSegment(30.0, 100.0).(overlap := 30.0), []);
    var before := nodes + [Head(40.0), body];
    var spike := Spike(3.0, 5, 0.0);
    var chained := Chain(before, b + 1, spike);
    var c := Link(chained, b, b + 1);
    assert c == HorseshoeCrabNodes(nodes);
    ChainParent(before, b + 1, spike);
    assert chained[b + 1] == PyNode(body.seg, [b + 2]);
    ChainKeeps(before, b + 1, spike, b);
    assert chained[b] == Head(40.0);
    ChainNode(before, b + 1, spike, k);
    assert c[b + 1] == chained[b + 1] && c[b + 2 + k] == chained[b + 2 + k];
    CrabSpikeDict(k);
  }

  /** Dict k of the crab's spike thins by 0.6 per dict from 3. */
  lemma CrabSpikeDict(k: nat)
    requires k < 5
    ensures Spike(3.0, 5, 0.0)[k].radius == 3.0 - 0.6 * k as real
  {
    assert Spike(3.0, 5, 0.0)[k] == SpikeDict(3.0, 5, 0.0, k);
  }

  // ---------------------------------------------------------- newt, axolotl

  /** The two limbs the newt hangs off a spine dict: tapered snakes of five
      at +45 and -45 degrees, each starting from half the dict's radius. */
  function Limbs(nodes: seq<PyNode>, host: nat): (r: seq<PyNode>)
    requires host < |nodes|
    ensures |r| == |nodes| + 10
  {
    var left := Chain(nodes, host, TaperedSnake(nodes[host].seg.radius / 2.0, 5, 45.0, 0.9, 0.5));
    Chain(left, host, TaperedSnake(left[host].seg.radius / 2.0, 5, -45.0, 0.9, 0.5))
  }

  /** The two `add_tapered_snake` calls on `curr` in `create_newt`. */
  method AddLimbs(pool: Pool, host: nat)
    requires host < |pool.nodes|
    modifies pool
    ensures pool.nodes == Limbs(old(pool.nodes), host)
  {
    var left := AddTaperedSnake(pool, host, pool.nodes[host].seg.radius / 2.0, 5, 45.0, 0.9, 0.5);
    var right := AddTaperedSnake(pool, host, pool.nodes[host].seg.radius / 2.0, 5, -45.0, 0.9, 0.5);
  }

  /** The limbs leave the host's own fields alone, give it the first dicts
      of the two limbs as its last two children, and keep every other node. */
  lemma LimbsShape(nodes: seq<PyNode>, host: nat)
    requires host < |nodes|
    ensures var b := |nodes|; var r := Limbs(nodes, host); var half := nodes[host].seg.radius / 2.0;
      && r[host] == PyNode(nodes[host].seg, nodes[host].children + [b, b + 5])
      && (forall j :: 0 <= j < b && j != host ==> r[j] == nodes[j])
      && r[b].seg == SnakeDict(half, 5, 45.0, 0.9, 0.5, 0)
      && r[b + 5].seg == SnakeDict(half, 5, -45.0, 0.9, 0.5, 0)
  {
    var b := |nodes|;
    var half := nodes[host].seg.radius / 2.0;
    var ls := TaperedSnake(half, 5, 45.0, 0.9, 0.5);
    var left := Chain(nodes, host, ls);
    ChainHasShape(nodes, host, ls);
    assert ls[0] == SnakeDict(half, 5, 45.0, 0.9, 0.5, 0);
    var rs := TaperedSnake(left[host].seg.radius / 2.0, 5, -45.0, 0.9, 0.5);
    assert rs[0] == SnakeDict(half, 5, -45.0, 0.9, 0.5, 0);
    ChainHasShape(left, host, rs);
    assert nodes[host].children + [b] + [b + 5] == nodes[host].children + [b, b + 5];
  }

  /** The spine of a newt: a head of radius 20 trailing a tapered snake of
      fifteen dicts. */
  function Spine(nodes: seq<PyNode>): (r: seq<PyNode>)
    ensures |r| == |nodes| + 16
  {
    Chain(nodes + [Head(20.0)], |nodes|, TaperedSnake(10.0, 15, 0.0, 0.95, 0.5))
  }

  /** The newt: its spine, with limbs off the first spine dict and off the
      third. */
  function NewtNodes(nodes: seq<PyNode>): (r: seq<PyNode>)
    ensures |r| == |nodes| + 36
  {
    var b := |nodes|;
    Limbs(Limbs(Spine(nodes), b + 1), b + 3)
  }

  /** Walking the spine: the head's only child is the first spine dict, and
      the first child of spine dict k is dict k + 1, also once the front
      limbs hang off the first one. */
  lemma SpineWalk(nodes: seq<PyNode>)
    ensures var b := |nodes|; var s := Spine(nodes); var f := Limbs(s, b + 1);
      && s[b].children == [b + 1]
      && s[b + 1].children == [b + 2] && s[b + 2].children == [b + 3]
      && f[b + 1].children == [b + 2, b + 16, b + 21]
      && f[b + 2] == s[b + 2] && f[b + 3] == s[b + 3]
  {
    var b := |nodes|;
    ChainStart(nodes + [Head(20.0)], b, TaperedSnake(10.0, 15, 0.0, 0.95, 0.5));
    FirstLimbs(Spine(nodes), b);
  }

  /** Limbs on the dict after b, where b + 1 has only b + 2 as child, put
      them after b + 2 and leave b + 2 and b + 3 alone. */
  lemma FirstLimbs(s: seq<PyNode>, b: nat)
    requires |s| == b + 16 && s[b + 1].children == [b + 2]
    ensures var f := Limbs(s, b + 1);
      && f[b + 1].children == [b + 2, b + 16, b + 21]
      && f[b + 2] == s[b + 2] && f[b + 3] == s[b + 3]
  {
    LimbsShape(s, b + 1);
    assert [b + 2] + [b + 16, b + 21] == [b + 2, b + 16, b + 21];
  }

  /** A chain of at least three dicts hung off the last node: its parent
      has the first as only child, and the first two each have the next. */
  lemma ChainStart(nodes: seq<PyNode>, parent: nat, segs: seq<PySegment>)
    requires parent == |nodes| - 1 && |segs| >= 3 && nodes[parent].children == []
    ensures var b := |nodes|; var s := Chain(nodes, parent, segs);
      && s[parent].children == [b] && s[b].children == [b + 1] && s[b + 1].children == [b + 2]
  {
    ChainClosed(nodes, parent, segs);
    assert [] + [|nodes|] == [|nodes|];
  }

  /** `create_newt`: the spine, then `curr` steps to the head's first child
      and gets limbs, steps twice more down first children and gets limbs
      again. Because the spine is appended before any limb, first children
      stay on the spine. */
  method CreateNewt(pool: Pool) returns (head: nat)
    modifies pool
    ensures head == old(|pool.nodes|) && pool.nodes == NewtNodes(old(pool.nodes))
  {
    ghost var start := pool.nodes;
    head := pool.Add(DefaultSegment(20.0, 100.0));
    var tail := AddTaperedSnake(pool, head, 10.0, 15, 0.0, 0.95, 0.5);
    SpineWalk(start);
    var curr := head;
    curr := pool.nodes[curr].children[0];
    AddLimbs(pool, curr);
    var i := 0;
    while i < 2
      invariant 0 <= i <= 2 && curr == head + 1 + i
      invariant pool.nodes == Limbs(Spine(start), head + 1)
    {
      curr := pool.nodes[curr].children[0];
      i := i + 1;
    }
    AddLimbs(pool, curr);
  }

  /** The newt is a head with one spine; the first and third spine dicts
      each carry, after the next spine dict, a limb at +45 and one at -45
      degrees, each starting from half the host's radius. */
  lemma NewtShape(nodes: seq<PyNode>)
    ensures var b := |nodes|; var n := NewtNodes(nodes);
      && n[b].children == [b + 1]
      && n[b + 1].children == [b + 2, b + 16, b + 21]
      && n[b + 3].children == [b + 4, b + 26, b + 31]
      && n[b + 1].seg.radius == 10.0 * Pow(0.95, 1) && n[b + 3].seg.radius == 10.0 * Pow(0.95, 3)
      && n[b + 16].seg == SnakeDict(n[b + 1].seg.radius / 2.0, 5, 45.0, 0.9, 0.5, 0)
      && n[b + 21].seg == SnakeDict(n[b + 1].seg.radius / 2.0, 5, -45.0, 0.9, 0.5, 0)
      && n[b + 26].seg == SnakeDict(n[b + 3].seg.radius / 2.0, 5, 45.0, 0.9, 0.5, 0)
      && n[b + 31].seg == SnakeDict(n[b + 3].seg.radius / 2.0, 5, -45.0, 0.9, 0.5, 0)
  {
    NewtSpine(nodes);
    BothLimbs(Spine(nodes), |nodes|);
  }

  /** The newt's spine: each of its first dicts has the next as only child,
      and dict k of the spine tapers as 10 times 0.95 to the k. */
  lemma NewtSpine(nodes: seq<PyNode>)
    ensures var b := |nodes|; var s := Spine(nodes);
      && s[b].children == [b + 1] && s[b + 1].children == [b + 2] && s[b + 3].children == [b + 4]
      && s[b + 1].seg.radius == 10.0 * Pow(0.95, 1) && s[b + 3].seg.radius == 10.0 * Pow(0.95, 3)
  {
    var b := |nodes|;
    var tail := TaperedSnake(10.0, 15, 0.0, 0.95, 0.5);
    SpineDicts(nodes + [Head(20.0)], b, tail);
    SnakeTapers(10.0, 15, 0.0, 0.95, 0.5, 0);
    SnakeTapers(10.0, 15, 0.0, 0.95, 0.5, 2);
  }

  /** The first dicts of a chain hung off the last node, which had no
      children: each has the next as only child. */
  lemma SpineDicts(nodes: seq<PyNode>, parent: nat, segs: seq<PySegment>)
    requires parent == |nodes| - 1 && |segs| >= 4 && nodes[parent].children == []
    ensures var b := parent; var s := Chain(nodes, parent, segs);
      && s[b].children == [b + 1]
      && s[b + 1] == PyNode(segs[0], [b + 2]) && s[b + 3] == PyNode(segs[2], [b + 4])
  {
    ChainClosed(nodes, parent, segs);
    assert [] + [|nodes|] == [|nodes|];
  }

  /** Limbs on dicts b + 1 and b + 3 of a spine of sixteen dicts from b,
      where each spine dict has the next as only child. */
  lemma BothLimbs(s: seq<PyNode>, b: nat)
    requires |s| == b + 16 && s[b].children == [b + 1]
    requires s[b + 1].children == [b + 2] && s[b + 3].children == [b + 4]
    ensures var n := Limbs(Limbs(s, b + 1), b + 3);
      && n[b].children == [b + 1]
      && n[b + 1].children == [b + 2, b + 16, b + 21]
      && n[b + 3].children == [b + 4, b + 26, b + 31]
      && n[b + 1].seg == s[b + 1].seg && n[b + 3].seg == s[b + 3].seg
      && n[b + 16].seg == SnakeDict(s[b + 1].seg.radius / 2.0, 5, 45.0, 0.9, 0.5, 0)
      && n[b + 21].seg == SnakeDict(s[b + 1].seg.radius / 2.0, 5, -45.0, 0.9, 0.5, 0)
      && n[b + 26].seg == SnakeDict(s[b + 3].seg.radius / 2.0, 5, 45.0, 0.9, 0.5, 0)
      && n[b + 31].seg == SnakeDict(s[b + 3].seg.radius / 2.0, 5, -45.0, 0.9, 0.5, 0)
  {
    var f := Limbs(s, b + 1);
    LimbsShape(s, b + 1);
    LimbsShape(f, b + 3);
    assert [b + 2] + [b + 16, b + 21] == [b + 2, b + 16, b + 21];
    assert [b + 4] + [b + 26, b + 31] == [b + 4, b + 26, b + 31];
  }

  /** The axolotl's six arms of five dicts, 60 degrees apart from 30. */
  function AxolotlArms(): (arms: seq<seq<PySegment>>)
    ensures |arms| == 6 && forall i :: 0 <= i < 6 ==> |arms[i]| == 5
  {
    seq(6, i requires 0 <= i < 6 => OctoArm(2.0, 5, 30.0 + 60.0 * i as real, 0.9, 0.0))
  }

  /** The axolotl: the newt with the six arms hung off its head. */
  function AxolotlNodes(nodes: seq<PyNode>): seq<PyNode> {
    Fan(NewtNodes(nodes), |nodes|, AxolotlArms())
  }

  /** `create_axolotl`: the body of `create_newt`, then six octopus arms on
      the head. */
  method CreateAxolotl(pool: Pool) returns (head: nat)
    modifies pool
    ensures head == old(|pool.nodes|) && pool.nodes == AxolotlNodes(old(pool.nodes))
  {
    head := CreateNewt(pool);
    ghost var newt := pool.nodes;
    ghost var arms := AxolotlArms();
    var i := 0;
    while i < 6
      invariant 0 <= i <= 6 && head < |newt|
      invariant pool.nodes == Fan(newt, head, arms[..i])
    {
      var angle := 30.0 + 60.0 * i as real;
      AddAxolotlArm(pool, newt, head, i, angle);
      i := i + 1;
    }
    assert arms[..6] == arms;
  }

  /** One turn of the loop of `create_axolotl`: arm i. */
  method AddAxolotlArm(pool: Pool, ghost newt: seq<PyNode>, head: nat, i: nat, angle: real)
    requires head < |newt| && i < 6 && angle == 30.0 + 60.0 * i as real
    requires pool.nodes == Fan(newt, head, AxolotlArms()[..i])
    modifies pool
    ensures pool.nodes == Fan(newt, head, AxolotlArms()[..i + 1])
  {
    FanStep(newt, head, AxolotlArms(), i);
    assert AxolotlArms()[i] == OctoArm(2.0, 5, angle, 0.9, 0.0);
    AddOctoArm(pool, head, 2.0, 5, angle, 0.9, 0.0);
  }

  /** The axolotl's head carries the spine first and then the six arms,
      five ids apart after the newt; arm i is turned 30 + 60 i degrees. */
  lemma AxolotlShape(nodes: seq<PyNode>, i: nat)
    requires i < 6
    ensures var b := |nodes|; var a := AxolotlNodes(nodes);
      && |a| == b + 66
      && a[b].children == [b + 1] + seq(6, j => b + 36 + 5 * j)
      && a[b + 36 + 5 * i].seg.bodyAngle.relative == 30.0 + 60.0 * i as real
  {
    var b := |nodes|;
    NewtHead(nodes);
    ArmsOffHead(NewtNodes(nodes), b, AxolotlArms(), 5, i);
    assert AxolotlArms()[i][0] == OctoDict(2.0, 5, 30.0 + 60.0 * i as real, 0.9, 0.0, 0);
  }

  /** The newt has 36 dicts, its head having only the spine as child. */
  lemma NewtHead(nodes: seq<PyNode>)
    ensures |NewtNodes(nodes)| == |nodes| + 36 && NewtNodes(nodes)[|nodes|].children == [|nodes| + 1]
  {
    NewtShape(nodes);
  }

  /** Uniform arms fanned out of a head: the head gains the first dict of
      each, L ids apart after the old nodes. */
  lemma ArmsOffHead(n: seq<PyNode>, b: nat, arms: seq<seq<PySegment>>, L: nat, i: nat)
    requires b < |n| && L > 0 && i < |arms| && forall j :: 0 <= j < |arms| ==> |arms[j]| == L
    ensures var a := Fan(n, b, arms);
      && |a| == |n| + L * |arms|
      && a[b].children == n[b].children + seq(|arms|, j => |n| + L * j)
      && a[|n| + L * i].seg == arms[i][0]
  {
    UniformFanParent(n, b, arms, L);
    UniformFanNode(n, b, arms, L, i, 0);
  }

  // ------------------------------------------------------------------ jelly

  /** One loop of `create_jelly`: seven frills of eight dicts, turned
      `scale` times -4 to 2. */
  function FrillRow(scale: real): (row: seq<seq<PySegment>>)
    ensures |row| == 7 && forall i :: 0 <= i < 7 ==> |row[i]| == 8
  {
    seq(7, i requires 0 <= i < 7 => Frill(2.0, 8, FrillAngle(scale, i)))
  }

  /** The angle of frill i of a loop: `scale * (i - frillCount - 1)` with a
      frill count of 3. */
  function FrillAngle(scale: real, i: int): real {
    scale * (i - 3 - 1) as real
  }

  /** All 21 frills of the jelly, loop after loop. */
  function JellyFrills(): seq<seq<PySegment>> {
    FrillRow(10.0) + FrillRow(5.0) + FrillRow(2.0)
  }

  function JellyNodes(nodes: seq<PyNode>): seq<PyNode> {
    Fan(nodes + [Head(40.0)], |nodes|, JellyFrills())
  }

  /** One of the three loops of `create_jelly`. */
  method AddFrillRow(pool: Pool, head: nat, scale: real)
    requires head < |pool.nodes|
    modifies pool
    ensures pool.nodes == Fan(old(pool.nodes), head, FrillRow(scale))
  {
    ghost var start := pool.nodes;
    ghost var row := FrillRow(scale);
    var frillCount := 3;
    var i := 0;
    while i < 2 * frillCount + 1
      invariant 0 <= i <= 7 && head < |start|
      invariant pool.nodes == Fan(start, head, row[..i])
    {
      var angle := scale * (i - frillCount - 1) as real;
      AddFrillTurn(pool, start, head, scale, i, angle);
      i := i + 1;
    }
    assert row[..7] == row;
  }

  /** One turn of the loop of `AddFrillRow`: frill i of the row. */
  method AddFrillTurn(pool: Pool, ghost start: seq<PyNode>, head: nat, scale: real, i: nat, angle: real)
    requires head < |start| && i < 7 && angle == FrillAngle(scale, i)
    requires pool.nodes == Fan(start, head, FrillRow(scale)[..i])
    modifies pool
    ensures pool.nodes == Fan(start, head, FrillRow(scale)[..i + 1])
  {
    FrillTurn(start, head, FrillRow(scale), i, scale, angle);
    AddFrill(pool, head, 2.0, 8, angle);
  }

  /** Frill i of a row is the next chain of the row's fan. */
  lemma FrillTurn(start: seq<PyNode>, head: nat, row: seq<seq<PySegment>>, i: nat, scale: real, angle: real)
    requires head < |start| && row == FrillRow(scale) && i < 7 && angle == FrillAngle(scale, i)
    ensures Fan(start, head, row[..i + 1]) == Chain(Fan(start, head, row[..i]), head, Frill(2.0, 8, angle))
  {
    FanStep(start, head, row, i);
    assert row[i] == Frill(2.0, 8, FrillAngle(scale, i));
  }

  /** `create_jelly`. */
  method CreateJelly(pool: Pool) returns (head: nat)
    modifies pool
    ensures head == old(|pool.nodes|) && pool.nodes == JellyNodes(old(pool.nodes))
  {
    ghost var start := pool.nodes;
    head := pool.Add(DefaultSegment(40.0, 100.0));
    AddFrillRow(pool, head, 10.0);
    AddFrillRow(pool, head, 5.0);
    AddFrillRow(pool, head, 2.0);
    FanAppend(start + [Head(40.0)], head, FrillRow(10.0), FrillRow(5.0));
    FanAppend(start + [Head(40.0)], head, FrillRow(10.0) + FrillRow(5.0), FrillRow(2.0));
  }

  /** The scale of each loop of `create_jelly`. */
  function JellyScale(r: nat): real {
    if r == 0 then 10.0 else if r == 1 then 5.0 else 2.0
  }

  /** Frill 7 r + i of the jelly is frill i of loop r. */
  lemma JellyFrill(r: nat, i: nat)
    requires r < 3 && i < 7
    ensures |JellyFrills()| == 21 && JellyFrills()[7 * r + i] == FrillRow(JellyScale(r))[i]
    ensures forall k :: 0 <= k < 21 ==> |JellyFrills()[k]| == 8
  {
    var a := FrillRow(10.0);
    var c := FrillRow(5.0);
    var d := FrillRow(2.0);
    forall k | 0 <= k < 21 ensures |JellyFrills()[k]| == 8 {
      if k < 7 { assert JellyFrills()[k] == a[k]; }
      else if k < 14 { assert JellyFrills()[k] == c[k - 7]; }
      else { assert JellyFrills()[k] == d[k - 14]; }
    }
  }

  /** The jelly's head carries 21 frills, eight ids apart; frill 7 r + i is
      turned at its root by 10, 5 or 2 (for r = 0, 1, 2) times i - 4, so
      each loop runs from -4 to +2 steps and the fan leans to one side; the
      rest of each frill follows straight on. */
  lemma JellyShape(nodes: seq<PyNode>, r: nat, i: nat)
    requires r < 3 && i < 7
    ensures var b := |nodes|; var j := JellyNodes(nodes);
      && |j| == b + 1 + 168
      && j[b].children == seq(21, k => b + 1 + 8 * k)
      && j[b + 1 + 8 * (7 * r + i)].seg.bodyAngle.relative == JellyScale(r) * (i as real - 4.0)
      && j[b + 1 + 8 * (7 * r + i) + 1].seg.bodyAngle.relative == 0.0
  {
    var b := |nodes|;
    JellyFrill(r, i);
    FrillOffHead(nodes + [Head(40.0)], b, JellyFrills(), 7 * r + i, FrillAngle(JellyScale(r), i));
  }

  /** A frill among uniform frills of eight fanned out of a head: its root
      dict is turned by the frill's angle and the next runs straight on. */
  lemma FrillOffHead(n: seq<PyNode>, b: nat, fs: seq<seq<PySegment>>, m: nat, angle: real)
    requires b < |n| && m < |fs| && forall j :: 0 <= j < |fs| ==> |fs[j]| == 8
    requires fs[m] == Frill(2.0, 8, angle)
    ensures var a := Fan(n, b, fs);
      && |a| == |n| + 8 * |fs|
      && a[b].children == n[b].children + seq(|fs|, j => |n| + 8 * j)
      && a[|n| + 8 * m].seg.bodyAngle.relative == angle
      && a[|n| + 8 * m + 1].seg.bodyAngle.relative == 0.0
  {
    ArmsOffHead(n, b, fs, 8, m);
    UniformFanNode(n, b, fs, 8, m, 1);
    assert fs[m][0] == FrillDict(2.0, 8, angle, 0);
    assert fs[m][1] == FrillDict(2.0, 8, angle, 1);
  }

  // ---------------------------------------------------------------- octopus

  /** The angle of octopus arm i: 16 degrees apart from -40 to 40. */
  function OctopusAngle(i: int): real {
    8.0 + 16.0 * (i - 3) as real
  }

  /** The phase offset of octopus arm i: 29 i mod 17. */
  function OctopusOffset(i: int): real {
    ((29 * i) % 17) as real
  }

  /** The octopus's six arms of twelve dicts. */
  function OctopusArms(): (arms: seq<seq<PySegment>>)
    ensures |arms| == 6 && forall i :: 0 <= i < 6 ==> |arms[i]| == 12
  {
    seq(6, i requires 0 <= i < 6 => OctoArm(15.0, 12, OctopusAngle(i), 0.9, OctopusOffset(i)))
  }

  function OctopusNodes(nodes: seq<PyNode>): seq<PyNode> {
    Fan(nodes + [Head(40.0)], |nodes|, OctopusArms())
  }

  /** `create_octopus`. */
  method CreateOctopus(pool: Pool) returns (head: nat)
    modifies pool
    ensures head == old(|pool.nodes|) && pool.nodes == OctopusNodes(old(pool.nodes))
  {
    ghost var start := pool.nodes + [Head(40.0)];
    ghost var arms := OctopusArms();
    head := pool.Add(DefaultSegment(40.0, 100.0));
    var i := 0;
    while i < 6
      invariant 0 <= i <= 6 && head < |start|
      invariant pool.nodes == Fan(start, head, arms[..i])
    {
      var angle := 8.0 + 16.0 * (i - 3) as real;
      var offset := ((29 * i) % 17) as real;
      OctopusTurn(start, head, arms, i, angle, offset);
      AddOctoArm(pool, head, 15.0, 12, angle, 0.9, offset);
      i := i + 1;
    }
    assert arms[..6] == arms;
  }

  /** One turn of the loop of `create_octopus`: arm i. */
  lemma OctopusTurn(start: seq<PyNode>, head: nat, arms: seq<seq<PySegment>>, i: nat, angle: real, offset: real)
    requires head < |start| && arms == OctopusArms() && i < 6
    requires angle == OctopusAngle(i) && offset == OctopusOffset(i)
    ensures Fan(start, head, arms[..i + 1]) == Chain(Fan(start, head, arms[..i]), head, OctoArm(15.0, 12, angle, 0.9, offset))
  {
    FanStep(start, head, arms, i);
  }

  /** The arms are symmetric about the head's axis (arm i and arm 5 - i are
      mirror images), and no two arms share a phase offset. */
  lemma OctopusSpread(i: int, j: int)
    requires 0 <= i < 6 && 0 <= j < 6
    ensures OctopusAngle(i) == -OctopusAngle(5 - i)
    ensures i != j ==> OctopusOffset(i) != OctopusOffset(j)
  {
  }

  /** The octopus's head carries six arms, twelve ids apart; arm i starts
      at its own angle and phase offset. */
  lemma OctopusShape(nodes: seq<PyNode>, i: nat)
    requires i < 6
    ensures var b := |nodes|; var o := OctopusNodes(nodes);
      && |o| == b + 1 + 72
      && o[b].children == seq(6, k => b + 1 + 12 * k)
      && o[b + 1 + 12 * i].seg.bodyAngle.relative == OctopusAngle(i)
      && o[b + 1 + 12 * i].seg.wriggle == [CurlSpec(10.0, 2.0, 0, OctopusOffset(i))]
  {
    var b := |nodes|;
    var arms := OctopusArms();
    var n := nodes + [Head(40.0)];
    UniformFanParent(n, b, arms, 12);
    UniformFanNode(n, b, arms, 12, i, 0);
    assert arms[i][0] == OctoDict(15.0, 12, OctopusAngle(i), 0.9, OctopusOffset(i), 0);
  }

  // --------------------------------------------------------------- starfish

  /** The starfish's five arms of eight dicts, 72 degrees apart from 180. */
  function StarfishArms(): (arms: seq<seq<PySegment>>)
    ensures |arms| == 5 && forall i :: 0 <= i < 5 ==> |arms[i]| == 8
  {
    seq(5, i requires 0 <= i < 5 => OctoArm(15.0, 8, 180.0 + 72.0 * i as real, 0.9, 0.0))
  }

  function StarfishNodes(nodes: seq<PyNode>): seq<PyNode> {
    Fan(nodes + [Head(20.0)], |nodes|, StarfishArms())
  }

  /** `create_starfish`. */
  method CreateStarfish(pool: Pool) returns (head: nat)
    modifies pool
    ensures head == old(|pool.nodes|) && pool.nodes == StarfishNodes(old(pool.nodes))
  {
    ghost var start := pool.nodes + [Head(20.0)];
    ghost var arms := StarfishArms();
    head := pool.Add(DefaultSegment(20.0, 100.0));
    var i := 0;
    while i < 5
      invariant 0 <= i <= 5 && head < |start|
      invariant pool.nodes == Fan(start, head, arms[..i])
    {
      var angle := 180.0 + 72.0 * i as real;
      StarfishTurn(start, head, arms, i, angle);
      AddOctoArm(pool, head, 15.0, 8, angle, 0.9, 0.0);
      i := i + 1;
    }
    assert arms[..5] == arms;
  }

  /** One turn of the loop of `create_starfish`: arm i. */
  lemma StarfishTurn(start: seq<PyNode>, head: nat, arms: seq<seq<PySegment>>, i: nat, angle: real)
    requires head < |start| && arms == StarfishArms() && i < 5 && angle == 180.0 + 72.0 * i as real
    ensures Fan(start, head, arms[..i + 1]) == Chain(Fan(start, head, arms[..i]), head, OctoArm(15.0, 8, angle, 0.9, 0.0))
  {
    FanStep(start, head, arms, i);
  }

  /** The starfish's head carries five arms, eight ids apart, spread evenly
      round the circle: arm i is turned 180 + 72 i degrees, so successive
      arms are 72 degrees apart and the five cover 360; arm dict k has the
      radius 15 times 0.9 to the k + 1. */
  lemma StarfishShape(nodes: seq<PyNode>, i: nat, k: nat)
    requires i < 5 && k < 8
    ensures var b := |nodes|; var s := StarfishNodes(nodes);
      && |s| == b + 1 + 40
      && s[b].children == seq(5, j => b + 1 + 8 * j)
      && s[b + 1 + 8 * i].seg.bodyAngle.relative == 180.0 + 72.0 * i as real
      && s[b + 1 + 8 * i + k].seg.radius == 15.0 * Pow(0.9, k + 1)
  {
    var b := |nodes|;
    var arms := StarfishArms();
    var n := nodes + [Head(20.0)];
    UniformFanParent(n, b, arms, 8);
    UniformFanNode(n, b, arms, 8, i, 0);
    UniformFanNode(n, b, arms, 8, i, k);
    StarfishDict(i, k);
  }

  /** Dict k of starfish arm i: its radius, and the turn of the arm's first
      dict. */
  lemma StarfishDict(i: nat, k: nat)
    requires i < 5 && k < 8
    ensures StarfishArms()[i][k].radius == 15.0 * Pow(0.9, k + 1)
    ensures StarfishArms()[i][0].bodyAngle.relative == 180.0 + 72.0 * i as real
  {
    assert StarfishArms()[i][k] == OctoDict(15.0, 8, 180.0 + 72.0 * i as real, 0.9, 0.0, k);
  }

  // ------------------------------------------------------ centipede, crawdad

  /** A body dict of a legged trunk and the leg it carries on either side:
      five dicts of `legRadius` at `legAngle` and at its negation. */
  datatype Piece = Piece(seg: PySegment, legRadius: real, legAngle: real, legOffset: real)

  /** The dicts of a piece created from id x on: the body dict with the
      first dicts of its two legs as children, then the legs, the first of
      five dicts. */
  function Hung(x: nat, seg: PySegment, ls: seq<PySegment>, rs: seq<PySegment>): (r: seq<PyNode>)
    ensures |r| == 1 + |ls| + |rs|
  {
    [PyNode(seg, [x + 1, x + 6])] + (Run(x + 1, ls) + Run(x + 6, rs))
  }

  /** One turn of a trunk loop: the body dict is created, the two legs are
      hung off it, and it is appended to `curr`. */
  function Legged(nodes: seq<PyNode>, curr: nat, p: Piece): (r: seq<PyNode>)
    requires curr < |nodes|
    ensures |r| == |nodes| + 11
  {
    var x := |nodes|;
    Link(nodes + Hung(x, p.seg, Leg(p.legRadius, 5, p.legAngle, p.legOffset), Leg(p.legRadius, 5, -p.legAngle, p.legOffset)), curr, x)
  }

  /** One turn of the trunk loop of `create_crawdad`. */
  method AddPiece(pool: Pool, curr: nat, p: Piece) returns (x: nat)
    requires curr < |pool.nodes|
    modifies pool
    ensures pool.nodes == Legged(old(pool.nodes), curr, p) && x == old(|pool.nodes|)
  {
    ghost var start := pool.nodes;
    x := pool.Add(p.seg);
    AddLeg(pool, x, p.legRadius, 5, p.legAngle, p.legOffset);
    AddLeg(pool, x, p.legRadius, 5, -p.legAngle, p.legOffset);
    PieceClosed(start, p);
    pool.Append(curr, x);
  }

  /** The two legs hung off a fresh body dict make the piece's dicts. */
  lemma PieceClosed(nodes: seq<PyNode>, p: Piece)
    ensures var x := |nodes|;
      var ls := Leg(p.legRadius, 5, p.legAngle, p.legOffset);
      var rs := Leg(p.legRadius, 5, -p.legAngle, p.legOffset);
      Chain(Chain(nodes + [PyNode(p.seg, [])], x, ls), x, rs) == nodes + Hung(x, p.seg, ls, rs)
  {
    HangTwo(nodes, p.seg, Leg(p.legRadius, 5, p.legAngle, p.legOffset), Leg(p.legRadius, 5, -p.legAngle, p.legOffset));
  }

  /** Two chains of five hung off a fresh dict: the dict gets both first
      dicts as children, and the runs follow it. */
  lemma HangTwo(nodes: seq<PyNode>, seg: PySegment, ls: seq<PySegment>, rs: seq<PySegment>)
    requires |ls| == 5 && rs != [] && ls != []
    ensures var x := |nodes|;
      Chain(Chain(nodes + [PyNode(seg, [])], x, ls), x, rs)
        == nodes + Hung(x, seg, ls, rs)
  {
    HangFirst(nodes, seg, ls);
    HangSecond(nodes, seg, ls, rs);
  }

  /** The second chain hung off the dict that carries the first. */
  lemma HangSecond(nodes: seq<PyNode>, seg: PySegment, ls: seq<PySegment>, rs: seq<PySegment>)
    requires |ls| == 5 && rs != []
    ensures var x := |nodes|;
      Chain(nodes + [PyNode(seg, [x + 1])] + Run(x + 1, ls), x, rs) == nodes + Hung(x, seg, ls, rs)
  {
    var x := |nodes|;
    var left := Run(x + 1, ls);
    var right := Run(x + 6, rs);
    var both := PyNode(seg, [x + 1, x + 6]);
    HangOne(nodes, PyNode(seg, [x + 1]), left, rs);
    assert PyNode(seg, [x + 1]).(children := [x + 1] + [x + 6]) == both;
    Regroup(nodes, both, left, right);
  }

  /** A chain hung off a fresh dict: the dict gets the chain's first dict
      as its only child, and the run follows it. */
  lemma HangFirst(nodes: seq<PyNode>, seg: PySegment, ls: seq<PySegment>)
    requires ls != []
    ensures var x := |nodes|;
      Chain(nodes + [PyNode(seg, [])], x, ls) == nodes + [PyNode(seg, [x + 1])] + Run(x + 1, ls)
  {
    var x := |nodes|;
    HangOne(nodes, PyNode(seg, []), [], ls);
    assert nodes + [PyNode(seg, [])] + [] == nodes + [PyNode(seg, [])];
    assert [] + Run(x + 1, ls) == Run(x + 1, ls);
    assert [] + [x + 1] == [x + 1];
  }

  /** A chain hung off a node followed by `tail`: the node gains the first
      dict of the run, which follows the tail. */
  lemma HangOne(nodes: seq<PyNode>, n: PyNode, tail: seq<PyNode>, segs: seq<PySegment>)
    requires segs != []
    ensures var c := |nodes| + 1 + |tail|;
      Chain(nodes + [n] + tail, |nodes|, segs)
        == nodes + [n.(children := n.children + [c])] + (tail + Run(c, segs))
  {
    var c := |nodes| + 1 + |tail|;
    var run := Run(c, segs);
    ChainClosed(nodes + [n] + tail, |nodes|, segs);
    Regroup(nodes, n, tail, run);
    LinkAt(nodes, n, tail + run, c);
  }

  /** A turn gives the new body dict its two legs as children, appends it to
      `curr`, and keeps every other old node. */
  lemma LeggedShape(nodes: seq<PyNode>, curr: nat, p: Piece)
    requires curr < |nodes|
    ensures var x := |nodes|; var r := Legged(nodes, curr, p);
      && r[x] == PyNode(p.seg, [x + 1, x + 6])
      && r[x + 1].seg == Leg(p.legRadius, 5, p.legAngle, p.legOffset)[0]
      && r[x + 6].seg == Leg(p.legRadius, 5, -p.legAngle, p.legOffset)[0]
      && r[curr] == PyNode(nodes[curr].seg, nodes[curr].children + [x])
  {
    var x := |nodes|;
    var ls := Leg(p.legRadius, 5, p.legAngle, p.legOffset);
    var rs := Leg(p.legRadius, 5, -p.legAngle, p.legOffset);
    assert Hung(x, p.seg, ls, rs)[1] == Run(x + 1, ls)[0];
    assert Hung(x, p.seg, ls, rs)[6] == Run(x + 6, rs)[0];
  }

  /** A turn appends the new body dict to `curr`. */
  lemma LeggedParent(nodes: seq<PyNode>, curr: nat, p: Piece)
    requires curr < |nodes|
    ensures Legged(nodes, curr, p)[curr] == nodes[curr].(children := nodes[curr].children + [|nodes|])
  {
  }

  /** A turn keeps every old node but `curr`. */
  lemma LeggedKeeps(nodes: seq<PyNode>, curr: nat, p: Piece, j: nat)
    requires curr < |nodes| && j < |nodes| && j != curr
    ensures Legged(nodes, curr, p)[j] == nodes[j]
  {
  }

  /** The `curr` of a trunk loop after k turns that started at `head` and
      created its dicts from id `base` on. */
  function TrunkCursor(base: nat, head: nat, k: nat): nat {
    if k == 0 then head else base + 11 * (k - 1)
  }

  /** The arena after a trunk loop: each piece's body dict, legs hung off
      it, appended to the previous body dict (the first to `head`). */
  function Trunk(nodes: seq<PyNode>, head: nat, pieces: seq<Piece>): (r: seq<PyNode>)
    requires head < |nodes|
    ensures |r| == |nodes| + 11 * |pieces|
    decreases |pieces|
  {
    if pieces == [] then nodes
    else
      var k := |pieces| - 1;
      Legged(Trunk(nodes, head, pieces[..k]), TrunkCursor(|nodes|, head, k), pieces[k])
  }

  /** One more turn of a trunk loop. */
  lemma TrunkStep(nodes: seq<PyNode>, head: nat, pieces: seq<Piece>, i: nat)
    requires head < |nodes| && i < |pieces|
    ensures Trunk(nodes, head, pieces[..i + 1])
         == Legged(Trunk(nodes, head, pieces[..i]), TrunkCursor(|nodes|, head, i), pieces[i])
  {
    assert pieces[..i + 1][..i] == pieces[..i];
  }

  /** The trunk hangs off `head`: the head gains the first body dict. */
  lemma {:induction false} TrunkHead(nodes: seq<PyNode>, head: nat, pieces: seq<Piece>)
    requires head < |nodes| && pieces != []
    ensures Trunk(nodes, head, pieces)[head] == PyNode(nodes[head].seg, nodes[head].children + [|nodes|])
    decreases |pieces|
  {
    var k := |pieces| - 1;
    var prev := Trunk(nodes, head, pieces[..k]);
    if k > 0 {
      TrunkHead(nodes, head, pieces[..k]);
      LeggedKeeps(prev, TrunkCursor(|nodes|, head, k), pieces[k], head);
    } else {
      LeggedShape(prev, head, pieces[k]);
    }
  }

  /** Later turns of a trunk loop keep every node made by the first m
      turns but the body dict the next turn appends to. */
  lemma {:induction false} TrunkKeeps(nodes: seq<PyNode>, head: nat, pieces: seq<Piece>, m: nat, j: nat)
    requires head < |nodes| && m <= |pieces|
    requires j < |nodes| + 11 * m && j != TrunkCursor(|nodes|, head, m)
    ensures Trunk(nodes, head, pieces)[j] == Trunk(nodes, head, pieces[..m])[j]
    decreases |pieces| - m
  {
    if m < |pieces| {
      TrunkTurnKeeps(nodes, head, pieces, m, j);
      TrunkKeeps(nodes, head, pieces, m + 1, j);
    } else {
      assert pieces[..m] == pieces;
    }
  }

  /** Turn n of a trunk loop keeps every node but the body dict it appends
      to. */
  lemma TrunkTurnKeeps(nodes: seq<PyNode>, head: nat, pieces: seq<Piece>, n: nat, j: nat)
    requires head < |nodes| && n < |pieces|
    requires j < |nodes| + 11 * n && j != TrunkCursor(|nodes|, head, n)
    ensures Trunk(nodes, head, pieces[..n + 1])[j] == Trunk(nodes, head, pieces[..n])[j]
  {
    TrunkStep(nodes, head, pieces, n);
    LeggedKeeps(Trunk(nodes, head, pieces[..n]), TrunkCursor(|nodes|, head, n), pieces[n], j);
  }

  /** Turn i of a trunk loop creates body dict i, 11 i ids after the
      first, with its two legs as children. */
  lemma TrunkFresh(nodes: seq<PyNode>, head: nat, pieces: seq<Piece>, i: nat)
    requires head < |nodes| && i < |pieces|
    ensures var x := |nodes| + 11 * i; var t := Trunk(nodes, head, pieces[..i + 1]); var p := pieces[i];
      && t[x] == PyNode(p.seg, [x + 1, x + 6])
      && t[x + 1].seg == Leg(p.legRadius, 5, p.legAngle, p.legOffset)[0]
      && t[x + 6].seg == Leg(p.legRadius, 5, -p.legAngle, p.legOffset)[0]
  {
    TrunkStep(nodes, head, pieces, i);
    LeggedShape(Trunk(nodes, head, pieces[..i]), TrunkCursor(|nodes|, head, i), pieces[i]);
  }

  /** Turn i + 1 appends body dict i + 1 to body dict i. */
  lemma TrunkGrow(nodes: seq<PyNode>, head: nat, pieces: seq<Piece>, i: nat)
    requires head < |nodes| && i + 1 < |pieces|
    ensures var x := |nodes| + 11 * i; var t := Trunk(nodes, head, pieces[..i + 1]);
      Trunk(nodes, head, pieces[..i + 2])[x] == t[x].(children := t[x].children + [x + 11])
  {
    var x := |nodes| + 11 * i;
    var t := Trunk(nodes, head, pieces[..i + 1]);
    assert TrunkCursor(|nodes|, head, i + 1) == x && |t| == x + 11;
    TrunkStep(nodes, head, pieces, i + 1);
    LeggedParent(t, x, pieces[i + 1]);
  }

  /** Body dict i of a trunk sits 11 i ids after the first; its children
      are its two legs and then the next body dict (the last has none). */
  lemma TrunkBody(nodes: seq<PyNode>, head: nat, pieces: seq<Piece>, i: nat)
    requires head < |nodes| && i < |pieces|
    ensures var x := |nodes| + 11 * i;
      Trunk(nodes, head, pieces)[x] == PyNode(pieces[i].seg, [x + 1, x + 6] + (if i + 1 < |pieces| then [x + 11] else []))
  {
    var x := |nodes| + 11 * i;
    TrunkFresh(nodes, head, pieces, i);
    if i + 1 < |pieces| {
      TrunkGrow(nodes, head, pieces, i);
      TrunkKeeps(nodes, head, pieces, i + 2, x);
    } else {
      assert pieces[..i + 1] == pieces;
      assert [x + 1, x + 6] + [] == [x + 1, x + 6];
    }
  }

  /** The legs of body dict i of a trunk start 1 and 6 ids after it. */
  lemma TrunkLegs(nodes: seq<PyNode>, head: nat, pieces: seq<Piece>, i: nat)
    requires head < |nodes| && i < |pieces|
    ensures var x := |nodes| + 11 * i; var t := Trunk(nodes, head, pieces); var p := pieces[i];
      && t[x + 1].seg == Leg(p.legRadius, 5, p.legAngle, p.legOffset)[0]
      && t[x + 6].seg == Leg(p.legRadius, 5, -p.legAngle, p.legOffset)[0]
  {
    var x := |nodes| + 11 * i;
    TrunkFresh(nodes, head, pieces, i);
    TrunkKeeps(nodes, head, pieces, i + 1, x + 1);
    TrunkKeeps(nodes, head, pieces, i + 1, x + 6);
  }

  /** Body dict i of the centipede: radius 10, free to curve 100 degrees,
      squiggling at step i of a wave twice the body's length. */
  function CentipedeDict(i: int): PySegment {
    Bent(10.0, 0.0).(wriggle := [SquiggleSpec(10.0, 1.0, i, 20, 0.0).value])
  }

  /** `create_centipede` as written: the legs are hung off `next`, which in
      this function is Python's builtin of that name and not a dict, so the
      first `add_leg` of the first turn raises TypeError when it indexes
      `children`. The head, the first body dict and the first leg dict that
      `add_leg` builds before appending it exist by then; none has been
      appended anywhere. */
  method CreateCentipede(pool: Pool) returns (r: Result<nat>)
    modifies pool
    ensures r == Err("TypeError")
    ensures pool.nodes == old(pool.nodes) + [Head(13.0), PyNode(CentipedeDict(0), []), PyNode(Leg(1.0, 5, 80.0, 0.0)[0], [])]
  {
    var head := pool.Add(DefaultSegment(13.0, 100.0));
    var curr := head;
    var length := 10;
    var x := DefaultSegment(10.0, 100.0);
    x := x.(bodyAngle := x.bodyAngle.(curveRange := 100.0));
    var spec := SquiggleSpec(10.0, 1.0, 0, length * 2, 0.0);
    x := x.(wriggle := [spec.value]);
    x := x.(overlap := 0.0);
    var body := pool.Add(x);
    var leg := DefaultSegment(1.0, 100.0);
    leg := leg.(bodyAngle := leg.bodyAngle.(relative := 80.0));
    leg := leg.(bodyAngle := leg.bodyAngle.(curveRange := 100.0));
    leg := leg.(wriggle := [RotationSpec(45.0, 2.0, 0.0)]);
    var _ := pool.Add(leg);
    r := Err("TypeError");
  }

  /** The centipede's ten pieces, as evidently intended: body dict i with a
      leg of five at +80 and -80 degrees, swinging with phase offset i. */
  function CentipedePieces(): (pieces: seq<Piece>)
    ensures |pieces| == 10
  {
    seq(10, i requires 0 <= i < 10 => Piece(CentipedeDict(i), 1.0, 80.0, i as real))
  }

  /** `create_centipede` with the legs hung off the new body dict `x`. */
  method CreateCentipedeFixed(pool: Pool) returns (head: nat)
    modifies pool
    ensures head == old(|pool.nodes|)
    ensures pool.nodes == Trunk(old(pool.nodes) + [Head(13.0)], head, CentipedePieces())
  {
    ghost var start := pool.nodes + [Head(13.0)];
    ghost var pieces := CentipedePieces();
    head := pool.Add(DefaultSegment(13.0, 100.0));
    var curr := head;
    var length := 10;
    var i := 0;
    while i < length
      invariant 0 <= i <= 10 && head < |start|
      invariant pool.nodes == Trunk(start, head, pieces[..i]) && curr == TrunkCursor(|start|, head, i)
    {
      var x := DefaultSegment(10.0, 100.0);
      x := x.(bodyAngle := x.bodyAngle.(curveRange := 100.0));
      var spec := SquiggleSpec(10.0, 1.0, i, length * 2, 0.0);
      x := x.(wriggle := [spec.value]);
      x := x.(overlap := 0.0);
      assert pieces[i] == Piece(x, 1.0, 80.0, i as real);
      TrunkStep(start, head, pieces, i);
      curr := AddPiece(pool, curr, Piece(x, 1.0, 80.0, i as real));
      i := i + 1;
    }
    assert pieces[..10] == pieces;
  }

  /** The corrected centipede is a head with one line of ten body dicts;
      body dict i carries a leg at +80 and one at -80 degrees, both swinging
      with phase offset i, and then the next body dict. */
  lemma CentipedeFixedShape(nodes: seq<PyNode>, i: nat)
    requires i < 10
    ensures var b := |nodes|; var t := Trunk(nodes + [Head(13.0)], b, CentipedePieces()); var x := b + 1 + 11 * i;
      && |t| == b + 111
      && t[b].children == [b + 1]
      && t[x].seg == CentipedeDict(i)
      && t[x].children == [x + 1, x + 6] + (if i < 9 then [x + 11] else [])
      && t[x + 1].seg.bodyAngle.relative == 80.0 && t[x + 6].seg.bodyAngle.relative == -80.0
      && t[x + 1].seg.wriggle == t[x + 6].seg.wriggle == [RotationSpec(45.0, 2.0, i as real)]
  {
    var pieces := CentipedePieces();
    TrunkPiece(nodes + [Head(13.0)], |nodes|, pieces, i);
    assert pieces[i] == Piece(CentipedeDict(i), 1.0, 80.0, i as real);
  }

  /** Piece i of a trunk hung off a childless head: the head has only the
      first body dict as child, and body dict i its legs and the next. */
  lemma TrunkPiece(n: seq<PyNode>, head: nat, pieces: seq<Piece>, i: nat)
    requires head < |n| && n[head].children == [] && i < |pieces|
    ensures var t := Trunk(n, head, pieces); var x := |n| + 11 * i; var p := pieces[i];
      && |t| == |n| + 11 * |pieces|
      && t[head].children == [|n|]
      && t[x] == PyNode(p.seg, [x + 1, x + 6] + (if i + 1 < |pieces| then [x + 11] else []))
      && t[x + 1].seg == Leg(p.legRadius, 5, p.legAngle, p.legOffset)[0]
      && t[x + 6].seg == Leg(p.legRadius, 5, -p.legAngle, p.legOffset)[0]
  {
    TrunkHead(n, head, pieces);
    TrunkBody(n, head, pieces, i);
    TrunkLegs(n, head, pieces, i);
    assert [] + [|n|] == [|n|];
  }

  /** The crawdad's trunk piece of radius r: overlapping by r, with a leg
      of five at +90 and -90 degrees. */
  function CrawdadPiece(r: real): Piece {
    Piece(DefaultSegment(r, 100.0).(overlap := r), 2.0, 90.0, 0.0)
  }

  function CrawdadPieces(): seq<Piece> {
    [CrawdadPiece(22.0), CrawdadPiece(18.0), CrawdadPiece(15.0)]
  }

  /** What `create_crawdad` leaves when it raises: the head and its trunk,
      then the tail and the left tail scale, created but appended nowhere. */
  function CrawdadNodes(nodes: seq<PyNode>): seq<PyNode> {
    Trunk(nodes + [Head(30.0)], |nodes|, CrawdadPieces())
      + [PyNode(DefaultSegment(13.0, 100.0).(overlap := 13.0), []), Head(15.0)]
  }

  /** The trunk loop of `create_crawdad`, returning the last body dict. */
  method CrawdadTrunk(pool: Pool, head: nat) returns (curr: nat)
    requires head < |pool.nodes|
    modifies pool
    ensures pool.nodes == Trunk(old(pool.nodes), head, CrawdadPieces())
    ensures curr == old(|pool.nodes|) + 22
  {
    ghost var start := pool.nodes;
    ghost var pieces := CrawdadPieces();
    curr := head;
    var radii := [22.0, 18.0, 15.0];
    var i := 0;
    while i < |radii|
      invariant 0 <= i <= 3
      invariant pool.nodes == Trunk(start, head, pieces[..i]) && curr == TrunkCursor(|start|, head, i)
    {
      var r := radii[i];
      var next := DefaultSegment(r, 100.0);
      next := next.(overlap := r);
      TrunkStep(start, head, pieces, i);
      curr := AddPiece(pool, curr, Piece(next, 2.0, 90.0, 0.0));
      i := i + 1;
    }
    assert pieces[..3] == pieces;
  }

  /** `create_crawdad` as written: after the trunk, the tail and the left
      tail scale are created, and then `rightTailScale` is written to before
      the line that assigns it, which raises UnboundLocalError. */
  method CreateCrawdad(pool: Pool) returns (r: Result<nat>)
    modifies pool
    ensures r == Err("UnboundLocalError") && pool.nodes == CrawdadNodes(old(pool.nodes))
  {
    var head := pool.Add(DefaultSegment(30.0, 100.0));
    var curr := CrawdadTrunk(pool, head);
    var tail := DefaultSegment(13.0, 100.0);
    tail := tail.(overlap := 13.0);
    var tailId := pool.Add(tail);
    var leftTailScale := pool.Add(DefaultSegment(15.0, 100.0));
    r := Err("UnboundLocalError");
  }

  /** A tail scale at `angle`, overlapping by 15. */
  function TailScale(angle: real): PySegment {
    DefaultSegment(15.0, 100.0).(bodyAngle := PyAngle(angle, 0.0, 0.0), overlap := 15.0)
  }

  /** `create_crawdad` as evidently intended: the first write of the pair
      turns the left scale to +45. The tail is still created and appended
      nowhere, as written; both scales go to the last body dict. */
  function CrawdadFixedNodes(nodes: seq<PyNode>): seq<PyNode> {
    var b := |nodes|;
    var t := Trunk(nodes + [Head(30.0)], b, CrawdadPieces());
    var created := t + [PyNode(DefaultSegment(13.0, 100.0).(overlap := 13.0), []),
                        PyNode(TailScale(45.0), []), PyNode(TailScale(-45.0), [])];
    Link(Link(created, b + 23, b + 35), b + 23, b + 36)
  }

  /** `create_crawdad` with the left scale turned by the first write. */
  method CreateCrawdadFixed(pool: Pool) returns (head: nat)
    modifies pool
    ensures head == old(|pool.nodes|) && pool.nodes == CrawdadFixedNodes(old(pool.nodes))
  {
    head := pool.Add(DefaultSegment(30.0, 100.0));
    var curr := CrawdadTrunk(pool, head);
    var tail := DefaultSegment(13.0, 100.0);
    tail := tail.(overlap := 13.0);
    var tailId := pool.Add(tail);
    var left := DefaultSegment(15.0, 100.0);
    left := left.(bodyAngle := left.bodyAngle.(relative := 45.0));
    left := left.(overlap := 15.0);
    var leftTailScale := pool.Add(left);
    var right := DefaultSegment(15.0, 100.0);
    right := right.(bodyAngle := right.bodyAngle.(relative := -45.0));
    right := right.(overlap := 15.0);
    var rightTailScale := pool.Add(right);
    pool.Append(curr, leftTailScale);
    pool.Append(curr, rightTailScale);
  }

  /** The corrected crawdad's last body dict carries its two legs and then
      the two tail scales, mirror images of each other at +45 and -45. */
  lemma CrawdadTailScales(nodes: seq<PyNode>)
    ensures var b := |nodes|; var c := CrawdadFixedNodes(nodes);
      && |c| == b + 37
      && c[b + 23].seg == CrawdadPiece(15.0).seg
      && c[b + 23].children == [b + 24, b + 29, b + 35, b + 36]
      && c[b + 35].seg.bodyAngle.relative == 45.0 && c[b + 36].seg.bodyAngle.relative == -45.0
      && c[b + 35].seg == c[b + 36].seg.(bodyAngle := PyAngle(45.0, 0.0, 0.0))
  {
    var b := |nodes|;
    TrunkBody(nodes + [Head(30.0)], b, CrawdadPieces(), 2);
    assert [b + 24, b + 29] + [] + [b + 35] + [b + 36] == [b + 24, b + 29, b + 35, b + 36];
  }
}
