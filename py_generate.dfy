/** The Python generator of palamander segment trees
    (tools/generate_palamanders.py): the default segment and wriggle-spec
    constructors, the chain builders that hang a run of dicts off a parent,
    and the creature assemblers. Every chain builder is a loop that creates
    one dict per turn of `range(length)` and appends it to the previous one;
    each is proved against the list of dicts it hangs, given as a function
    of its arguments. Python floats are modelled as reals; integer-valued
    arguments that only take part in float arithmetic are reals too. */
module PyGenerate {
  import opened Wrappers
  import opened Num
  import opened PyArena

  /** How many turns `for i in range(n)` makes. */
  function Turns(n: int): nat {
    if n < 0 then 0 else n
  }

  /** `create_default_segment(radius, propagationInterval)`: a straight,
      still, non-overlapping dict. */
  function DefaultSegment(radius: real, propagationInterval: real): PySegment {
    PySegment(radius, PyAngle(0.0, 0.0, 0.0), [], 0.0, propagationInterval)
  }

  /** `to_curl_spec`: every segment curls together. */
  function CurlSpec(range: real, period: real, i: int, offset: real): PySpec {
    PySpec(range, period, i, 0.0, offset, true)
  }

  /** `to_squiggle_spec`: `1 / length` raises ZeroDivisionError when the
      length is 0. */
  function SquiggleSpec(range: real, period: real, i: int, length: int, offset: real): (r: Result<PySpec>)
    ensures r.Ok? <==> length != 0
    ensures r.Ok? ==> r.value.squiggleRate * length as real == 1.0 && !r.value.synchronize
                      && (r.value.range, r.value.period, r.value.i, r.value.offset) == (range, period, i, offset)
    ensures r.Err? ==> r.error == "ZeroDivisionError"
  {
    if length == 0 then Err("ZeroDivisionError")
    else Ok(PySpec(range, period, i, 1.0 / length as real, offset, false))
  }

  /** `to_rotation_spec`: the whole line turns as one. */
  function RotationSpec(range: real, period: real, offset: real): PySpec {
    PySpec(range, period, 0, 0.0, offset, false)
  }

  /** The three kinds of spec: a curl synchronizes and does not squiggle; a
      rotation neither synchronizes nor squiggles and has phase index 0, so
      the specs of all segments of a rotating line are one and the same. */
  lemma SpecKinds(range: real, period: real, i: int, j: int, offset: real)
    ensures CurlSpec(range, period, i, offset).synchronize && CurlSpec(range, period, i, offset).squiggleRate == 0.0
    ensures CurlSpec(range, period, i, offset) == CurlSpec(range, period, j, offset) <==> i == j
    ensures var r := RotationSpec(range, period, offset);
      !r.synchronize && r.squiggleRate == 0.0 && r.i == 0
  {
  }

  /** A dict of a chain: the default dict turned by `angle` off its parent
      and free to curve 100 degrees. */
  function Bent(radius: real, angle: real): PySegment {
    DefaultSegment(radius, 100.0).(bodyAngle := PyAngle(angle, 0.0, 100.0))
  }

  // -------------------------------------------------------------- add_leg

  /** The dicts `add_leg` hangs: `length` identical rigid pieces rotating
      back and forth together. */
  function Leg(radius: real, length: int, angle: real, offset: real): seq<PySegment> {
    seq(Turns(length), _ => Bent(radius, angle).(wriggle := [RotationSpec(45.0, 2.0, offset)]))
  }

  /** One turn of a chain loop: `seg` is created, appended to `curr`, and
      becomes the new `curr`. */
  method Turn(pool: Pool, ghost start: seq<PyNode>, parent: nat, ghost segs: seq<PySegment>, i: nat,
              curr: nat, seg: PySegment) returns (x: nat)
    requires parent < |start| && i < |segs| && seg == segs[i]
    requires pool.nodes == Chain(start, parent, segs[..i]) && curr == Cursor(|start|, parent, i)
    modifies pool
    ensures pool.nodes == Chain(start, parent, segs[..i + 1]) && x == Cursor(|start|, parent, i + 1)
  {
    x := pool.Add(seg);
    pool.Append(curr, x);
    ChainStep(start, parent, segs, i);
  }

  /** `add_leg`. */
  method AddLeg(pool: Pool, parent: nat, radius: real, length: int, angle: real, offset: real)
    requires parent < |pool.nodes|
    modifies pool
    ensures pool.nodes == Chain(old(pool.nodes), parent, Leg(radius, length, angle, offset))
  {
    ghost var start := pool.nodes;
    ghost var segs := Leg(radius, length, angle, offset);
    var curr := parent;
    var i := 0;
    while i < length
      invariant 0 <= i <= |segs|
      invariant pool.nodes == Chain(start, parent, segs[..i]) && curr == Cursor(|start|, parent, i)
    {
      var x := DefaultSegment(radius, 100.0);
      x := x.(bodyAngle := x.bodyAngle.(relative := angle));
      x := x.(bodyAngle := x.bodyAngle.(curveRange := 100.0));
      x := x.(wriggle := [RotationSpec(45.0, 2.0, offset)]);
      curr := Turn(pool, start, parent, segs, i, curr, x);
      i := i + 1;
    }
    assert segs[..i] == segs;
  }

  /** A leg is rigid: all its dicts are the same dict, turned by the leg's
      angle, with one rotation spec of range 45 and period 2. */
  lemma LegRigid(radius: real, length: int, angle: real, offset: real, j: nat, k: nat)
    requires j < Turns(length) && k < Turns(length)
    ensures var l := Leg(radius, length, angle, offset);
      && |l| == length && l[j] == l[k]
      && l[k].radius == radius && l[k].bodyAngle == PyAngle(angle, 0.0, 100.0)
      && l[k].wriggle == [PySpec(45.0, 2.0, 0, 0.0, offset, false)]
  {
  }

  // ------------------------------------------------------------ add_spike

  /** The dicts `add_spike` hangs: from the full radius down in equal steps
      of radius / length, without wriggle. */
  function Spike(radius: real, length: int, angle: real): seq<PySegment>
    requires length != 0
  {
    seq(Turns(length), k requires 0 <= k < Turns(length) => SpikeDict(radius, length, angle, k))
  }

  /** The radius of dict k of a spike: k tapers of radius / length off
      the full radius. */
  function SpikeRadius(radius: real, length: int, k: nat): real
    requires length != 0
  {
    radius - k as real * (radius / length as real)
  }

  /** Dict k of a spike. */
  function SpikeDict(radius: real, length: int, angle: real, k: nat): PySegment
    requires length != 0
  {
    Bent(SpikeRadius(radius, length, k), angle)
  }

  /** The dict one turn of `add_spike` builds field by field is dict i of
      the spike. */
  lemma SpikeDictBuilt(radius: real, length: int, angle: real, i: nat, rad: real, segs: seq<PySegment>)
    requires 0 <= i < length && rad == SpikeRadius(radius, length, i)
    requires segs == Spike(radius, length, angle)
    ensures var d := DefaultSegment(rad, 100.0);
      var d1 := d.(bodyAngle := d.bodyAngle.(relative := angle));
      var d2 := d1.(bodyAngle := d1.bodyAngle.(curveRange := 100.0));
      d2.(wriggle := []) == segs[i]
  {
    assert segs[i] == SpikeDict(radius, length, angle, i);
  }

  /** Taking the taper off the radius of dict i gives that of dict i + 1. */
  lemma SpikeStep(radius: real, length: int, taper: real, i: nat)
    requires length != 0 && taper == radius / length as real
    ensures SpikeRadius(radius, length, i) - taper == SpikeRadius(radius, length, i + 1)
  {
  }

  /** `add_spike`: the taper `radius / length` is computed before the loop,
      so a length of 0 raises ZeroDivisionError and appends nothing. */
  method AddSpike(pool: Pool, parent: nat, radius: real, length: int, angle: real) returns (r: Result<()>)
    requires parent < |pool.nodes|
    modifies pool
    ensures length == 0 ==> r == Err("ZeroDivisionError") && pool.nodes == old(pool.nodes)
    ensures length != 0 ==> r == Ok(()) && pool.nodes == Chain(old(pool.nodes), parent, Spike(radius, length, angle))
  {
    if length == 0 {
      return Err("ZeroDivisionError");
    }
    var taper := radius / length as real;
    SpikeLoop(pool, parent, radius, length, angle, taper);
    r := Ok(());
  }

  /** The loop of `add_spike`, once the taper is known: the running radius
      loses the taper after each dict. */
  method SpikeLoop(pool: Pool, parent: nat, radius: real, length: int, angle: real, taper: real)
    requires parent < |pool.nodes| && length != 0 && taper == radius / length as real
    modifies pool
    ensures pool.nodes == Chain(old(pool.nodes), parent, Spike(radius, length, angle))
  {
    ghost var start := pool.nodes;
    ghost var segs := Spike(radius, length, angle);
    var curr := parent;
    var rad := radius;
    var i := 0;
    while i < length
      invariant 0 <= i <= |segs|
      invariant pool.nodes == Chain(start, parent, segs[..i]) && curr == Cursor(|start|, parent, i)
      invariant rad == SpikeRadius(radius, length, i)
    {
      var x := DefaultSegment(rad, 100.0);
      x := x.(bodyAngle := x.bodyAngle.(relative := angle));
      x := x.(bodyAngle := x.bodyAngle.(curveRange := 100.0));
      x := x.(wriggle := []);
      SpikeDictBuilt(radius, length, angle, i, rad, segs);
      curr := Turn(pool, start, parent, segs, i, curr, x);
      SpikeStep(radius, length, taper, i);
      rad := rad - taper;
      i := i + 1;
    }
    assert segs[..i] == segs;
  }

  /** A spike of positive radius and length tapers to a point: it starts at
      the full radius, each dict is radius / length thinner than the one
      before, and the last is radius / length, still positive. */
  lemma SpikeTapers(radius: real, length: int, angle: real, k: nat)
    requires radius > 0.0 && length > 0 && k < length
    ensures var s := Spike(radius, length, angle);
      && |s| == length && s[0].radius == radius
      && (k + 1 < length ==> s[k + 1].radius == s[k].radius - radius / length as real)
      && s[length - 1].radius * length as real == radius
      && s[k].radius >= s[length - 1].radius > 0.0
  {
    var t := radius / length as real;
    var n := length as real;
    var s := Spike(radius, length, angle);
    assert t * n == radius;
    assert t > 0.0;
    assert s[length - 1] == SpikeDict(radius, length, angle, length - 1);
    assert s[length - 1].radius == radius - (n - 1.0) * t;
    assert s[length - 1].radius == t;
    assert s[k] == SpikeDict(radius, length, angle, k);
    MulLeMono(k as real, n - 1.0, t);
  }

  // --------------------------------------------------------- add_octo_arm

  /** Dict k of an octopus arm: the radius tapered k + 1 times, overlapping
      by half its radius, curling in sync so that the whole arm curls 120
      degrees. */
  function OctoDict(radius: real, length: int, angle: real, taperFactor: real, offset: real, k: nat): PySegment
    requires length > 0
  {
    var r := radius * Pow(taperFactor, k + 1);
    Bent(r, angle).(wriggle := [CurlSpec(120.0 / length as real, 2.0, k, offset)], overlap := r / 2.0)
  }

  /** The dicts `add_octo_arm` hangs. */
  function OctoArm(radius: real, length: int, angle: real, taperFactor: real, offset: real): seq<PySegment> {
    seq(Turns(length), k requires 0 <= k < Turns(length) => OctoDict(radius, length, angle, taperFactor, offset, k))
  }

  /** One more taper of the running radius. */
  lemma TaperStep(radius: real, taperFactor: real, i: nat, rad: real)
    requires rad == radius * Pow(taperFactor, i)
    ensures rad * taperFactor == radius * Pow(taperFactor, i + 1)
  {
    assert Pow(taperFactor, i + 1) == taperFactor * Pow(taperFactor, i);
  }

  /** `add_octo_arm`. */
  method AddOctoArm(pool: Pool, parent: nat, radius: real, length: int, angle: real, taperFactor: real, offset: real)
    requires parent < |pool.nodes|
    modifies pool
    ensures pool.nodes == Chain(old(pool.nodes), parent, OctoArm(radius, length, angle, taperFactor, offset))
  {
    ghost var start := pool.nodes;
    ghost var segs := OctoArm(radius, length, angle, taperFactor, offset);
    var curr := parent;
    var rad := radius;
    var i := 0;
    while i < length
      invariant 0 <= i <= |segs|
      invariant pool.nodes == Chain(start, parent, segs[..i]) && curr == Cursor(|start|, parent, i)
      invariant rad == radius * Pow(taperFactor, i)
    {
      curr, rad := OctoTurn(pool, start, parent, segs, radius, length, angle, taperFactor, offset, i, curr, rad);
      i := i + 1;
    }
    assert segs[..i] == segs;
  }

  /** One turn of the loop of `add_octo_arm`: the radius tapers once more,
      and dict i is built from it and appended to `curr`. */
  method OctoTurn(pool: Pool, ghost start: seq<PyNode>, parent: nat, ghost segs: seq<PySegment>,
                  radius: real, length: int, angle: real, taperFactor: real, offset: real,
                  i: nat, curr: nat, rad: real) returns (next: nat, tapered: real)
    requires parent < |start| && i < length && segs == OctoArm(radius, length, angle, taperFactor, offset)
    requires pool.nodes == Chain(start, parent, segs[..i]) && curr == Cursor(|start|, parent, i)
    requires rad == radius * Pow(taperFactor, i)
    modifies pool
    ensures pool.nodes == Chain(start, parent, segs[..i + 1]) && next == Cursor(|start|, parent, i + 1)
    ensures tapered == radius * Pow(taperFactor, i + 1)
  {
    TaperStep(radius, taperFactor, i, rad);
    tapered := rad * taperFactor;
    var x := DefaultSegment(tapered, 100.0);
    x := x.(bodyAngle := x.bodyAngle.(relative := angle));
    x := x.(bodyAngle := x.bodyAngle.(curveRange := 100.0));
    x := x.(wriggle := [CurlSpec(120.0 / length as real, 2.0, i, offset)]);
    x := x.(overlap := tapered / 2.0);
    OctoDictBuilt(radius, length, angle, taperFactor, offset, i, tapered, segs);
    next := Turn(pool, start, parent, segs, i, curr, x);
  }

  /** The dict one turn of `add_octo_arm` builds field by field is dict i
      of the arm. */
  lemma OctoDictBuilt(radius: real, length: int, angle: real, taperFactor: real, offset: real, i: nat,
                      rad: real, segs: seq<PySegment>)
    requires 0 <= i < length && rad == radius * Pow(taperFactor, i + 1)
    requires segs == OctoArm(radius, length, angle, taperFactor, offset)
    ensures var d := DefaultSegment(rad, 100.0);
      var d1 := d.(bodyAngle := d.bodyAngle.(relative := angle));
      var d2 := d1.(bodyAngle := d1.bodyAngle.(curveRange := 100.0));
      d2.(wriggle := [CurlSpec(120.0 / length as real, 2.0, i, offset)]).(overlap := rad / 2.0) == segs[i]
  {
  }

  /** An arm tapers geometrically: dict k has the radius times the taper
      factor to the k + 1, so with a factor in (0, 1) every dict is thinner
      than the one before yet positive; each overlaps by half its radius,
      and the curl ranges of the arm add up to 120 degrees. */
  lemma OctoArmTapers(radius: real, length: int, angle: real, taperFactor: real, offset: real, j: nat, k: nat)
    requires length > 0 && j < k < length
    requires radius > 0.0 && 0.0 < taperFactor < 1.0
    ensures var a := OctoArm(radius, length, angle, taperFactor, offset);
      && |a| == length && a[0].radius == radius * taperFactor
      && 0.0 < a[k].radius < a[j].radius < radius
      && a[k].overlap * 2.0 == a[k].radius
      && a[k].wriggle[0].synchronize && a[k].wriggle[0].i == k
      && a[k].wriggle[0].range * length as real == 120.0
  {
    PowStrictlyDecreasing(taperFactor, j + 1, k + 1);
    PowStrictlyDecreasing(taperFactor, 0, j + 1);
    PowPositive(taperFactor, k + 1);
    var a := OctoArm(radius, length, angle, taperFactor, offset);
    assert a[0] == OctoDict(radius, length, angle, taperFactor, offset, 0);
    assert a[j] == OctoDict(radius, length, angle, taperFactor, offset, j);
    assert a[k] == OctoDict(radius, length, angle, taperFactor, offset, k);
    OctoDictFields(radius, length, angle, taperFactor, offset, k);
    MulLtMono(Pow(taperFactor, k + 1), Pow(taperFactor, j + 1), radius);
    MulLtMono(Pow(taperFactor, j + 1), 1.0, radius);
    assert Pow(taperFactor, 1) == taperFactor;
  }

  /** Dict k of an arm: its radius, its overlap of half that radius, and
      its one synchronised curl. */
  lemma OctoDictFields(radius: real, length: int, angle: real, taperFactor: real, offset: real, k: nat)
    requires length > 0
    ensures var d := OctoDict(radius, length, angle, taperFactor, offset, k);
      && d.radius == radius * Pow(taperFactor, k + 1) && d.overlap * 2.0 == d.radius
      && d.wriggle[0].synchronize && d.wriggle[0].i == k && d.wriggle[0].range * length as real == 120.0
  {
  }

  // ---------------------------------------------------- add_tapered_snake

  /** Dict k of a tapered snake: the radius tapered k + 1 times, an overlap
      proportional to it, and a squiggle whose wave spans twice the length. */
  function SnakeDict(radius: real, length: int, angle: real, taperFactor: real, overlapMult: real, k: nat): PySegment
    requires length > 0
  {
    var r := radius * Pow(taperFactor, k + 1);
    Bent(r, angle).(wriggle := [SquiggleSpec(10.0, 1.0, k, length * 2, 0.0).value], overlap := overlapMult * r)
  }

  /** The dicts `add_tapered_snake` hangs. */
  function TaperedSnake(radius: real, length: int, angle: real, taperFactor: real, overlapMult: real): seq<PySegment> {
    seq(Turns(length), k requires 0 <= k < Turns(length) => SnakeDict(radius, length, angle, taperFactor, overlapMult, k))
  }

  /** The dict one turn of `add_tapered_snake` builds field by field is
      dict i of the snake. */
  lemma SnakeDictBuilt(radius: real, length: int, angle: real, taperFactor: real, overlapMult: real, i: nat,
                       rad: real, segs: seq<PySegment>)
    requires 0 <= i < length && rad == radius * Pow(taperFactor, i + 1)
    requires segs == TaperedSnake(radius, length, angle, taperFactor, overlapMult)
    ensures var d := DefaultSegment(rad, 100.0);
      var d1 := d.(bodyAngle := d.bodyAngle.(relative := angle));
      var d2 := d1.(bodyAngle := d1.bodyAngle.(curveRange := 100.0));
      d2.(wriggle := [SquiggleSpec(10.0, 1.0, i, length * 2, 0.0).value]).(overlap := overlapMult * rad) == segs[i]
  {
  }

  /** `add_tapered_snake`: returns the last dict it appended, or the parent
      when it appended none. */
  method AddTaperedSnake(pool: Pool, parent: nat, radius: real, length: int, angle: real, taperFactor: real,
                         overlapMult: real) returns (last: nat)
    requires parent < |pool.nodes|
    modifies pool
    ensures pool.nodes == Chain(old(pool.nodes), parent, TaperedSnake(radius, length, angle, taperFactor, overlapMult))
    ensures length > 0 ==> last == old(|pool.nodes|) + length - 1
    ensures length <= 0 ==> last == parent
  {
    ghost var start := pool.nodes;
    ghost var segs := TaperedSnake(radius, length, angle, taperFactor, overlapMult);
    var curr := parent;
    var rad := radius;
    var i := 0;
    while i < length
      invariant 0 <= i <= |segs|
      invariant pool.nodes == Chain(start, parent, segs[..i]) && curr == Cursor(|start|, parent, i)
      invariant rad == radius * Pow(taperFactor, i)
    {
      curr, rad := SnakeTurn(pool, start, parent, segs, radius, length, angle, taperFactor, overlapMult, i, curr, rad);
      i := i + 1;
    }
    assert segs[..i] == segs;
    last := curr;
  }

  /** One turn of the loop of `add_tapered_snake`: the radius tapers once
      more, and dict i is built from it and appended to `curr`. */
  method SnakeTurn(pool: Pool, ghost start: seq<PyNode>, parent: nat, ghost segs: seq<PySegment>,
                   radius: real, length: int, angle: real, taperFactor: real, overlapMult: real,
                   i: nat, curr: nat, rad: real) returns (next: nat, tapered: real)
    requires parent < |start| && i < length && segs == TaperedSnake(radius, length, angle, taperFactor, overlapMult)
    requires pool.nodes == Chain(start, parent, segs[..i]) && curr == Cursor(|start|, parent, i)
    requires rad == radius * Pow(taperFactor, i)
    modifies pool
    ensures pool.nodes == Chain(start, parent, segs[..i + 1]) && next == Cursor(|start|, parent, i + 1)
    ensures tapered == radius * Pow(taperFactor, i + 1)
  {
    TaperStep(radius, taperFactor, i, rad);
    tapered := rad * taperFactor;
    var x := DefaultSegment(tapered, 100.0);
    x := x.(bodyAngle := x.bodyAngle.(relative := angle));
    x := x.(bodyAngle := x.bodyAngle.(curveRange := 100.0));
    var spec := SquiggleSpec(10.0, 1.0, i, length * 2, 0.0);
    x := x.(wriggle := [spec.value]);
    x := x.(overlap := overlapMult * tapered);
    SnakeDictBuilt(radius, length, angle, taperFactor, overlapMult, i, tapered, segs);
    next := Turn(pool, start, parent, segs, i, curr, x);
  }

  /** A snake tapers like an arm, and every dict squiggles with rate
      1 / (2 * length): the wave spans twice the snake. */
  lemma SnakeTapers(radius: real, length: int, angle: real, taperFactor: real, overlapMult: real, k: nat)
    requires length > 0 && k < length
    ensures var s := TaperedSnake(radius, length, angle, taperFactor, overlapMult);
      && |s| == length && s[k].radius == radius * Pow(taperFactor, k + 1)
      && s[k].overlap == overlapMult * s[k].radius
      && |s[k].wriggle| == 1 && s[k].wriggle[0].i == k && !s[k].wriggle[0].synchronize
      && s[k].wriggle[0].squiggleRate * (2 * length) as real == 1.0
  {
  }

  // ------------------------------------------------------------ add_frill

  /** Dict k of a frill: only the first is turned off the parent. */
  function FrillDict(radius: real, length: int, angle: real, k: nat): PySegment
    requires length > 0
  {
    Bent(radius, if k == 0 then angle else 0.0).(wriggle := [SquiggleSpec(10.0, 5.0, k, length * 10, 0.0).value])
  }

  /** The dicts `add_frill` hangs. */
  function Frill(radius: real, length: int, angle: real): seq<PySegment> {
    seq(Turns(length), k requires 0 <= k < Turns(length) => FrillDict(radius, length, angle, k))
  }

  /** `add_frill`. */
  method AddFrill(pool: Pool, parent: nat, radius: real, length: int, angle: real)
    requires parent < |pool.nodes|
    modifies pool
    ensures pool.nodes == Chain(old(pool.nodes), parent, Frill(radius, length, angle))
  {
    ghost var start := pool.nodes;
    ghost var segs := Frill(radius, length, angle);
    var curr := parent;
    var i := 0;
    while i < length
      invariant 0 <= i <= |segs|
      invariant pool.nodes == Chain(start, parent, segs[..i]) && curr == Cursor(|start|, parent, i)
    {
      var x := DefaultSegment(radius, 100.0);
      x := x.(bodyAngle := x.bodyAngle.(relative := if i == 0 then angle else 0.0));
      x := x.(bodyAngle := x.bodyAngle.(curveRange := 100.0));
      var spec := SquiggleSpec(10.0, 5.0, i, length * 10, 0.0);
      x := x.(wriggle := [spec.value]);
      x := x.(overlap := 0.0);
      curr := Turn(pool, start, parent, segs, i, curr, x);
      i := i + 1;
    }
    assert segs[..i] == segs;
  }

  /** A frill is turned at its root only: the rest follows straight on,
      all of one radius, squiggling slowly (a wave ten lengths long). */
  lemma FrillRootTurns(radius: real, length: int, angle: real, k: nat)
    requires length > 0 && k < length
    ensures var f := Frill(radius, length, angle);
      && |f| == length && f[k].radius == radius && f[k].overlap == 0.0
      && f[k].bodyAngle.relative == (if k == 0 then angle else 0.0)
      && f[k].wriggle[0].squiggleRate * (10 * length) as real == 1.0
  {
  }
}
