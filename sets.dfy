/** The set segmentations, which make no segments of their own: each wraps a
    replacement of its section in a `pair`, `equal` or `radial` section and
    hands that wrapper to `follow`
    (client/src/palamander/morphology/segmentation/segmentate-set.ts).
    None of them looks at its parent segment, so the parent is not a
    parameter here. */
module Sets {
  import opened Wrappers
  import opened Num
  import opened Sections
  import opened Builders

  /** The keys of the `sets` map. */
  const SetKinds: set<string> := {
    "buggy-legs", "claws", "frog-arms", "frog-legs", "gill-pair", "gills",
    "hairdo", "mane", "mandibles", "monkey-arms", "noodle-limbs", "nubby-legs",
    "pods", "propellers", "octo-arms", "simple-limbs", "starfish-arms", "tentacles"}

  /** The sets that wrap their section in a mirrored pair. */
  const MirroredPairs: set<string> := {
    "buggy-legs", "frog-arms", "frog-legs", "mandibles", "monkey-arms",
    "noodle-limbs", "nubby-legs", "pods", "simple-limbs"}

  /** The sets that spread their section evenly over a range. */
  const EqualSets: set<string> := {"gills", "hairdo", "mane", "octo-arms", "propellers", "tentacles"}

  /** `{ ...createSection('pair'), mirror }` around `next`. */
  function PairOf(mirror: bool, next: Section): Section {
    NewSection("pair").(mirror := mirror, next := Some(next))
  }

  /** `{ ...createSection('equal'), count, angle, mirror }` around `next`. */
  function EqualOf(count: int, angle: real, mirror: bool, next: Section): Section {
    NewSection("equal").(count := count, angle := angle, mirror := mirror, next := Some(next))
  }

  /** `{ ...replace(section), type, count, size }`: the replacement with a new
      kind and, where given, a new count and size. */
  function Next(env: Env, section: Section, kind: string, count: Option<int>, size: Option<real>): Section {
    var r := env.replace(section);
    r.(kind := kind, count := count.GetOr(r.count), size := size.GetOr(r.size))
  }

  /** The wrapper each set hands to `follow` with its section. */
  function SetWrapper(env: Env, section: Section, kind: string): (w: Section)
    requires kind in SetKinds
    ensures w.next.Some? && w.branches == [] && w.index == 0 && w.size == 0.0 && w.parentIndex.None?
    ensures w.kind == "pair" <==> kind in MirroredPairs || kind in {"claws", "gill-pair"}
    ensures w.kind == "equal" <==> kind in EqualSets
    ensures w.kind == "radial" <==> kind == "starfish-arms"
    ensures var r := env.replace(section); var n := w.next.value;
      n == r.(kind := n.kind, count := n.count, size := n.size, angle := n.angle)
  {
    match kind
    case "buggy-legs" => PairOf(true, Next(env, section, "rigid-leg", Some(2), Some(20.0)).(angle := 90.0 + section.angle))
    case "claws" => PairOf(false, Next(env, section, "claw", None, None))
    case "hairdo" => EqualOf(12, 180.0, false, Next(env, section, "hair", Some(2), Some(9.0)))
    case "mane" => EqualOf(30, 240.0, false, Next(env, section, "hair", Some(2), Some(7.0)))
    case "nubby-legs" => PairOf(true, Next(env, section, "rigid-leg", Some(1), Some(30.0)).(angle := 90.0 + section.angle))
    case "frog-arms" => PairOf(true, Next(env, section, "rigid-leg", Some(5), Some(20.0)).(angle := 90.0 + section.angle))
    case "frog-legs" => PairOf(true, Next(env, section, "frog-leg", None, None))
    case "gill-pair" => PairOf(false, Next(env, section, "gills", None, None).(angle := section.angle + 60.0))
    case "gills" => EqualOf(3, 60.0, true, Next(env, section, "curl", Some(5), Some(10.0)))
    case "tentacles" => EqualOf(10, 35.0, false, Next(env, section, "tentacle", Some(8), Some(35.0)))
    case "mandibles" => PairOf(true, Next(env, section, "mandible", Some(5), Some(20.0)).(angle := 165.0))
    case "monkey-arms" => PairOf(true, Next(env, section, "monkey-arm", None, None))
    case "pods" => PairOf(true, Next(env, section, "pod", None, None))
    case "propellers" =>
      EqualOf(3, 0.0, true, Next(env, section, "propeller", Some(6), Some(20.0))).(offset := (PI * 2.0) / 3.0)
    case "noodle-limbs" => PairOf(true, Next(env, section, "noodle-limb", None, None))
    case "octo-arms" => EqualOf(6, 80.0, false, Next(env, section, "curl", Some(12), Some(40.0)))
    case "simple-limbs" => PairOf(true, Next(env, section, "simple-limb", None, None))
    case "starfish-arms" =>
      NewSection("radial").(count := 5, mirror := true, next := Some(Next(env, section, "curl", Some(8), Some(75.0))))
  }

  /** A set: its section followed by the set's wrapper. */
  function SegmentateSet(env: Env, section: Section, kind: string): Outcome
    requires kind in SetKinds
  {
    env.follow(section, SetWrapper(env, section, kind))
  }

  /** Pairs mirror their replacement except for claws and gill pairs, and a
      pair wrapper carries nothing but its mirror flag and next. */
  lemma PairMirror(env: Env, section: Section, kind: string)
    requires kind in SetKinds
    ensures var w := SetWrapper(env, section, kind);
      w.kind == "pair" ==> w.mirror == (kind in MirroredPairs) && w.count == 0 && w.angle == 0.0 && w.offset == 0.0
  {
  }

  /** The three rigid-leg sets: each pair of legs stands at right angles to
      the section's angle and differs only in count and size. */
  lemma RigidLegSets(env: Env, section: Section, kind: string)
    requires kind in {"buggy-legs", "nubby-legs", "frog-arms"}
    ensures var n := SetWrapper(env, section, kind).next.value;
      && n.kind == "rigid-leg" && n.angle == section.angle + 90.0
      && (n.count, n.size) == (if kind == "buggy-legs" then (2, 20.0)
                               else if kind == "nubby-legs" then (1, 30.0) else (5, 20.0))
  {
  }

  /** Mandibles ignore the section's angle: every section gets the same
      wrapper angle of 165 degrees, while the other pair sets turn with it. */
  lemma MandiblesFixed(env: Env, s: Section, t: Section)
    requires env.replace(s) == env.replace(t)
    ensures SetWrapper(env, s, "mandibles") == SetWrapper(env, t, "mandibles")
    ensures SetWrapper(env, s, "mandibles").next.value.angle == 165.0
    ensures s.angle != t.angle ==> SetWrapper(env, s, "buggy-legs") != SetWrapper(env, t, "buggy-legs")
  {
    var bs := SetWrapper(env, s, "buggy-legs");
    var bt := SetWrapper(env, t, "buggy-legs");
    if s.angle != t.angle {
      assert bs.next.value.angle != bt.next.value.angle;
    }
  }

  /** The even spreads: how many copies, over how many degrees, whether they
      mirror, and what each copy is. */
  lemma EqualSpreads(env: Env, section: Section, kind: string)
    requires kind in EqualSets
    ensures var w := SetWrapper(env, section, kind); var n := w.next.value;
      && (w.count, w.angle, w.mirror) ==
         (match kind
          case "gills" => (3, 60.0, true)
          case "hairdo" => (12, 180.0, false)
          case "mane" => (30, 240.0, false)
          case "octo-arms" => (6, 80.0, false)
          case "propellers" => (3, 0.0, true)
          case _ => (10, 35.0, false))
      && (n.kind, n.count, n.size) ==
         (match kind
          case "gills" => ("curl", 5, 10.0)
          case "hairdo" => ("hair", 2, 9.0)
          case "mane" => ("hair", 2, 7.0)
          case "octo-arms" => ("curl", 12, 40.0)
          case "propellers" => ("propeller", 6, 20.0)
          case _ => ("tentacle", 8, 35.0))
      && (w.offset == 0.0 <==> kind != "propellers")
  {
  }

  /** Propeller blades: three of them, stacked at one angle, each a third of
      a cycle apart in phase. */
  lemma PropellerPhases(env: Env, section: Section)
    ensures var w := SetWrapper(env, section, "propellers");
      w.count == 3 && w.angle == 0.0 && w.offset * w.count as real == 2.0 * PI
  {
  }

  /** Starfish arms: five mirrored curls of eight segments at 75 percent,
      spread round the circle. */
  lemma StarfishArms(env: Env, section: Section)
    ensures var w := SetWrapper(env, section, "starfish-arms"); var n := w.next.value;
      w.kind == "radial" && w.count == 5 && w.mirror && n.kind == "curl" && n.count == 8 && n.size == 75.0
  {
  }
}
