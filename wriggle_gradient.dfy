/** Per-index ramps of squiggle range and suppression along a section
    (client/src/palamander/morphology/animation/wriggle-gradient.ts). */
module WriggleGradients {
  import opened Wrappers
  import opened Num
  import opened Suppressions
  import opened WriggleSpecs
  import opened Wriggles

  datatype SuppressionGradient = SuppressionGradient(
    range: Option<DampenRange>,
    tuckTarget: Option<real>,
    tuckFactor: Option<real>)

  /** `easeFactor` damps the range of the first segment; `increase` is how
      much the range grows from the first segment to the last. */
  datatype SquiggleGradient = SquiggleGradient(
    wave: WaveSpec,
    count: int,
    length: real,
    angle: real,
    easeFactor: real,
    increase: real,
    suppression: Option<SuppressionGradient>)

  /** How far along the section index i lies, from 0 to 1. */
  function GetFractionI(i: int, count: int): (f: real)
    ensures i == 0 ==> f == 0.0
    ensures count >= 2 && i == count - 1 ==> f == 1.0
    ensures count >= 2 && 0 <= i < count ==> 0.0 <= f <= 1.0
  {
    i as real / MaxInt(1, count - 1) as real
  }

  /** The suppression at index i: the wave's own suppression (or one made
      from its range and period), with dampen set from the gradient's range
      and tuck set towards the tuck target when those are given. */
  function SuppressAtIndex(i: int, count: int, angle: real, gradient: SuppressionGradient, wave: WaveSpec): (s: Suppression)
    ensures var base := wave.suppression.GetOr(CreateSuppression(wave.range, wave.period));
      s.delta == base.delta
      && s.dampen == (if gradient.range.Some? then Some(CalculateDampen(i, count, gradient.range.value)) else base.dampen)
      && s.tuck == (if gradient.tuckTarget.Some?
                    then Some(CalculateTuck(angle, gradient.tuckTarget.value, gradient.tuckFactor.GetOr(0.5)))
                    else base.tuck)
  {
    var base := wave.suppression.GetOr(CreateSuppression(wave.range, wave.period));
    var dampened := if gradient.range.Some? then base.(dampen := Some(CalculateDampen(i, count, gradient.range.value))) else base;
    if gradient.tuckTarget.Some?
    then dampened.(tuck := Some(CalculateTuck(angle, gradient.tuckTarget.value, gradient.tuckFactor.GetOr(0.5))))
    else dampened
  }

  /** The range at index i: a linear ramp of width `increase` centred on the
      wave's range, with index 0 scaled by the ease factor. */
  function RangeAt(g: SquiggleGradient, i: int): (r: real)
    ensures i != 0 ==> r == g.wave.range - g.increase / 2.0 + GetFractionI(i, g.count) * g.increase
    ensures i == 0 ==> r == (g.wave.range - g.increase / 2.0) * g.easeFactor
  {
    var range := g.wave.range - g.increase / 2.0 + GetFractionI(i, g.count) * g.increase;
    if i == 0 then range * g.easeFactor else range
  }

  /** The wave used at index i. */
  function WaveAt(g: SquiggleGradient, i: int): WaveSpec {
    var wave := g.wave.(range := RangeAt(g, i));
    if g.suppression.Some?
    then wave.(suppression := Some(SuppressAtIndex(i, g.count, g.angle, g.suppression.value, wave)))
    else wave
  }

  /** The generator: index i gets a one-component wriggle, a squiggle over
      the gradient's length with the ramped range. */
  function ToSquiggleGenerator(g: SquiggleGradient): (gen: int -> Wriggle)
    ensures forall i :: |gen(i)| == 1
    ensures forall i :: gen(i)[0] == ToWriggleComponent(CreateSquiggleSpec(WaveAt(g, i), i, g.length))
    ensures forall i :: gen(i)[0].range == RangeAt(g, i)
  {
    (i: int) => ToWriggle([CreateSquiggleSpec(WaveAt(g, i), i, g.length)])
  }

  /** Count 3, increase 20 and range 30 (no easing) give ranges 20, 30 and 40. */
  lemma RangeRampExample(g: SquiggleGradient)
    requires g.count == 3 && g.increase == 20.0 && g.wave.range == 30.0 && g.easeFactor == 1.0
    ensures RangeAt(g, 0) == 20.0 && RangeAt(g, 1) == 30.0 && RangeAt(g, 2) == 40.0
  {
  }

  /** The ramp is linear in the index from index 1 on; only index 0 is eased. */
  lemma RangeStep(g: SquiggleGradient, i: int)
    requires i >= 1 && g.count >= 2
    ensures RangeAt(g, i + 1) - RangeAt(g, i) == g.increase / (g.count - 1) as real
  {
    var d := (g.count - 1) as real;
    assert GetFractionI(i + 1, g.count) - GetFractionI(i, g.count) == 1.0 / d;
    calc {
      RangeAt(g, i + 1) - RangeAt(g, i);
      (GetFractionI(i + 1, g.count) - GetFractionI(i, g.count)) * g.increase;
      g.increase / d;
    }
  }

  /** Without a suppression gradient the component keeps the wave's own
      suppression, so the default {delta: 0} when the wave has none. */
  lemma NoGradientSuppression(g: SquiggleGradient, i: int)
    requires g.suppression.None?
    ensures ToSquiggleGenerator(g)(i)[0].suppression == g.wave.suppression.GetOr(Suppression(None, None, 0.0))
  {
  }
}
