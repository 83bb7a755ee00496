/** Speed-dependent suppression of a wriggle: dampening, tucking and a
    per-interval rate clamp (client/src/palamander/morphology/animation/suppression.ts). */
module Suppressions {
  import opened Wrappers
  import opened Num

  /** `dampen` and `tuck` are optional; `delta` is the largest change per ms
      between the natural and the suppressed angle. */
  datatype Suppression = Suppression(dampen: Option<real>, tuck: Option<real>, delta: real)

  datatype Suppressed = Suppressed(magnitude: real, suppressed: real)

  /** The dampening factor at the front and at the back of a section. */
  datatype DampenRange = DampenRange(front: real, back: real)

  /** JavaScript truthiness of an optional number: absent and 0 are both
      falsy (NaN is not modelled). */
  predicate Truthy(o: Option<real>) { o.Some? && o.value != 0.0 }

  /** Rotates the angle towards the tuck amount in proportion to speed. */
  function Tuck(angle: real, tuck: real, speed: real): (r: real)
    ensures speed == 0.0 ==> r == angle
    ensures speed == 100.0 ==> r == angle + tuck
  {
    angle + tuck * (speed / 100.0)
  }

  /** Scales the angle down in proportion to speed and the factor. */
  function Dampen(angle: real, factor: real, speed: real): (r: real)
    ensures speed == 0.0 || factor == 0.0 ==> r == angle
    ensures speed == 100.0 && factor == 1.0 ==> r == 0.0
  {
    angle * (1.0 - (speed / 100.0) * factor)
  }

  /** The angle after dampening and then tucking, where each is applied only
      when its field is truthy. */
  function Tucked(s: Suppression, angle: real, speed: real): real {
    var dampened := if !Truthy(s.dampen) then angle else Dampen(angle, s.dampen.value, speed);
    if !Truthy(s.tuck) then dampened else Tuck(dampened, s.tuck.value, speed)
  }

  /** The suppressed part moves towards angle - Tucked by at most
      interval * delta from its previous value; what is not suppressed is
      the magnitude. */
  function Suppress(s: Suppression, angle: real, prevSuppressed: real, speed: real, interval: real): (r: Suppressed)
    ensures r.magnitude + r.suppressed == angle
    ensures interval * s.delta >= 0.0 ==>
      prevSuppressed - interval * s.delta <= r.suppressed <= prevSuppressed + interval * s.delta
    ensures s.delta == 0.0 ==> r.suppressed == prevSuppressed
    ensures var target := angle - Tucked(s, angle, speed);
      prevSuppressed - interval * s.delta <= target <= prevSuppressed + interval * s.delta ==>
        r.suppressed == target
  {
    var max := interval * s.delta;
    var suppressed := Max(Min(angle - Tucked(s, angle, speed), prevSuppressed + max), prevSuppressed - max);
    Suppressed(angle - suppressed, suppressed)
  }

  /** The tuck that brings an angle to the target when fully applied. */
  function CalculateTuck(angle: real, target: real, factor: real): (r: real)
    ensures angle == target ==> r == 0.0
    ensures factor == 1.0 ==> angle + r == target
  {
    (target - angle) * factor
  }

  /** Linear interpolation of the dampening factor from front to back over
      the indexes of a section; a count of one or less divides by 1. */
  function CalculateDampen(i: int, count: int, range: DampenRange): (r: real)
    ensures i == 0 ==> r == range.front
    ensures count >= 2 && i == count - 1 ==> r == range.back
    ensures count <= 1 ==> r == range.front + (range.back - range.front) * i as real
  {
    var safeCountDivisor := MaxInt(1, count - 1);
    range.front + (range.back - range.front) * (i as real / safeCountDivisor as real)
  }

  /** The average change per ms of a full wave: a wave of period seconds
      sweeps four times its range, so r·period·1000 is 4·|range|. A zero
      period divides by zero and has no promise here. */
  function CalculateDelta(range: real, period: real): (r: real)
    ensures period != 0.0 ==> r * period * 1000.0 == 4.0 * Abs(range)
    ensures period > 0.0 ==> r >= 0.0
    ensures period < 0.0 ==> r <= 0.0
    ensures range == 0.0 && period != 0.0 ==> r == 0.0
  {
    Div(Div(4.0 * Abs(range), period), 1000.0)
  }

  function CreateSuppression(range: real, period: real): (s: Suppression)
    ensures s.dampen.None? && s.tuck.None?
    ensures s.delta == CalculateDelta(range, period)
  {
    Suppression(None, None, CalculateDelta(range, period))
  }

  /** With neither dampen nor tuck in effect and nothing suppressed before,
      the whole angle is the magnitude. */
  lemma SuppressNeutral(s: Suppression, angle: real, speed: real, interval: real)
    requires !Truthy(s.dampen) && !Truthy(s.tuck)
    requires interval * s.delta >= 0.0
    ensures Suppress(s, angle, 0.0, speed, interval) == Suppressed(angle, 0.0)
  {
  }

  /** Dampen is applied before tuck: dampen 1 and tuck -45 at speed 100 turn
      an angle of 90 into magnitude -45 and suppressed 135. */
  lemma DampenBeforeTuck()
    ensures Suppress(Suppression(Some(1.0), Some(-45.0), 1000.0), 90.0, 0.0, 100.0, 50.0)
         == Suppressed(-45.0, 135.0)
  {
  }

  /** The interpolation moves by the same step between consecutive indexes,
      e.g. 15 midway from 10 to 20. */
  lemma DampenLinear(i: int, count: int, range: DampenRange)
    requires count >= 2
    ensures CalculateDampen(i + 1, count, range) - CalculateDampen(i, count, range)
         == (range.back - range.front) / (count - 1) as real
    ensures CalculateDampen(1, 3, DampenRange(10.0, 20.0)) == 15.0
  {
    var d := (count - 1) as real;
    var k := range.back - range.front;
    calc {
      CalculateDampen(i + 1, count, range) - CalculateDampen(i, count, range);
      k * ((i + 1) as real / d) - k * (i as real / d);
      { assert (i + 1) as real / d - i as real / d == 1.0 / d; }
      k / d;
    }
  }

  lemma CalculateTuckExample()
    ensures CalculateTuck(0.0, 90.0, 0.5) == 45.0
  {
  }
}
