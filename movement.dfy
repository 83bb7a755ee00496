/** Turn compounding and the move closure
    (client/src/palamander/movement/movement.ts).

    The behaviour that picks the two sample specs and `calculateDelta`,
    which is trigonometry, are not modelled: the samples are inputs and the
    delta is a function parameter. */
module Movement {
  import opened Wrappers
  import opened Num
  import opened Coordinates
  import opened Velocity

  /** Multiplicative changes to the normal behaviour. */
  datatype MovementFactor = MovementFactor(linear: real, rotational: real, interval: real)

  /** Static values that short-circuit the computation. */
  datatype MovementOverride = MovementOverride(linear: VelocityOverride, rotational: VelocityOverride, angle: Option<real>)

  /** What one move returns. */
  datatype Movement = Movement(linear: VelocityIntegral, rotational: VelocityIntegral, delta: Coords)

  /** `compoundAngle`: the turn is damped by the speed, a percentage; the
      faster the creature goes the less it can turn. */
  function CompoundAngle(angle: real, turn: real, speed: real): (r: real)
    ensures speed == 0.0 ==> r == angle + turn
    ensures speed == 100.0 || turn == 0.0 ==> r == angle
  {
    angle + turn * (1.0 - speed / 100.0)
  }

  /** At one speed, two turns compound like their sum. */
  lemma CompoundAdditive(angle: real, t1: real, t2: real, speed: real)
    ensures CompoundAngle(CompoundAngle(angle, t1, speed), t2, speed) == CompoundAngle(angle, t1 + t2, speed)
  {
    var f := 1.0 - speed / 100.0;
    assert t1 * f + t2 * f == (t1 + t2) * f;
  }

  /** Between standing still and full speed the angle moves in the
      direction of the turn, and by no more than the turn. */
  lemma CompoundDamped(angle: real, turn: real, speed: real)
    requires 0.0 <= speed <= 100.0
    ensures turn >= 0.0 ==> angle <= CompoundAngle(angle, turn, speed) <= angle + turn
    ensures turn <= 0.0 ==> angle + turn <= CompoundAngle(angle, turn, speed) <= angle
  {
    var f := 1.0 - speed / 100.0;
    assert 0.0 <= f <= 1.0;
    if turn >= 0.0 {
      MulLeMono(0.0, f, turn);
      MulLeMono(f, 1.0, turn);
    } else {
      MulLeMono(0.0, f, -turn);
      MulLeMono(f, 1.0, -turn);
    }
    assert CompoundAngle(angle, turn, speed) == angle + f * turn;
  }

  /** What one move computes from the angle before it, given the samples
      the two velocity closures would use: the new angle and the movement. */
  datatype MoveStep = MoveStep(angle: real, movement: Movement)

  /** One call of the move closure. The interval is scaled first; the new
      angle is the override's or the old one compounded by the rotational
      distance at the linear velocity; the rotational distance returned is
      that new angle. */
  function Step(angle: real, linearLimit: VelocityLimit, rotationalLimit: VelocityLimit,
                interval: real, factor: MovementFactor, override: MovementOverride,
                linearSample: real, rotationalSample: real, delta: (real, real) -> Coords): (s: MoveStep)
    ensures var linear := Integrate(linearLimit, 0.0, interval * factor.interval, factor.linear, override.linear, linearSample);
      var turned := Integrate(rotationalLimit, 0.0, interval * factor.interval, factor.rotational, override.rotational, rotationalSample);
      // an angle override is the new angle, whatever the old one
      && (override.angle.Some? ==> s.angle == override.angle.value)
      // otherwise the old angle turns by the rotational distance, damped at the linear velocity
      && (override.angle.None? ==> s.angle == CompoundAngle(angle, turned.distance, linear.velocity))
      // the reported rotational distance is the new angle; the delta follows it
      && s.movement.linear == linear
      && s.movement.rotational == turned.(distance := s.angle)
      && s.movement.delta == delta(s.angle, linear.distance)
  {
    var scaled := interval * factor.interval;
    var linear := Integrate(linearLimit, 0.0, scaled, factor.linear, override.linear, linearSample);
    var rotational := Integrate(rotationalLimit, 0.0, scaled, factor.rotational, override.rotational, rotationalSample);
    var newAngle := if override.angle.Some? then override.angle.value else CompoundAngle(angle, rotational.distance, linear.velocity);
    MoveStep(newAngle, Movement(linear, rotational.(distance := newAngle), delta(newAngle, linear.distance)))
  }

  /** An angle override decides the new angle and the delta whatever the
      old angle was. */
  lemma OverrideAngleWins(a1: real, a2: real, linearLimit: VelocityLimit, rotationalLimit: VelocityLimit,
                          interval: real, factor: MovementFactor, override: MovementOverride,
                          ls: real, rs: real, delta: (real, real) -> Coords)
    requires override.angle.Some?
    ensures Step(a1, linearLimit, rotationalLimit, interval, factor, override, ls, rs, delta)
         == Step(a2, linearLimit, rotationalLimit, interval, factor, override, ls, rs, delta)
  {
  }

  /** Scaling the interval by the factor is the same as passing the scaled
      interval with a unit factor. */
  lemma IntervalScaled(angle: real, linearLimit: VelocityLimit, rotationalLimit: VelocityLimit,
                       interval: real, factor: MovementFactor, override: MovementOverride,
                       ls: real, rs: real, delta: (real, real) -> Coords)
    ensures Step(angle, linearLimit, rotationalLimit, interval, factor, override, ls, rs, delta)
         == Step(angle, linearLimit, rotationalLimit, interval * factor.interval, factor.(interval := 1.0), override, ls, rs, delta)
  {
    var unit := factor.(interval := 1.0);
    var scaled := interval * factor.interval;
    assert unit.linear == factor.linear && unit.rotational == factor.rotational;
    assert scaled * unit.interval == scaled;
    assert Integrate(linearLimit, 0.0, scaled * unit.interval, unit.linear, override.linear, ls)
        == Integrate(linearLimit, 0.0, scaled, factor.linear, override.linear, ls);
    assert Integrate(rotationalLimit, 0.0, scaled * unit.interval, unit.rotational, override.rotational, rs)
        == Integrate(rotationalLimit, 0.0, scaled, factor.rotational, override.rotational, rs);
    var s1 := Step(angle, linearLimit, rotationalLimit, interval, factor, override, ls, rs, delta);
    var s2 := Step(angle, linearLimit, rotationalLimit, scaled, unit, override, ls, rs, delta);
    assert s1.angle == s2.angle;
    assert s1.movement.linear == s2.movement.linear;
    assert s1.movement.rotational == s2.movement.rotational;
    assert s1.movement.delta == s2.movement.delta;
  }

  /** Two moves without an angle override at the same linear velocity
      compound from the angle the first one returned: the second angle is
      the first turned by both rotational distances. */
  lemma {:induction false} AnglePersists(angle: real, linearLimit: VelocityLimit, rotationalLimit: VelocityLimit,
                                         i1: real, i2: real, factor: MovementFactor, override: MovementOverride,
                                         ls: real, rs1: real, rs2: real, delta: (real, real) -> Coords)
    requires override.angle.None? && override.linear.velocity.Some?
    ensures var s1 := Step(angle, linearLimit, rotationalLimit, i1, factor, override, ls, rs1, delta);
      var s2 := Step(s1.angle, linearLimit, rotationalLimit, i2, factor, override, ls, rs2, delta);
      var t1 := Integrate(rotationalLimit, 0.0, i1 * factor.interval, factor.rotational, override.rotational, rs1).distance;
      var t2 := Integrate(rotationalLimit, 0.0, i2 * factor.interval, factor.rotational, override.rotational, rs2).distance;
      s2.angle == CompoundAngle(angle, t1 + t2, override.linear.velocity.value)
  {
    var v := override.linear.velocity.value;
    var t1 := Integrate(rotationalLimit, 0.0, i1 * factor.interval, factor.rotational, override.rotational, rs1).distance;
    var t2 := Integrate(rotationalLimit, 0.0, i2 * factor.interval, factor.rotational, override.rotational, rs2).distance;
    var s1 := Step(angle, linearLimit, rotationalLimit, i1, factor, override, ls, rs1, delta);
    StepTurns(angle, linearLimit, rotationalLimit, i1, factor, override, ls, rs1, delta);
    StepTurns(s1.angle, linearLimit, rotationalLimit, i2, factor, override, ls, rs2, delta);
    CompoundAdditive(angle, t1, t2, v);
  }

  /** Without an angle override and at an overridden linear velocity, a move
      turns the angle by its rotational distance at that velocity. */
  lemma StepTurns(angle: real, linearLimit: VelocityLimit, rotationalLimit: VelocityLimit,
                  interval: real, factor: MovementFactor, override: MovementOverride,
                  ls: real, rs: real, delta: (real, real) -> Coords)
    requires override.angle.None? && override.linear.velocity.Some?
    ensures Step(angle, linearLimit, rotationalLimit, interval, factor, override, ls, rs, delta).angle
         == CompoundAngle(angle, Integrate(rotationalLimit, 0.0, interval * factor.interval, factor.rotational,
                                           override.rotational, rs).distance, override.linear.velocity.value)
  {
  }

  /** The closure `generateMove` returns: the captured `angle` persists
      between calls, starting at 0. The two velocity closures keep no state
      that a call changes. */
  class Mover {
    var angle: real
    const linear: VelocitySampler
    const rotational: VelocitySampler
    const delta: (real, real) -> Coords

    predicate Valid()
      reads this, linear, rotational
    {
      linear.Valid() && rotational.Valid()
    }

    constructor (linearLimit: VelocityLimit, rotationalLimit: VelocityLimit, delta: (real, real) -> Coords)
      ensures angle == 0.0 && linear.limit == linearLimit && rotational.limit == rotationalLimit
      ensures this.delta == delta && Valid()
    {
      angle := 0.0;
      linear := new VelocitySampler(linearLimit);
      rotational := new VelocitySampler(rotationalLimit);
      this.delta := delta;
    }

    /** One call: the result and the new angle are what `Step` says. */
    method Move(interval: real, factor: MovementFactor, override: MovementOverride,
                linearSample: real, rotationalSample: real) returns (m: Movement)
      requires Valid()
      modifies this
      ensures Valid()
      ensures var s := Step(old(angle), linear.limit, rotational.limit, interval, factor, override,
                            linearSample, rotationalSample, delta);
        angle == s.angle && m == s.movement
    {
      ghost var s := Step(angle, linear.limit, rotational.limit, interval, factor, override,
                          linearSample, rotationalSample, delta);
      var scaled := interval * factor.interval;
      var lin, _ := linear.Sample(scaled, factor.linear, override.linear, linearSample);
      var rot, _ := rotational.Sample(scaled, factor.rotational, override.rotational, rotationalSample);
      if override.angle.Some? {
        angle := override.angle.value;
      } else {
        angle := CompoundAngle(angle, rot.distance, lin.velocity);
      }
      assert angle == s.angle && lin == s.movement.linear;
      rot := rot.(distance := angle);
      assert rot == s.movement.rotational;
      m := Movement(lin, rot, delta(angle, lin.distance));
    }
  }
}
