/** Velocity sampling with an acceleration clamp
    (client/src/palamander/movement/velocity.ts).

    The timed sampler the closure calls comes from a module that is not
    part of this model: the value it would return is an input. */
module Velocity {
  import opened Wrappers
  import opened Num

  /** The top speed, and how far one call may raise or lower the velocity. */
  datatype VelocityLimit = VelocityLimit(velocity: real, accel: real, decel: real)

  /** What one call returns: the distance covered and the velocity used. */
  datatype VelocityIntegral = VelocityIntegral(distance: real, velocity: real)

  /** Either part, when present, short-circuits its computation. */
  datatype VelocityOverride = VelocityOverride(distance: Option<real>, velocity: Option<real>)

  /** The override that changes nothing. */
  function NoOverride(): VelocityOverride {
    VelocityOverride(None, None)
  }

  /** `clipVelocity`: a drop of more than `decel` below `prev` is cut to
      `prev - decel`; otherwise a rise of more than `accel` is cut to
      `prev + accel`; otherwise `curr` is kept. */
  function ClipVelocity(curr: real, prev: real, limit: VelocityLimit): (r: real)
    ensures r == curr || r == prev - limit.decel || r == prev + limit.accel
    ensures prev - limit.decel <= curr <= prev + limit.accel ==> r == curr
    ensures prev - curr > limit.decel ==> r == prev - limit.decel
    ensures prev - curr <= limit.decel && curr - prev > limit.accel ==> r == prev + limit.accel
    ensures limit.accel >= 0.0 && limit.decel >= 0.0 ==> prev - limit.decel <= r <= prev + limit.accel
  {
    if prev - curr > limit.decel then prev - limit.decel
    else if curr - prev > limit.accel then prev + limit.accel
    else curr
  }

  /** With non-negative limits, clipping twice against the same previous
      velocity is clipping once. */
  lemma ClipIdempotent(curr: real, prev: real, limit: VelocityLimit)
    requires limit.accel >= 0.0 && limit.decel >= 0.0
    ensures ClipVelocity(ClipVelocity(curr, prev, limit), prev, limit) == ClipVelocity(curr, prev, limit)
  {
  }

  /** With non-negative limits, clipping keeps the order of two velocities. */
  lemma ClipMonotone(c1: real, c2: real, prev: real, limit: VelocityLimit)
    requires limit.accel >= 0.0 && limit.decel >= 0.0 && c1 <= c2
    ensures ClipVelocity(c1, prev, limit) <= ClipVelocity(c2, prev, limit)
  {
  }

  /** The distance covered in `interval` milliseconds: `velocity` is a
      percentage of the top speed, which is per second, and `factor`
      scales the result. */
  function Distance(interval: real, velocity: real, limit: VelocityLimit, factor: real): real {
    (interval / 1000.0) * (velocity / 100.0) * limit.velocity * factor
  }

  /** The distance is zero when the interval or the velocity is, and
      scales with the interval: twice the time covers twice the ground. */
  lemma DistanceScales(interval: real, velocity: real, limit: VelocityLimit, factor: real, k: real)
    ensures interval == 0.0 || velocity == 0.0 ==> Distance(interval, velocity, limit, factor) == 0.0
    ensures Distance(k * interval, velocity, limit, factor) == k * Distance(interval, velocity, limit, factor)
  {
    var c := (velocity / 100.0) * limit.velocity * factor;
    assert Distance(interval, velocity, limit, factor) == (interval / 1000.0) * c;
    assert Distance(k * interval, velocity, limit, factor) == (k * interval / 1000.0) * c;
    assert (k * interval / 1000.0) * c == k * ((interval / 1000.0) * c);
  }

  /** With a positive interval, top speed and factor, the distance has the
      sign of the velocity. */
  lemma DistanceSign(interval: real, velocity: real, limit: VelocityLimit, factor: real)
    requires interval > 0.0 && limit.velocity > 0.0 && factor > 0.0
    ensures velocity > 0.0 ==> Distance(interval, velocity, limit, factor) > 0.0
    ensures velocity < 0.0 ==> Distance(interval, velocity, limit, factor) < 0.0
  {
    var p := (interval / 1000.0) * limit.velocity * factor;
    assert p > 0.0;
    assert Distance(interval, velocity, limit, factor) == (velocity / 100.0) * p;
    if velocity > 0.0 {
      MulLtMono(0.0, velocity / 100.0, p);
    } else if velocity < 0.0 {
      MulLtMono(velocity / 100.0, 0.0, p);
    }
  }

  /** One call of the closure, given the value the timed sampler would
      return: the velocity is the override's or the sample clipped against
      `prev`, and the distance is the override's or the one that velocity
      covers. */
  function Integrate(limit: VelocityLimit, prev: real, interval: real, factor: real,
                     override: VelocityOverride, sampled: real): (r: VelocityIntegral)
    ensures r.velocity == override.velocity.GetOr(ClipVelocity(sampled, prev, limit))
    ensures r.distance == override.distance.GetOr(Distance(interval, r.velocity, limit, factor))
  {
    var velocity := if override.velocity.Some? then override.velocity.value else ClipVelocity(sampled, prev, limit);
    var distance := if override.distance.Some? then override.distance.value else Distance(interval, velocity, limit, factor);
    VelocityIntegral(distance, velocity)
  }

  /** An overridden velocity makes the sample irrelevant: any two samples
      give the same result. */
  lemma OverrideIgnoresSample(limit: VelocityLimit, prev: real, interval: real, factor: real,
                              override: VelocityOverride, s1: real, s2: real)
    requires override.velocity.Some?
    ensures Integrate(limit, prev, interval, factor, override, s1)
         == Integrate(limit, prev, interval, factor, override, s2)
  {
  }

  /** Since the previous velocity stays 0, each call without an override
      returns a velocity in [-decel, accel], whatever the earlier calls
      returned, and the clamp does not depend on the interval. */
  lemma ClampedAroundRest(limit: VelocityLimit, i1: real, i2: real, factor: real, sampled: real)
    requires limit.accel >= 0.0 && limit.decel >= 0.0
    ensures var r := Integrate(limit, 0.0, i1, factor, NoOverride(), sampled);
      && -limit.decel <= r.velocity <= limit.accel
      && r.velocity == Integrate(limit, 0.0, i2, factor, NoOverride(), sampled).velocity
  {
  }

  /** The closure `generateSampleVelocity` returns. `limit` is copied once;
      `prevVelocity` is captured but never reassigned, so no method here
      modifies it. */
  class VelocitySampler {
    const limit: VelocityLimit
    var prevVelocity: real

    /** The state every call sees: the previous velocity is still 0. */
    predicate Valid()
      reads this
    {
      prevVelocity == 0.0
    }

    constructor (limit: VelocityLimit)
      ensures this.limit == limit && Valid()
    {
      this.limit := limit;
      prevVelocity := 0.0;
    }

    /** One call; `sampled` is what the timed sampler returns, and `drew`
        says whether the sampler is called at all (only when no velocity
        override is given). The call changes no state. */
    method Sample(interval: real, factor: real, override: VelocityOverride, sampled: real)
      returns (r: VelocityIntegral, drew: bool)
      requires Valid()
      ensures drew <==> override.velocity.None?
      ensures r == Integrate(limit, 0.0, interval, factor, override, sampled)
    {
      drew := override.velocity.None?;
      var velocity: real;
      if override.velocity.Some? {
        velocity := override.velocity.value;
      } else {
        velocity := ClipVelocity(sampled, prevVelocity, limit);
      }
      var distance: real;
      if override.distance.Some? {
        distance := override.distance.value;
      } else {
        distance := (interval / 1000.0) * (velocity / 100.0) * limit.velocity * factor;
      }
      r := VelocityIntegral(distance, velocity);
    }
  }
}
