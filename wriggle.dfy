/** Wriggle components: conversion from specs, progress accumulation and
    compounding (client/src/palamander/morphology/animation/wriggle.ts). */
module Wriggles {
  import opened Wrappers
  import opened Num
  import opened Suppressions
  import opened WriggleSpecs

  /** offset, acceleration, suppression, progressPerElapsed and range are
      static; suppressed, progress and magnitude change on every sync. */
  datatype WriggleComponent = WriggleComponent(
    offset: real,
    acceleration: real,
    suppression: Suppression,
    progressPerElapsed: real,
    range: real,
    suppressed: real,
    progress: real,
    magnitude: real)

  type Wriggle = seq<WriggleComponent>

  const FULL_CYCLE: real := 2.0 * PI

  /** The sum of the magnitudes of the components (a left fold). */
  function Compound(w: Wriggle): (r: real)
    ensures w == [] ==> r == 0.0
    ensures |w| == 1 ==> r == w[0].magnitude
  {
    if w == [] then 0.0 else Compound(w[..|w| - 1]) + w[|w| - 1].magnitude
  }

  /** Compounding splits over concatenation, so it is the plain sum. */
  lemma {:induction false} CompoundAppend(a: Wriggle, b: Wriggle)
    ensures Compound(a + b) == Compound(a) + Compound(b)
    decreases |b|
  {
    if b == [] {
      assert a + b == a;
    } else {
      assert (a + b)[..|a + b| - 1] == a + b[..|b| - 1];
      CompoundAppend(a, b[..|b| - 1]);
    }
  }

  /** The static fields two components must share for one to be a sync of the other. */
  predicate SameStatics(c: WriggleComponent, d: WriggleComponent) {
    c.offset == d.offset && c.acceleration == d.acceleration && c.suppression == d.suppression
    && c.progressPerElapsed == d.progressPerElapsed && c.range == d.range
  }

  /** The component a spec starts as: phase offset from the segment index,
      defaults for missing fields, range multiplied by the index when
      synchronized, and all dynamic fields zero. */
  function ToWriggleComponent(spec: WriggleSpec): (c: WriggleComponent)
    ensures c.offset == -FULL_CYCLE * spec.i as real * spec.squiggleRate - spec.wave.offset.GetOr(0.0)
    ensures c.acceleration == spec.wave.acceleration.GetOr(0.5)
    ensures c.suppression == spec.wave.suppression.GetOr(Suppression(None, None, 0.0))
    ensures spec.wave.period != 0.0 ==> c.progressPerElapsed * spec.wave.period * 1000.0 == FULL_CYCLE
    ensures c.range == if spec.synchronize then spec.wave.range * spec.i as real else spec.wave.range
    ensures c.suppressed == 0.0 && c.progress == 0.0 && c.magnitude == 0.0
  {
    var squiggleIndexOffset := FULL_CYCLE * -(spec.i as real) * spec.squiggleRate;
    WriggleComponent(
      squiggleIndexOffset - spec.wave.offset.GetOr(0.0),
      spec.wave.acceleration.GetOr(0.5),
      spec.wave.suppression.GetOr(Suppression(None, None, 0.0)),
      Div(FULL_CYCLE, spec.wave.period * 1000.0),
      if spec.synchronize then spec.wave.range * spec.i as real else spec.wave.range,
      0.0, 0.0, 0.0)
  }

  /** One component per spec, in order. */
  function ToWriggle(specs: seq<WriggleSpec>): (w: Wriggle)
    ensures |w| == |specs|
    ensures forall k :: 0 <= k < |specs| ==> w[k] == ToWriggleComponent(specs[k])
  {
    seq(|specs|, k requires 0 <= k < |specs| => ToWriggleComponent(specs[k]))
  }

  /** A curl at index 0 starts with zero range: it does not move. */
  lemma CurlAtZeroIsStill(spec: WaveSpec)
    ensures ToWriggleComponent(CreateCurlSpec(spec, 0)).range == 0.0
  {
  }

  /** Advances the progress of a component by the elapsed interval, faster
      by the acceleration at speed, and splits the raw sine value (given by
      `sin`) into magnitude and suppressed through `Suppress`. */
  function SyncWriggleComponent(c: WriggleComponent, interval: real, speed: real, sin: real -> real): (r: WriggleComponent)
    ensures SameStatics(r, c)
    ensures r.progress == c.progress + interval * c.progressPerElapsed * (1.0 + c.acceleration * (speed / 100.0))
    ensures r.magnitude + r.suppressed == sin(c.offset + r.progress) * c.range
    ensures c.suppression.delta == 0.0 ==> r.suppressed == c.suppressed
  {
    var accelerationFactor := 1.0 + c.acceleration * (speed / 100.0);
    var progress := c.progress + interval * c.progressPerElapsed * accelerationFactor;
    var raw := sin(c.offset + progress) * c.range;
    var s := Suppress(c.suppression, raw, c.suppressed, speed, interval);
    c.(progress := progress, magnitude := s.magnitude, suppressed := s.suppressed)
  }

  /** Syncs every component, keeping length, order and static fields. */
  function SyncWriggle(w: Wriggle, interval: real, speed: real, sin: real -> real): (r: Wriggle)
    ensures |r| == |w|
    ensures forall k :: 0 <= k < |w| ==> SameStatics(r[k], w[k])
    ensures forall k :: 0 <= k < |w| ==> r[k] == SyncWriggleComponent(w[k], interval, speed, sin)
  {
    seq(|w|, k requires 0 <= k < |w| => SyncWriggleComponent(w[k], interval, speed, sin))
  }

  /** The progress advance of one sync. */
  function Advance(c: WriggleComponent, interval: real, speed: real, sin: real -> real): real {
    SyncWriggleComponent(c, interval, speed, sin).progress - c.progress
  }

  /** Acceleration 1 at speed 100 doubles the advance of acceleration 0;
      acceleration -1 at speed 100 stops it; at speed 0 acceleration has no
      effect. */
  lemma AccelerationEffect(c: WriggleComponent, interval: real, a: real, sin: real -> real)
    ensures Advance(c.(acceleration := 1.0), interval, 100.0, sin)
         == 2.0 * Advance(c.(acceleration := 0.0), interval, 100.0, sin)
    ensures Advance(c.(acceleration := -1.0), interval, 100.0, sin) == 0.0
    ensures Advance(c.(acceleration := a), interval, 0.0, sin) == interval * c.progressPerElapsed
  {
  }
}
