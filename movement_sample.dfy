/** Random movement samples and the sample-and-hold closure
    (client/src/palamander/movement/movement-sample.ts).

    Every `Math.random()` the source calls is an input here: a list of
    draws, or a single roll, each meant to lie in [0, 1). */
module MovementSample {
  import opened Wrappers
  import opened Num

  /** `skewMin` is the number of extra draws whose minimum is taken. */
  datatype SampleRange = SampleRange(min: real, max: real, skewMin: Option<int>)

  /** `zero` is the odds the sample is set straight to zero; `mirror` makes
      negative samples as likely as positive ones. */
  datatype SampleSpec = SampleSpec(range: SampleRange, zero: real, mirror: bool)

  /** The smallest of the draws (`Math.min`). */
  function Smallest(draws: seq<real>): (m: real)
    requires draws != []
    ensures m in draws && forall i :: 0 <= i < |draws| ==> m <= draws[i]
  {
    if |draws| == 1 then draws[0]
    else
      assert forall i :: 1 <= i < |draws| ==> draws[i] == draws[1..][i - 1];
      Min(draws[0], Smallest(draws[1..]))
  }

  /** The number of extra draws; `Array(skew)` throws for a negative one. */
  function Skew(range: SampleRange): int {
    range.skewMin.GetOr(0)
  }

  /** The point a draw `d` picks: `max` scaled by the draw, above `min`. */
  function Scale(range: SampleRange, d: real): real {
    range.min + range.max * d
  }

  /** With a positive `max`, a larger draw picks a larger point. */
  lemma ScaleMono(range: SampleRange, d: real, e: real)
    requires range.max > 0.0 && d <= e
    ensures Scale(range, d) <= Scale(range, e)
    ensures d < e ==> Scale(range, d) < Scale(range, e)
  {
    MulLeMono(d, e, range.max);
    if d < e {
      MulLtMono(d, e, range.max);
    }
  }

  /** `sampleSkewedMin`: the minimum of skew + 1 draws scales `max` above
      `min`; a negative skew throws RangeError before anything is drawn. */
  function SampleSkewedMin(range: SampleRange, draws: seq<real>): (r: Result<real>)
    requires Skew(range) < 0 || |draws| == Skew(range) + 1
    ensures r.Err? <==> Skew(range) < 0
    ensures r.Err? ==> r.error == "RangeError"
    ensures r.Ok? ==> exists i :: 0 <= i < |draws| && r.value == Scale(range, draws[i])
  {
    if Skew(range) < 0 then Err("RangeError")
    else Ok(Scale(range, Smallest(draws)))
  }

  /** With draws in [0, 1) and a positive `max`, a skewed sample lies in
      [min, min + max) and is the lowest point any of the draws picks:
      `max` is a width above `min`, not an upper bound. */
  lemma SkewedMinBounds(range: SampleRange, draws: seq<real>)
    requires Skew(range) >= 0 && |draws| == Skew(range) + 1 && range.max > 0.0
    requires forall i :: 0 <= i < |draws| ==> 0.0 <= draws[i] < 1.0
    ensures var r := SampleSkewedMin(range, draws);
      && r.Ok? && range.min <= r.value < range.min + range.max
      && forall i :: 0 <= i < |draws| ==> r.value <= Scale(range, draws[i])
  {
    var m := Smallest(draws);
    assert SampleSkewedMin(range, draws) == Ok(Scale(range, m));
    forall i | 0 <= i < |draws| ensures Scale(range, m) <= Scale(range, draws[i]) {
      ScaleMono(range, m, draws[i]);
    }
    assert 0.0 <= m < 1.0;
    ScaleMono(range, 0.0, m);
    ScaleMono(range, m, 1.0);
  }

  /** `generateSampler`'s closure. The zero roll comes first; only when it
      is not below `zero` is the skewed sample drawn; a mirrored spec then
      rolls the direction. */
  function Sample(spec: SampleSpec, zeroRoll: real, draws: seq<real>, directionRoll: real): (r: Result<real>)
    requires Skew(spec.range) < 0 || |draws| == Skew(spec.range) + 1
    ensures zeroRoll < spec.zero ==> r == Ok(0.0)
    ensures r.Err? <==> zeroRoll >= spec.zero && Skew(spec.range) < 0
    ensures !spec.mirror && zeroRoll >= spec.zero ==> r == SampleSkewedMin(spec.range, draws)
  {
    var magnitude := if zeroRoll < spec.zero then Ok(0.0) else SampleSkewedMin(spec.range, draws);
    if magnitude.Err? || !spec.mirror then magnitude
    else Ok(magnitude.value * (if directionRoll < 0.5 then -1.0 else 1.0))
  }

  /** Mirroring only flips the sign: it does not change the magnitude, and
      flips exactly when the direction roll is below one half. */
  lemma MirrorFlipsSign(spec: SampleSpec, zeroRoll: real, draws: seq<real>, directionRoll: real)
    requires Skew(spec.range) < 0 || |draws| == Skew(spec.range) + 1
    ensures var plain := Sample(spec.(mirror := false), zeroRoll, draws, directionRoll);
      var mirrored := Sample(spec.(mirror := true), zeroRoll, draws, directionRoll);
      && plain.Ok? == mirrored.Ok?
      && (plain.Ok? && directionRoll < 0.5 ==> mirrored.value == -plain.value)
      && (plain.Ok? && directionRoll >= 0.5 ==> mirrored.value == plain.value)
  {
  }

  // ---------------------------------------------------------- sample and hold

  /** The captured state of a `generateGetSample` closure. */
  datatype Hold = Hold(countdown: real, sampledVal: real)

  /** What one call does: the new state, the value returned, and whether it
      called the two samplers. */
  datatype HoldStep = HoldStep(hold: Hold, out: real, drew: bool)

  /** One call with elapsed `interval`; `value` and `nextInterval` are what
      the two samplers would return if called. While the interval fits in
      the countdown the held value is returned; otherwise a new value is
      drawn and the call returns the average of the old and the new value,
      weighted by the part of the interval each covered. A zero interval
      here (only after a negative countdown) divides by zero. */
  function GetSample(h: Hold, interval: real, value: real, nextInterval: real): (s: HoldStep)
    ensures s.drew <==> interval > h.countdown
    ensures !s.drew ==> s.out == h.sampledVal && s.hold == Hold(h.countdown - interval, h.sampledVal)
    ensures s.drew ==> s.hold.sampledVal == value && s.hold.countdown + h.countdown == nextInterval
  {
    if interval <= h.countdown then HoldStep(Hold(h.countdown - interval, h.sampledVal), h.sampledVal, false)
    else
      var componentPrev := Div(h.sampledVal * h.countdown, interval);
      var component := Div(value * (interval - h.countdown), interval);
      HoldStep(Hold(nextInterval - h.countdown, value), component + componentPrev, true)
  }

  /** A drawing call returns a weighted average whose weights, the shares of
      the interval after and before the old countdown ran out, sum to 1. */
  lemma GetSampleWeights(h: Hold, interval: real, value: real, nextInterval: real)
    requires interval > h.countdown && interval != 0.0
    ensures var w := (interval - h.countdown) / interval;
      && GetSample(h, interval, value, nextInterval).out == value * w + h.sampledVal * (1.0 - w)
      && w + h.countdown / interval == 1.0
  {
    var w := (interval - h.countdown) / interval;
    assert w == interval / interval - h.countdown / interval;
    assert interval / interval == 1.0;
  }

  /** With a countdown in [0, interval) the returned value lies between the
      old and the new value. */
  lemma GetSampleBetween(h: Hold, interval: real, value: real, nextInterval: real)
    requires 0.0 <= h.countdown < interval
    ensures var out := GetSample(h, interval, value, nextInterval).out;
      Min(value, h.sampledVal) <= out <= Max(value, h.sampledVal)
  {
    GetSampleWeights(h, interval, value, nextInterval);
    var share := h.countdown / interval;
    if share < 0.0 {
      BelowQuotient(h.countdown, interval, 0.0);
    }
    if share >= 1.0 {
      AtMostQuotient(h.countdown, interval, 1.0);
    }
    WeightedBetween(value, h.sampledVal, 1.0 - share);
  }

  /** A weighted average with weights in [0, 1] lies between its two
      values: its distance from each end is the gap times a weight. */
  lemma WeightedBetween(x: real, y: real, w: real)
    requires 0.0 <= w <= 1.0
    ensures Min(x, y) <= x * w + y * (1.0 - w) <= Max(x, y)
  {
    if x <= y {
      MulNonNeg(y - x, 1.0 - w);
      MulNonNeg(y - x, w);
      assert x * w + y * (1.0 - w) - x == (y - x) * (1.0 - w);
      assert y - (x * w + y * (1.0 - w)) == (y - x) * w;
      assert Min(x, y) == x && Max(x, y) == y;
    } else {
      MulNonNeg(x - y, w);
      MulNonNeg(x - y, 1.0 - w);
      assert x * w + y * (1.0 - w) - y == (x - y) * w;
      assert x - (x * w + y * (1.0 - w)) == (x - y) * (1.0 - w);
      assert Min(x, y) == y && Max(x, y) == x;
    }
  }

  /** The first call, with the countdown still 0, returns the drawn value
      itself. */
  lemma FirstSampleIsDrawn(interval: real, value: real, nextInterval: real)
    requires interval > 0.0
    ensures var s := GetSample(Hold(0.0, 0.0), interval, value, nextInterval);
      s.drew && s.out == value && s.hold == Hold(nextInterval, value)
  {
  }

  /** Two calls whose intervals together fit in the countdown both return
      the held value and use up the countdown by their sum. */
  lemma HeldAcrossCalls(h: Hold, a: real, b: real, v1: real, n1: real, v2: real, n2: real)
    requires a >= 0.0 && b >= 0.0 && a + b <= h.countdown
    ensures var s1 := GetSample(h, a, v1, n1); var s2 := GetSample(s1.hold, b, v2, n2);
      && !s1.drew && !s2.drew && s1.out == h.sampledVal && s2.out == h.sampledVal
      && s2.hold == Hold(h.countdown - (a + b), h.sampledVal)
  {
  }

  /** The closure `generateGetSample` returns: its captured `countdown` and
      `sampledVal` are fields the call updates in place. */
  class SampleHold {
    var countdown: real
    var sampledVal: real

    /** Both captured variables start at 0. */
    constructor ()
      ensures countdown == 0.0 && sampledVal == 0.0
    {
      countdown := 0.0;
      sampledVal := 0.0;
    }

    /** One call: the state moves as `GetSample` says. */
    method Call(interval: real, value: real, nextInterval: real) returns (out: real, drew: bool)
      modifies this
      ensures HoldStep(Hold(countdown, sampledVal), out, drew)
           == GetSample(old(Hold(countdown, sampledVal)), interval, value, nextInterval)
    {
      if interval <= countdown {
        countdown := countdown - interval;
        return sampledVal, false;
      }
      var componentPrev := Div(sampledVal * countdown, interval);
      sampledVal := value;
      var component := Div(sampledVal * (interval - countdown), interval);
      countdown := nextInterval - countdown;
      return component + componentPrev, true;
    }
  }
}
