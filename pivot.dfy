/** The half-mass pivot of a body
    (client/src/palamander/palamander.ts, `calculatePivotIndex`).

    A segment's mass is its radius to the power 1.5; fractional powers are
    not modelled, so the mass function is a parameter. */
module Pivot {
  import opened Num
  import opened Segments

  /** The mass of each body segment, in order (`body.map`). */
  function Masses(body: seq<Segment>, massOf: real -> real): (m: seq<real>)
    ensures |m| == |body|
  {
    seq(|body|, k requires 0 <= k < |body| => massOf(body[k].circle.radius))
  }

  /** The sum of `m[i..k]`, added from the left as `reduce` does. */
  function SumRange(m: seq<real>, i: nat, k: nat): real
    requires i <= k <= |m|
    decreases k
  {
    if k == i then 0.0 else SumRange(m, i, k - 1) + m[k - 1]
  }

  /** A range sum is its first element plus the sum of the rest. */
  lemma {:induction false} SumFront(m: seq<real>, i: nat, k: nat)
    requires i < k <= |m|
    ensures SumRange(m, i, k) == m[i] + SumRange(m, i + 1, k)
    decreases k
  {
    if k > i + 1 {
      SumFront(m, i, k - 1);
    }
  }

  /** With positive masses every range sum is positive, and grows by the
      next mass. */
  lemma {:induction false} SumPositive(m: seq<real>, i: nat, k: nat)
    requires i < k <= |m|
    requires forall j :: 0 <= j < |m| ==> m[j] > 0.0
    ensures SumRange(m, i, k) > 0.0
    decreases k
  {
    if k > i + 1 {
      SumPositive(m, i, k - 1);
    }
  }

  /** The search loop from segment `i` with `left` mass still to pass: the
      first segment heavier than what is left holds the pivot, at the share
      of its mass that is left; past the end the result is 0. */
  function PivotFrom(m: seq<real>, left: real, i: nat): real
    requires i <= |m|
    decreases |m| - i
  {
    if i == |m| then 0.0
    else if left < m[i] then i as real + Div(left, m[i])
    else PivotFrom(m, left - m[i], i + 1)
  }

  /** The pivot of a body with masses `m`: the search starts with half the
      total mass. */
  function PivotIndex(m: seq<real>): real {
    PivotFrom(m, SumRange(m, 0, |m|) * 0.5, 0)
  }

  /** An empty body pivots at 0. */
  lemma PivotEmpty()
    ensures PivotIndex([]) == 0.0
  {
  }

  /** The running mass from segment `i` passes `left` inside segment `k`. */
  predicate Straddles(m: seq<real>, i: nat, k: nat, left: real)
    requires i <= k < |m|
  {
    SumRange(m, i, k) <= left < SumRange(m, i, k + 1)
  }

  /** The point `left` mass past segment `i` falls at, inside segment `k`. */
  function Within(m: seq<real>, i: nat, k: nat, left: real): real
    requires i <= k < |m|
  {
    k as real + Div(left - SumRange(m, i, k), m[k])
  }

  /** From segment `i`, with a non-negative `left` below the mass of the
      rest, the search stops at the segment `k` whose mass straddles
      `left`, at the fraction of that segment still left. */
  lemma {:induction false} PivotFromStraddles(m: seq<real>, left: real, i: nat)
    requires i < |m| && forall j :: 0 <= j < |m| ==> m[j] > 0.0
    requires 0.0 <= left < SumRange(m, i, |m|)
    ensures exists k: nat :: (i <= k < |m| && Straddles(m, i, k, left)
      && PivotFrom(m, left, i) == Within(m, i, k, left))
    decreases |m| - i
  {
    if left < m[i] {
      assert SumRange(m, i, i + 1) == m[i];
      assert Straddles(m, i, i, left);
    } else {
      SumFront(m, i, |m|);
      PivotFromStraddles(m, left - m[i], i + 1);
      var k: nat :| i + 1 <= k < |m| && Straddles(m, i + 1, k, left - m[i])
        && PivotFrom(m, left - m[i], i + 1) == Within(m, i + 1, k, left - m[i]);
      SumFront(m, i, k);
      SumFront(m, i, k + 1);
      assert left - SumRange(m, i, k) == left - m[i] - SumRange(m, i + 1, k);
      assert Straddles(m, i, k, left);
    }
  }

  /** With positive masses the pivot lies on the body: its whole part is
      the segment where the running mass first passes half the total, its
      fractional part how far into that segment the half falls. So the
      final `return 0` is reached only for an empty body. */
  lemma PivotHalfMass(m: seq<real>)
    requires m != [] && forall j :: 0 <= j < |m| ==> m[j] > 0.0
    ensures 0.0 <= PivotIndex(m) < |m| as real
    ensures var k := PivotIndex(m).Floor;
      0 <= k < |m| && Straddles(m, 0, k, SumRange(m, 0, |m|) * 0.5)
  {
    var half := SumRange(m, 0, |m|) * 0.5;
    SumPositive(m, 0, |m|);
    PivotFromStraddles(m, half, 0);
    var k: nat :| k < |m| && Straddles(m, 0, k, half)
      && PivotIndex(m) == Within(m, 0, k, half);
    assert SumRange(m, 0, k + 1) == SumRange(m, 0, k) + m[k];
    ShareBounds(half - SumRange(m, 0, k), m[k]);
    assert PivotIndex(m).Floor == k;
  }

  /** A part below the whole is a share in [0, 1). */
  lemma ShareBounds(x: real, y: real)
    requires 0.0 <= x < y
    ensures 0.0 <= Div(x, y) < 1.0
  {
    MulLtMono(x / y, 1.0, y);
  }

  /** `calculatePivotIndex`: one loop adds up the masses, a second walks
      the body taking each mass off half the total until a segment
      outweighs what is left. */
  method CalculatePivotIndex(body: seq<Segment>, massOf: real -> real) returns (p: real)
    ensures p == PivotIndex(Masses(body, massOf))
  {
    var masses := Masses(body, massOf);
    var mass := 0.0;
    var j := 0;
    while j < |masses|
      invariant 0 <= j <= |masses|
      invariant mass == SumRange(masses, 0, j)
    {
      mass := mass + masses[j];
      j := j + 1;
    }
    var massLeft := mass * 0.5;
    var i := 0;
    while i < |body|
      invariant 0 <= i <= |body|
      invariant PivotFrom(masses, massLeft, i) == PivotIndex(masses)
    {
      if massLeft < masses[i] {
        return i as real + Div(massLeft, masses[i]);
      }
      massLeft := massLeft - masses[i];
      i := i + 1;
    }
    return 0.0;
  }
}
