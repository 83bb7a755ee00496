/** Plane coordinates and their componentwise arithmetic
    (client/src/palamander/common/coords.ts). */
module Coordinates {
  import Num

  datatype Coords = Coords(x: real, y: real)

  /** The origin is the neutral element of `Shift`. */
  function CreateOrigin(): (o: Coords)
    ensures forall c: Coords {:trigger Shift(c, o)} :: Shift(c, o) == c
  {
    Coords(0.0, 0.0)
  }

  function Shift(c: Coords, delta: Coords): Coords {
    Coords(c.x + delta.x, c.y + delta.y)
  }

  /** Shifting by the delta stretched by -1 undoes a shift by the delta. */
  function ShiftNegative(c: Coords, delta: Coords): (r: Coords)
    ensures Shift(r, delta) == c
  {
    Shift(c, Stretch(delta, -1.0))
  }

  function Stretch(c: Coords, factor: real): (r: Coords)
    ensures factor == 1.0 ==> r == c
    ensures factor == -1.0 ==> Shift(r, c) == CreateOrigin()
    ensures factor == 0.0 ==> r == CreateOrigin()
  {
    Coords(c.x * factor, c.y * factor)
  }

  /** Scales each axis by its own factor; equal factors give `Stretch`. */
  function StretchByElement(c: Coords, factor: Coords): (r: Coords)
    ensures factor.x == factor.y ==> r == Stretch(c, factor.x)
  {
    Coords(c.x * factor.x, c.y * factor.y)
  }

  /** Math.round(v * 1000) / 1000 on one axis: a whole number of
      thousandths, within half a thousandth of v (halves rounded up). Only
      one multiple of 0.001 lies in that window, so this fixes the result. */
  function RoundAxis(v: real): (r: real)
    ensures (r * 1000.0).Floor as real == r * 1000.0
    ensures v - 0.0005 < r <= v + 0.0005
  {
    var n := Num.MathRound(v * 1000.0);
    assert (n as real / 1000.0) * 1000.0 == n as real;
    n as real / 1000.0
  }

  /** Rounds both axes to three decimal places: each becomes a whole number
      of thousandths and moves by at most half a thousandth. */
  function Round(c: Coords): (r: Coords)
    ensures (r.x * 1000.0).Floor as real == r.x * 1000.0
    ensures (r.y * 1000.0).Floor as real == r.y * 1000.0
    ensures c.x - 0.0005 < r.x <= c.x + 0.0005
    ensures c.y - 0.0005 < r.y <= c.y + 0.0005
  {
    Coords(RoundAxis(c.x), RoundAxis(c.y))
  }

  /** Any whole number of thousandths within half a thousandth of v, in
      the same half-open window, is `RoundAxis(v)`: the contract pins the
      rounded value down. */
  lemma RoundAxisUnique(v: real, s: real)
    requires (s * 1000.0).Floor as real == s * 1000.0
    requires v - 0.0005 < s <= v + 0.0005
    ensures s == RoundAxis(v)
  {
    var r := RoundAxis(v);
    var m := (s * 1000.0).Floor;
    var n := (r * 1000.0).Floor;
    assert v * 1000.0 - 0.5 < m as real <= v * 1000.0 + 0.5;
    assert v * 1000.0 - 0.5 < n as real <= v * 1000.0 + 0.5;
    assert m == n;
  }

  lemma ShiftNegativeOfShift(c: Coords, d: Coords)
    ensures ShiftNegative(Shift(c, d), d) == c
  {
  }

  lemma ShiftNegativeSelf(c: Coords)
    ensures ShiftNegative(c, c) == CreateOrigin()
  {
  }

  /** (10, 10) minus (-5, -5) is (15, 15); 3.3333 rounds to 3.333 and 5.5555 to 5.556. */
  lemma CoordsExamples()
    ensures ShiftNegative(Coords(10.0, 10.0), Coords(-5.0, -5.0)) == Coords(15.0, 15.0)
    ensures Round(Coords(3.3333, 5.5555)) == Coords(3.333, 5.556)
  {
    assert Num.MathRound(3333.3) == 3333;
    assert Num.MathRound(5555.5) == 5556;
  }
}
