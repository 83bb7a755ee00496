/** Wave descriptors and the three wriggle-spec constructors
    (client/src/palamander/morphology/animation/wriggle-spec.ts). */
module WriggleSpecs {
  import opened Wrappers
  import opened Num
  import opened Suppressions

  /** The fields common to every wriggle: peak range in degrees, period in
      seconds, and optional acceleration, offset and suppression. */
  datatype WaveSpec = WaveSpec(
    range: real,
    period: real,
    acceleration: Option<real>,
    offset: Option<real>,
    suppression: Option<Suppression>)

  /** A WaveSpec spread together with the segment index, the fraction of a
      full wriggle each segment takes up and whether the wave is synchronized. */
  datatype WriggleSpec = WriggleSpec(wave: WaveSpec, i: int, squiggleRate: real, synchronize: bool)

  /** A synchronized wave never shifts its phase along the section. */
  predicate Coherent(w: WriggleSpec) { w.synchronize ==> w.squiggleRate == 0.0 }

  /** All segments curl together: synchronized, no phase step. */
  function CreateCurlSpec(spec: WaveSpec, i: int): (w: WriggleSpec)
    ensures w.wave == spec && w.i == i
    ensures w.synchronize && w.squiggleRate == 0.0 && Coherent(w)
  {
    WriggleSpec(spec, i, 0.0, true)
  }

  /** A travelling squiggle whose phase advances by 1/length of a cycle per
      segment, so that `length` segments hold one full wave. */
  function CreateSquiggleSpec(spec: WaveSpec, i: int, length: real): (w: WriggleSpec)
    ensures w.wave == spec && w.i == i
    ensures !w.synchronize && Coherent(w)
    ensures length != 0.0 ==> w.squiggleRate * length == 1.0
  {
    WriggleSpec(spec, i, Div(1.0, length), false)
  }

  /** The whole section rotates as one line: index and phase step are zero. */
  function CreateRotationSpec(spec: WaveSpec): (w: WriggleSpec)
    ensures w.wave == spec
    ensures w.i == 0 && w.squiggleRate == 0.0 && !w.synchronize && Coherent(w)
  {
    WriggleSpec(spec, 0, 0.0, false)
  }
}
