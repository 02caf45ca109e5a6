/**
 The rendering-mode switch. One mono source feeds four parallel paths (no
 spatialisation, the HRTF panner node, a first-order ambisonic scene and a
 third-order ambisonic scene), each through its own gain stage into the same
 output. Selecting a mode opens exactly one gain stage fully and closes the
 other three; there is no crossfade.
 */
module RenderingMode {

  datatype Mode = Direct | Panner | FirstOrder | ThirdOrder

  /** The four gain stages, named after the path each one passes. */
  datatype Gains = Gains(none: real, panner: real, foa: real, toa: real)

  /** The gain stage of one path. */
  function Gain(g: Gains, m: Mode): real
  {
    match m
    case Direct => g.none
    case Panner => g.panner
    case FirstOrder => g.foa
    case ThirdOrder => g.toa
  }

  /** The invariant of the switch: one path at full level, the rest silent. */
  ghost predicate ExactlyOneAudible(g: Gains)
  {
    exists m :: Gain(g, m) == 1.0 && forall m' :: m' != m ==> Gain(g, m') == 0.0
  }

  /** The selector's value as the page's drop-down delivers it. The three
      recognised strings pick their path; every other string, `"none"`
      included, falls back to the unspatialised path. */
  function ParseMode(value: string): (m: Mode)
    ensures m == ThirdOrder <==> value == "toa"
    ensures m == FirstOrder <==> value == "foa"
    ensures m == Panner <==> value == "panner-node"
    ensures m == Direct <==> value !in {"toa", "foa", "panner-node"}
  {
    if value == "toa" then ThirdOrder
    else if value == "foa" then FirstOrder
    else if value == "panner-node" then Panner
    else Direct
  }

  /** The levels one selection writes: the chosen path at 1, the others at 0. */
  function GainsFor(m: Mode): (g: Gains)
    ensures Gain(g, m) == 1.0
    ensures forall m' :: m' != m ==> Gain(g, m') == 0.0
    ensures ExactlyOneAudible(g)
  {
    match m
    case Direct => Gains(1.0, 0.0, 0.0, 0.0)
    case Panner => Gains(0.0, 1.0, 0.0, 0.0)
    case FirstOrder => Gains(0.0, 0.0, 1.0, 0.0)
    case ThirdOrder => Gains(0.0, 0.0, 0.0, 1.0)
  }

  /** Which path is heard, read back from levels that satisfy the invariant. */
  function Audible(g: Gains): (m: Mode)
    requires ExactlyOneAudible(g)
    ensures Gain(g, m) == 1.0
    ensures forall m' :: m' != m ==> Gain(g, m') == 0.0
  {
    if g.toa == 1.0 then ThirdOrder
    else if g.foa == 1.0 then FirstOrder
    else if g.panner == 1.0 then Panner
    else Direct
  }

  /** Modes and valid gain settings are in one-to-one correspondence: the
      switch can express every setting the invariant allows, and reading the
      audible path back gives the mode that was selected. */
  lemma GainsRoundTrip(m: Mode, g: Gains)
    ensures Audible(GainsFor(m)) == m
    ensures ExactlyOneAudible(g) ==> GainsFor(Audible(g)) == g
  {
    if ExactlyOneAudible(g) {
      var a := Audible(g);
      assert Gain(g, Direct) == Gain(GainsFor(a), Direct);
      assert Gain(g, Panner) == Gain(GainsFor(a), Panner);
      assert Gain(g, FirstOrder) == Gain(GainsFor(a), FirstOrder);
      assert Gain(g, ThirdOrder) == Gain(GainsFor(a), ThirdOrder);
    }
  }
}
