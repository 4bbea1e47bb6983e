/** The floating-point library functions the spectral processors call (`std::sqrt`,
    `std::atan2`, `std::cos`, `std::sin`, `std::log10`, `std::exp`, `juce::Decibels`), taken as
    uninterpreted functions over the reals together with the few laws the proofs rely on. */
module RealMath {

  /** `juce::Decibels`' default minus-infinity level: `gainToDecibels` never goes below it and
      `decibelsToGain` maps it, and everything below it, to 0. */
  const MinusInfinityDb: real := -100.0

  datatype Math = Math(
    sqrt: real -> real,
    atan2: (real, real) -> real,
    cos: real -> real,
    sin: real -> real,
    pi: real,
    log10: real -> real,
    exp: real -> real,
    gainToDecibels: real -> real,
    decibelsToGain: real -> real)

  function Abs(x: real): (r: real)
    ensures 0.0 <= r && (r == x || r == -x)
  {
    if x < 0.0 then -x else x
  }

  /** The polar form of a cartesian pair, turned back into cartesian form, is that pair (exact
      arithmetic); the square root is non-negative; cos and sin take their textbook values at the
      two phases a real-only bin can have, 0 and pi. */
  ghost predicate PolarLaws(m: Math)
  {
    && (forall re, im {:trigger m.atan2(im, re)} :: m.sqrt(re * re + im * im) * m.cos(m.atan2(im, re)) == re)
    && (forall re, im {:trigger m.atan2(im, re)} :: m.sqrt(re * re + im * im) * m.sin(m.atan2(im, re)) == im)
    && (forall x :: 0.0 <= x ==> 0.0 <= m.sqrt(x))
    && m.cos(0.0) == 1.0 && m.sin(0.0) == 0.0
    && m.cos(m.pi) == -1.0 && m.sin(m.pi) == 0.0
  }

  /** `exp` is monotone and `exp(0) = 1`. */
  ghost predicate ExpLaws(m: Math)
  {
    && m.exp(0.0) == 1.0
    && (forall x, y :: x <= y ==> m.exp(x) <= m.exp(y))
  }

  /** `decibelsToGain` is non-negative and monotone; `gainToDecibels` undoes it above the
      minus-infinity level, and `decibelsToGain(gainToDecibels(g))` never exceeds `g`. */
  ghost predicate DecibelLaws(m: Math)
  {
    && (forall d :: 0.0 <= m.decibelsToGain(d))
    && (forall d, e :: d <= e ==> m.decibelsToGain(d) <= m.decibelsToGain(e))
    && (forall g {:trigger m.decibelsToGain(m.gainToDecibels(g))} :: 0.0 <= g ==> m.decibelsToGain(m.gainToDecibels(g)) <= g)
    && (forall d {:trigger m.gainToDecibels(m.decibelsToGain(d))} :: MinusInfinityDb < d ==> m.gainToDecibels(m.decibelsToGain(d)) == d)
  }
}
