/** Numeric constants and the foreign functions the synthesis code calls. */
module Library {
  import Adsr

  /** `juce::double_Pi`. */
  const Pi: real := 3.141592653589793
  /** The wrap-around point of every oscillator phase, `2.f * double_Pi`. */
  const TwoPi: real := 2.0 * Pi

  /** The calls into code outside the model: `std::sin`, `powf(2.f, .)` and the level
      curve of `juce::ADSR::getNextSample`. */
  datatype Externals = Externals(sin: real -> real, pow2: real -> real, level: Adsr.Envelope -> real)
  {
    /** What the model assumes of them: a sine stays in [-1, 1], a power of two is
        positive and 2^0 is 1, an envelope level lies in [0, 1]. */
    ghost predicate Sound()
    {
      && (forall x :: -1.0 <= sin(x) <= 1.0)
      && (forall c :: pow2(c) > 0.0)
      && pow2(0.0) == 1.0
      && (forall e :: 0.0 <= level(e) <= 1.0)
    }
  }
}
