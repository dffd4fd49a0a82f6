/** What one voice promises: the normaliser identity, the bound on a normalised
    sample, the envelope drawn once per audible harmonic, the phase range, the
    relation between the two increment formulas, and the division by zero of the
    unguarded normaliser. */
module VoiceProperties {
  import opened Library
  import opened Voice
  import Adsr

  ghost predicate NonNegative(gains: seq<real>)
  {
    forall h :: 0 <= h < |gains| ==> gains[h] >= 0.0
  }

  /** A factor in [0, 1] scales a non-negative gain down. */
  lemma UnitScale(level: real, gain: real)
    requires 0.0 <= level <= 1.0 && gain >= 0.0
    ensures 0.0 <= level * gain <= gain
  {
  }

  /** A factor in [-1, 1] keeps a product within the magnitude of the other factor. */
  lemma SignedScale(p: real, sine: real)
    requires p >= 0.0 && -1.0 <= sine <= 1.0
    ensures -p <= p * sine <= p
  {
  }

  /** Adding one term `level * gain * sin` to a partial sum bounded by `before`
      gives a sum bounded by `before + gain`. */
  lemma StepBound(acc: real, before: real, level: real, gain: real, sine: real)
    requires -before <= acc <= before
    requires 0.0 <= level <= 1.0 && gain >= 0.0 && -1.0 <= sine <= 1.0
    ensures -(before + gain) <= acc + level * gain * sine <= before + gain
  {
    UnitScale(level, gain);
    SignedScale(level * gain, sine);
  }

  lemma SoundBounds(ext: Externals, e: Adsr.Envelope, x: real)
    requires ext.Sound()
    ensures -1.0 <= ext.sin(x) <= 1.0 && 0.0 <= ext.level(e) <= 1.0
  {
  }

  /** The unnormalised oscillator sum never exceeds, in magnitude, the total gain
      of the audible harmonics. */
  lemma {:induction false} OscillateBounded(v: VoiceState, ext: Externals, n: nat)
    requires v.WellFormed() && n <= v.numHarmonics && ext.Sound()
    requires NonNegative(v.gainVector)
    ensures -AudibleGain(v.gainVector, v.f0, v.nyquist, n) <= Oscillate(v, ext, n).0
    ensures Oscillate(v, ext, n).0 <= AudibleGain(v.gainVector, v.f0, v.nyquist, n)
  {
    if n > 0 {
      var h := n - 1;
      OscillateBounded(v, ext, h);
      var prev := Oscillate(v, ext, h);
      var before := AudibleGain(v.gainVector, v.f0, v.nyquist, h);
      var angle, gain := v.currentAngle[h], v.gainVector[h];
      OscillateNext(v, ext, h, prev.0, prev.1, angle, gain);
      if Audible(v.f0, v.nyquist, h) {
        var step := Adsr.GetNextSample(prev.1, ext.level);
        SoundBounds(ext, prev.1, angle);
        StepBound(prev.0, before, step.0, gain, ext.sin(angle));
        assert AudibleGain(v.gainVector, v.f0, v.nyquist, n) == before + gain;
      }
    }
  }

  /** The envelope is sampled once per audible harmonic, not once per call: after the
      first `n` harmonics it has moved on by the number of audible ones among them,
      and nothing else about it has changed. */
  lemma {:induction false} EnvelopeDrawnPerAudibleHarmonic(v: VoiceState, ext: Externals, n: nat)
    requires v.WellFormed() && n <= v.numHarmonics
    ensures Oscillate(v, ext, n).1 == v.adsr.(ticks := v.adsr.ticks + AudibleCount(v.f0, v.nyquist, n))
  {
    if n > 0 {
      EnvelopeDrawnPerAudibleHarmonic(v, ext, n - 1);
    }
  }

  lemma ScaleRight(a: real, b: real, c: real)
    requires a <= b && c >= 0.0
    ensures a * c <= b * c
  {
  }

  /** A sum bounded by `total`, times the guarded reciprocal of `total`, lies in
      [-1, 1]. */
  lemma NormalisedBound(out: real, total: real, g: real)
    requires -total <= out <= total
    requires total != 0.0 ==> g * total == 1.0
    requires total == 0.0 ==> g == 0.0
    ensures -1.0 <= out * g <= 1.0
  {
    if total != 0.0 {
      assert total > 0.0;
      assert g > 0.0;
      ScaleRight(out, total, g);
      ScaleRight(-total, out, g);
      assert total * g == 1.0;
      assert (-total) * g == -1.0;
    } else {
      assert out * g == 0.0;
    }
  }

  /** A normalised voice with non-negative gains, a sine in [-1, 1] and envelope
      levels in [0, 1] produces samples in [-1, 1]. */
  lemma SampleBounded(v: VoiceState, ext: Externals)
    requires v.WellFormed() && Normalised(v) && NonNegative(v.gainVector) && ext.Sound()
    ensures -1.0 <= NextSample(v, ext).0 <= 1.0
  {
    OscillateBounded(v, ext, v.numHarmonics);
    NormalisedBound(Oscillate(v, ext, v.numHarmonics).0,
      AudibleGain(v.gainVector, v.f0, v.nyquist, v.numHarmonics), v.averagedGain);
  }

  /** With the unguarded normaliser the identity `averagedGain * total == 1` holds
      whenever the audible gains do not cancel to zero. */
  lemma NormaliserIdentity(v: VoiceState)
    requires v.WellFormed() && Normalised(v)
    requires AudibleGain(v.gainVector, v.f0, v.nyquist, v.numHarmonics) != 0.0
    ensures v.averagedGain * AudibleGain(v.gainVector, v.f0, v.nyquist, v.numHarmonics) == 1.0
  {
  }

  /** A voice whose audible harmonics carry no gain is silent under the guarded
      normaliser, instead of producing infinity or NaN. */
  lemma SilentVoiceIsQuiet(v: VoiceState, ext: Externals)
    requires v.WellFormed() && Normalised(v)
    requires AudibleGain(v.gainVector, v.f0, v.nyquist, v.numHarmonics) == 0.0
    ensures NextSample(v, ext).0 == 0.0
  {
  }

  /** Only the gains of audible harmonics enter the total: two gain vectors that
      agree on every audible harmonic have the same total. */
  lemma {:induction false} OnlyAudibleGainsCount(g1: seq<real>, g2: seq<real>, f0: real, nyquist: real, n: nat)
    requires n <= |g1| && n <= |g2|
    requires forall h :: 0 <= h < n && Audible(f0, nyquist, h) ==> g1[h] == g2[h]
    ensures AudibleGain(g1, f0, nyquist, n) == AudibleGain(g2, f0, nyquist, n)
  {
    if n > 0 {
      OnlyAudibleGainsCount(g1, g2, f0, nyquist, n - 1);
    }
  }

  /** Non-negative gains have a non-negative total. */
  lemma {:induction false} AudibleGainNonNegative(gains: seq<real>, f0: real, nyquist: real, n: nat)
    requires n <= |gains| && NonNegative(gains)
    ensures AudibleGain(gains, f0, nyquist, n) >= 0.0
  {
    if n > 0 {
      AudibleGainNonNegative(gains, f0, nyquist, n - 1);
    }
  }

  /** Sum of a vector of zeros. */
  lemma {:induction false} ZeroGainsTotal(f0: real, nyquist: real, m: nat, n: nat)
    requires n <= m
    ensures AudibleGain(Zeros(m), f0, nyquist, n) == 0.0
  {
    if n > 0 {
      ZeroGainsTotal(f0, nyquist, m, n - 1);
    }
  }

  /** A fundamental at or above the Nyquist frequency gates out every harmonic. */
  lemma {:induction false} NothingAudibleAboveNyquist(gains: seq<real>, f0: real, nyquist: real, n: nat)
    requires n <= |gains| && f0 >= nyquist && f0 >= 0.0
    ensures AudibleGain(gains, f0, nyquist, n) == 0.0
  {
    if n > 0 {
      NothingAudibleAboveNyquist(gains, f0, nyquist, n - 1);
      assert f0 * (n as real) >= f0 * 1.0;
      assert !Audible(f0, nyquist, n - 1);
    }
  }

  /** As written, `computeAverageGain` divides by zero when every gain is zero (all
      sixteen gain sliders at 0) ... */
  lemma SilentGainsDivideByZero(f0: real, nyquist: real)
    ensures ReciprocalAsWritten(AudibleGain(Zeros(16), f0, nyquist, 16)) == PlusInfinity
  {
    ZeroGainsTotal(f0, nyquist, 16, 16);
  }

  /** ... and when the fundamental is at or above Nyquist: a 20000 Hz note at a
      32000 Hz sample rate, whatever the gains. */
  lemma HighNoteDividesByZero(gains: seq<real>)
    requires |gains| == 16
    ensures ReciprocalAsWritten(AudibleGain(gains, 20000.0, 32000.0 / 2.0, 16)) == PlusInfinity
  {
    NothingAudibleAboveNyquist(gains, 20000.0, 32000.0 / 2.0, 16);
  }

  /** The gain vector [1, 0, ..., 0] has audible total 1 when the fundamental is
      below Nyquist and 0 otherwise. */
  lemma {:induction false} UnitGainsTotal(f0: real, nyquist: real, n: nat, k: nat)
    requires 1 <= k <= n
    ensures AudibleGain(UnitGains(n), f0, nyquist, k) == if Audible(f0, nyquist, 0) then 1.0 else 0.0
  {
    if k > 1 {
      UnitGainsTotal(f0, nyquist, n, k - 1);
    }
  }

  /** After `setup` the voice is normalised, and its normaliser is 1 whenever the
      fundamental is below Nyquist: only the fundamental sounds, at full gain. */
  lemma SetupNormaliser(v: VoiceState, sampleRate: real, n: int)
    requires sampleRate > 0.0 && n >= 1
    ensures Normalised(v.Setup(sampleRate, n))
    ensures v.Setup(sampleRate, n).averagedGain == if v.f0 < sampleRate / 2.0 then 1.0 else 0.0
  {
    UnitGainsTotal(v.f0, sampleRate / 2.0, n, n);
  }

  /** `setup` leaves every phase at zero and installs [1, 0, ..., 0]. */
  lemma SetupPhasesAndGains(v: VoiceState, sampleRate: real, n: int)
    requires sampleRate > 0.0 && n >= 1
    ensures forall h :: 0 <= h < n ==> v.Setup(sampleRate, n).currentAngle[h] == 0.0
    ensures v.Setup(sampleRate, n).gainVector[0] == 1.0
    ensures forall h :: 1 <= h < n ==> v.Setup(sampleRate, n).gainVector[h] == 0.0
    ensures v.Setup(sampleRate, n).nyquist == sampleRate / 2.0
  {
  }

  /** `setup`'s increments are those `setAngleChange` computes for zero cents. */
  lemma SetupAgreesWithTuning(f0: real, fs: real, n: nat, pow2: real -> real)
    requires fs > 0.0 && pow2(0.0) == 1.0
    ensures SetupTuning(f0, fs, n) == Tuning(f0, 0.0, fs, n, pow2)
  {
    forall h | 0 <= h < n
      ensures SetupTuning(f0, fs, n)[h] == Tuning(f0, 0.0, fs, n, pow2)[h]
    {
      assert 0.0 / 1200.0 == 0.0;
      var k := (h + 1) as real;
      calc {
        Increment(f0, 0.0, fs, h, pow2);
        2.0 * Pi * f0 * k * 1.0 * (1.0 / fs);
        f0 * k * 2.0 * Pi * (1.0 / fs);
      }
    }
  }

  ghost predicate PhasesInRange(v: VoiceState)
    requires v.WellFormed()
  {
    forall h :: 0 <= h < v.numHarmonics ==> 0.0 <= v.currentAngle[h] <= TwoPi
  }

  ghost predicate IncrementsBelowTurn(v: VoiceState)
    requires v.WellFormed()
  {
    forall h :: 0 <= h < v.numHarmonics ==> 0.0 <= v.angleChange[h] <= TwoPi
  }

  /** Every phase is advanced, audible harmonic or not, and the single subtraction of
      2 pi keeps a phase in the closed range [0, 2 pi] when the increments are at
      most one turn. */
  lemma PhasesStayInRange(v: VoiceState, ext: Externals)
    requires v.WellFormed() && PhasesInRange(v) && IncrementsBelowTurn(v)
    ensures NextSample(v, ext).1.WellFormed() && PhasesInRange(NextSample(v, ext).1)
    ensures forall h :: 0 <= h < v.numHarmonics ==>
      NextSample(v, ext).1.currentAngle[h] == Advance(v.currentAngle[h], v.angleChange[h])
  {
  }

  /** A voice after `k` calls of `getNextSample()`: only phases and envelope move. */
  function Run(v: VoiceState, ext: Externals, k: nat): (r: VoiceState)
    requires v.WellFormed()
    ensures r.WellFormed() && r.numHarmonics == v.numHarmonics && r.angleChange == v.angleChange
  {
    if k == 0 then v else NextSample(Run(v, ext, k - 1), ext).1
  }

  /** One call moves phase `h` by exactly one `Advance`. */
  lemma PhaseAdvances(v: VoiceState, ext: Externals, h: nat)
    requires v.WellFormed() && h < v.numHarmonics
    ensures NextSample(v, ext).1.currentAngle[h] == Advance(v.currentAngle[h], v.angleChange[h])
  {
  }

  /** A phase after `k` steps of `Advance` by the same increment. */
  function PhaseAfter(angle: real, increment: real, k: nat): real
  {
    if k == 0 then angle else Advance(PhaseAfter(angle, increment, k - 1), increment)
  }

  /** Every call advances phase `h` by its increment, audible or not. */
  lemma {:induction false} RunPhase(v: VoiceState, ext: Externals, h: nat, k: nat)
    requires v.WellFormed() && h < v.numHarmonics
    ensures Run(v, ext, k).currentAngle[h] == PhaseAfter(v.currentAngle[h], v.angleChange[h], k)
  {
    if k > 0 {
      RunPhase(v, ext, h, k - 1);
      PhaseAdvances(Run(v, ext, k - 1), ext, h);
    }
  }

  /** The excess `excess` accumulated over `k` steps. */
  function Drift(excess: real, k: nat): (r: real)
    ensures excess >= 0.0 ==> r >= 0.0
  {
    if k == 0 then 0.0 else Drift(excess, k - 1) + excess
  }

  /** The accumulated excess is `k` times the excess. */
  lemma {:induction false} DriftIsProduct(excess: real, k: nat)
    ensures Drift(excess, k) == k as real * excess
  {
    if k > 0 {
      DriftIsProduct(excess, k - 1);
      assert (k - 1) as real * excess + excess == k as real * excess;
    }
  }

  /** A single subtraction of 2 pi per step cannot hold back an increment above one
      turn: the phase grows by `increment - 2 pi` on every step, without bound. */
  lemma {:induction false} FastPhaseGrows(angle: real, increment: real, k: nat)
    requires angle >= 0.0 && increment > TwoPi
    ensures PhaseAfter(angle, increment, k) == angle + Drift(increment - TwoPi, k)
  {
    if k > 0 {
      FastPhaseGrows(angle, increment, k - 1);
    }
  }

  /** So a voice whose harmonic `h` has an increment above one turn sees that phase
      leave [0, 2 pi] and keep growing by the excess on every sample; by
      `DriftIsProduct` it is `k` times the excess above where it started. */
  lemma FastHarmonicLeavesRange(v: VoiceState, ext: Externals, h: nat, k: nat)
    requires v.WellFormed() && h < v.numHarmonics
    requires v.currentAngle[h] >= 0.0 && v.angleChange[h] > TwoPi
    ensures Run(v, ext, k).currentAngle[h] == v.currentAngle[h] + Drift(v.angleChange[h] - TwoPi, k)
  {
    RunPhase(v, ext, h, k);
    FastPhaseGrows(v.currentAngle[h], v.angleChange[h], k);
  }

  /** Increments above one turn are ordinary: a 3000 Hz note on a voice set up at
      44100 Hz gives the sixteenth harmonic an increment above 2 pi, so that
      harmonic's phase leaves [0, 2 pi] (`FastHarmonicLeavesRange`). */
  lemma HighHarmonicOutrunsTurn(pow2: real -> real)
    requires pow2(0.0) == 1.0
    ensures Fresh().Setup(44100.0, 16).WithNoteOn(3000.0, pow2).angleChange[15] > TwoPi
  {
    assert 0.0 / 1200.0 == 0.0;
    assert Fresh().Setup(44100.0, 16).WithNoteOn(3000.0, pow2).angleChange[15]
           == Increment(3000.0, 0.0, 44100.0, 15, pow2);
  }

  /** The range is closed at the top: the test is a strict `>`, so a phase can land
      on 2 pi exactly and stay there until the next step. */
  lemma PhaseCanReachTwoPi()
    ensures Advance(0.0, TwoPi) == TwoPi
  {
  }

  /** `noteOn` does not recompute the normaliser: a voice normalised for one pitch
      can stop being normalised when a note at another pitch lets more harmonics
      through the gate. */
  lemma NoteOnKeepsStaleNormaliser()
    ensures exists v: VoiceState, f: real, pow2: real -> real ::
      v.WellFormed() && Normalised(v) && !Normalised(v.WithNoteOn(f, pow2))
  {
    var v := VoiceState(0.0, 1.5, [1.0, 1.0], [0.0, 0.0], [0.0, 0.0], Adsr.Fresh(), 4.0, 2.0, 1.0, 2);
    assert AudibleGain(v.gainVector, 1.5, 2.0, 2) == 1.0;
    var w := v.WithNoteOn(0.5, c => 1.0);
    assert AudibleGain(w.gainVector, 0.5, 2.0, 2) == 2.0;
    assert !Normalised(w);
  }
}
