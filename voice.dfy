/** One voice of the additive synthesizer (`SynthVoice`): a bank of harmonic
    oscillators, one phase and one phase increment per harmonic, a gain per
    harmonic, a gain normaliser and an envelope.

    The first half of the module states what each operation does as functions on
    `VoiceState`; the class `SynthVoice` below is the mutable voice, and every one of
    its methods is proved to move its state exactly as the matching function says. */
module Voice {
  import opened Library
  import Adsr

  /** The fields of a `SynthVoice`: the public `cent` and `f0`, the three
      per-harmonic vectors indexed by harmonic number, the envelope, the sample rate,
      the Nyquist frequency, the normalising gain and the harmonic count. */
  datatype VoiceState = VoiceState(
    cent: real,
    f0: real,
    gainVector: seq<real>,
    currentAngle: seq<real>,
    angleChange: seq<real>,
    adsr: Adsr.Envelope,
    fs: real,
    nyquist: real,
    averagedGain: real,
    numHarmonics: int)
  {
    /** A voice after `setup`: three vectors of `numHarmonics` entries (at least
        one, since `setup` writes `gainVector[0]`), a positive sample rate and the
        Nyquist frequency at half of it. */
    ghost predicate WellFormed()
    {
      && numHarmonics >= 1
      && |gainVector| == numHarmonics
      && |currentAngle| == numHarmonics
      && |angleChange| == numHarmonics
      && fs > 0.0
      && nyquist == fs / 2.0
    }

    /** The state `setup(sampleRate, n)` leaves: every phase at zero, the gain
        vector [1, 0, ..., 0], increments from `f0` without the cent factor, and the
        normaliser recomputed. `f0` and `cent` are kept. */
    function Setup(sampleRate: real, n: int): (v: VoiceState)
      requires sampleRate > 0.0 && n >= 1
      ensures v.WellFormed()
    {
      var nyq := sampleRate / 2.0;
      this.(fs := sampleRate, numHarmonics := n, nyquist := nyq,
            gainVector := UnitGains(n), currentAngle := Zeros(n),
            angleChange := SetupTuning(f0, sampleRate, n),
            adsr := adsr.(sampleRate := sampleRate, params := Adsr.SetupParameters),
            averagedGain := Reciprocal(AudibleGain(UnitGains(n), f0, nyq, n)))
    }

    /** `setHarmonicGain(g)`: new gains, normaliser recomputed for the current `f0`. */
    function WithGains(g: seq<real>): (r: VoiceState)
      requires WellFormed() && |g| == numHarmonics
      ensures r.WellFormed() && r == this.(gainVector := g, averagedGain := r.averagedGain)
      ensures var total := AudibleGain(g, f0, nyquist, numHarmonics);
              && (total != 0.0 ==> r.averagedGain * total == 1.0)
              && (total == 0.0 ==> r.averagedGain == 0.0)
    {
      this.(gainVector := g, averagedGain := Reciprocal(AudibleGain(g, f0, nyquist, numHarmonics)))
    }

    /** `setAngleChange()`: every increment recomputed from `f0`, `cent` and `fs`. */
    function WithTuning(pow2: real -> real): (r: VoiceState)
      requires WellFormed()
      ensures r.WellFormed() && r == this.(angleChange := r.angleChange)
      ensures forall h :: 0 <= h < numHarmonics ==> r.angleChange[h] == (h + 1) as real * Increment(f0, cent, fs, 0, pow2)
    {
      this.(angleChange := Tuning(f0, cent, fs, numHarmonics, pow2))
    }

    /** `noteOn(f)`: the new fundamental, its increments, and the envelope triggered.
        The gains and the normaliser are left as they were. */
    function WithNoteOn(f: real, pow2: real -> real): (r: VoiceState)
      requires WellFormed()
      ensures r.WellFormed() && r == this.(f0 := f).WithTuning(pow2).(adsr := Adsr.NoteOn(adsr))
      ensures r.adsr.held && r.gainVector == gainVector && r.averagedGain == averagedGain
    {
      this.(f0 := f, angleChange := Tuning(f, cent, fs, numHarmonics, pow2), adsr := Adsr.NoteOn(adsr))
    }

    /** `noteOff()`: only the envelope is released. */
    function WithNoteOff(): (r: VoiceState)
      ensures r.WellFormed() == WellFormed() && r == this.(adsr := r.adsr)
      ensures !r.adsr.held && r.adsr == adsr.(held := r.adsr.held)
    {
      this.(adsr := Adsr.NoteOff(adsr))
    }

    /** `setADSRParams(p)`. */
    function WithAdsrParameters(p: Adsr.Parameters): (r: VoiceState)
      ensures r.WellFormed() == WellFormed() && r == this.(adsr := r.adsr)
      ensures r.adsr.params == p && r.adsr == adsr.(params := r.adsr.params)
    {
      this.(adsr := adsr.(params := p))
    }
  }

  /** A default-constructed `SynthVoice`: `cent = 0`, `f0 = 220`, `Fs = 48000`,
      `nyquist = Fs / 2`. The vectors are empty; `averagedGain` and `numHarmonics`
      have no initializer in C++ and are 0 here, which `WellFormed` rejects. */
  function Fresh(): (v: VoiceState)
    ensures !v.WellFormed()
  {
    VoiceState(0.0, 220.0, [], [], [], Adsr.Fresh(), 48000.0, 48000.0 / 2.0, 0.0, 0)
  }

  function Zeros(n: nat): seq<real>
  {
    seq(n, h => 0.0)
  }

  /** The gain vector `setup` installs: only the fundamental sounds. */
  function UnitGains(n: nat): seq<real>
  {
    seq(n, h => if h == 0 then 1.0 else 0.0)
  }

  /** The anti-aliasing gate: harmonic number `h` (0 for the fundamental) sounds at
      `f0 * (h + 1)` Hz, and only below the Nyquist frequency. */
  predicate Audible(f0: real, nyquist: real, h: nat)
  {
    f0 * (h + 1) as real < nyquist
  }

  /** The sum of the gains of the audible harmonics among the first `n`. */
  function AudibleGain(gains: seq<real>, f0: real, nyquist: real, n: nat): real
    requires n <= |gains|
  {
    if n == 0 then 0.0
    else AudibleGain(gains, f0, nyquist, n - 1) + (if Audible(f0, nyquist, n - 1) then gains[n - 1] else 0.0)
  }

  /** How many of the first `n` harmonics pass the gate. */
  function AudibleCount(f0: real, nyquist: real, n: nat): (c: nat)
    ensures c <= n
  {
    if n == 0 then 0
    else AudibleCount(f0, nyquist, n - 1) + (if Audible(f0, nyquist, n - 1) then 1 else 0)
  }

  /** The normaliser `1 / totalGain`, guarded: a total of zero gives 0 instead of
      the division by zero `computeAverageGain` performs (see `ReciprocalAsWritten`). */
  function Reciprocal(total: real): (g: real)
    ensures total != 0.0 ==> g * total == 1.0
    ensures total == 0.0 ==> g == 0.0
  {
    if total == 0.0 then 0.0 else 1.0 / total
  }

  /** An IEEE double, as far as `1.f / totalGain` needs one. */
  datatype Double = Finite(value: real) | PlusInfinity

  /** `averagedGain = 1.f / totalGain` as written: the total starts at +0.0, so a
      zero total divides +0 and yields +infinity. */
  function ReciprocalAsWritten(total: real): (g: Double)
    ensures g.Finite? <==> total != 0.0
    ensures g.Finite? ==> g.value * total == 1.0
  {
    if total == 0.0 then PlusInfinity else Finite(1.0 / total)
  }

  /** Two states of a voice set up alike: the same harmonic count and sample rate. */
  ghost predicate SameSetup(a: VoiceState, b: VoiceState)
  {
    a.numHarmonics == b.numHarmonics && a.fs == b.fs
  }

  /** `averagedGain` is the normaliser of the current gains at the current `f0`. */
  ghost predicate Normalised(v: VoiceState)
    requires v.WellFormed()
  {
    v.averagedGain == Reciprocal(AudibleGain(v.gainVector, v.f0, v.nyquist, v.numHarmonics))
  }

  /** The phase increment `setAngleChange` gives harmonic `h`:
      `2 * pi * f0 * (h + 1) * 2^(cent / 1200) / Fs`. */
  function Increment(f0: real, cent: real, fs: real, h: nat, pow2: real -> real): real
    requires fs != 0.0
  {
    2.0 * Pi * f0 * (h + 1) as real * pow2(cent / 1200.0) * (1.0 / fs)
  }

  /** All increments after `setAngleChange`: harmonic `h` turns `h + 1` times as fast
      as the fundamental. */
  function Tuning(f0: real, cent: real, fs: real, n: nat, pow2: real -> real): (r: seq<real>)
    requires fs != 0.0
    ensures |r| == n
    ensures forall h :: 0 <= h < n ==> r[h] == (h + 1) as real * Increment(f0, cent, fs, 0, pow2)
  {
    seq(n, h requires 0 <= h < n => Increment(f0, cent, fs, h, pow2))
  }

  /** The increment `setup` gives harmonic `h`: the same formula without the cent factor. */
  function SetupIncrement(f0: real, fs: real, h: nat): real
    requires fs != 0.0
  {
    f0 * (h + 1) as real * 2.0 * Pi * (1.0 / fs)
  }

  function SetupTuning(f0: real, fs: real, n: nat): (r: seq<real>)
    requires fs != 0.0
    ensures |r| == n
  {
    seq(n, h requires 0 <= h < n => SetupIncrement(f0, fs, h))
  }

  /** One phase step: add the increment, and subtract 2 pi once when the sum exceeds
      2 pi. The result differs from the sum by 0 or one full turn, and a phase in
      [0, 2 pi] advanced by an increment in [0, 2 pi] stays in [0, 2 pi]. */
  function Advance(angle: real, increment: real): (r: real)
    ensures r == angle + increment || r == angle + increment - TwoPi
    ensures 0.0 <= angle <= TwoPi && 0.0 <= increment <= TwoPi ==> 0.0 <= r <= TwoPi
  {
    var sum := angle + increment;
    if sum > TwoPi then sum - TwoPi else sum
  }

  function AdvanceAll(angles: seq<real>, increments: seq<real>): (r: seq<real>)
    requires |angles| == |increments|
    ensures |r| == |angles|
  {
    seq(|angles|, h requires 0 <= h < |angles| => Advance(angles[h], increments[h]))
  }

  /** The oscillator sum over the first `n` harmonics, before normalisation, and the
      envelope after it: each audible harmonic adds `level * gain * sin(phase)`, with
      one envelope sample drawn per audible harmonic. */
  function Oscillate(v: VoiceState, ext: Externals, n: nat): (r: (real, Adsr.Envelope))
    requires v.WellFormed() && n <= v.numHarmonics
    ensures r.1 == v.adsr.(ticks := r.1.ticks) && r.1.ticks >= v.adsr.ticks
  {
    if n == 0 then (0.0, v.adsr)
    else
      var prev := Oscillate(v, ext, n - 1);
      if Audible(v.f0, v.nyquist, n - 1) then
        var step := Adsr.GetNextSample(prev.1, ext.level);
        (prev.0 + step.0 * v.gainVector[n - 1] * ext.sin(v.currentAngle[n - 1]), step.1)
      else prev
  }

  /** One more harmonic of the oscillator sum, stated over the running sum, the
      envelope, the phase and the gain a loop holds at that point. */
  lemma OscillateNext(v: VoiceState, ext: Externals, h: nat, out: real, envelope: Adsr.Envelope, angle: real, gain: real)
    requires v.WellFormed() && h < v.numHarmonics
    requires out == Oscillate(v, ext, h).0 && envelope == Oscillate(v, ext, h).1
    requires angle == v.currentAngle[h] && gain == v.gainVector[h]
    ensures Audible(v.f0, v.nyquist, h) ==>
      var step := Adsr.GetNextSample(envelope, ext.level);
      Oscillate(v, ext, h + 1).0 == out + step.0 * gain * ext.sin(angle) && Oscillate(v, ext, h + 1).1 == step.1
    ensures !Audible(v.f0, v.nyquist, h) ==> Oscillate(v, ext, h + 1).0 == out && Oscillate(v, ext, h + 1).1 == envelope
  {
  }

  /** `getNextSample()`: the normalised oscillator sum, and the voice with every
      phase advanced (audible or not) and the envelope moved on. */
  function NextSample(v: VoiceState, ext: Externals): (r: (real, VoiceState))
    requires v.WellFormed()
    ensures r.1.WellFormed()
    ensures r.1 == v.(currentAngle := r.1.currentAngle, adsr := r.1.adsr)
  {
    var osc := Oscillate(v, ext, v.numHarmonics);
    (osc.0 * v.averagedGain, v.(currentAngle := AdvanceAll(v.currentAngle, v.angleChange), adsr := osc.1))
  }

  /** `NextSample` in terms of the oscillator sum and envelope a loop has computed. */
  lemma NextSampleOf(v: VoiceState, ext: Externals, out: real, envelope: Adsr.Envelope, angles: seq<real>)
    requires v.WellFormed()
    requires out == Oscillate(v, ext, v.numHarmonics).0 && envelope == Oscillate(v, ext, v.numHarmonics).1
    requires angles == AdvanceAll(v.currentAngle, v.angleChange)
    ensures NextSample(v, ext).0 == out * v.averagedGain
    ensures NextSample(v, ext).1 == v.(currentAngle := angles, adsr := envelope)
  {
  }

  /** The vector loop of `setup()`: `n` zero gains with the fundamental then set
      to 1, `n` zero phases, and the increment of every harmonic of `f0`. */
  method SetupVectors(f0: real, fs: real, n: nat) returns (gains: seq<real>, angles: seq<real>, increments: seq<real>)
    requires fs != 0.0
    ensures gains == UnitGains(n) && angles == Zeros(n) && increments == SetupTuning(f0, fs, n)
  {
    gains, angles, increments := [], [], [];
    for h := 0 to n
      invariant gains == Zeros(h) && angles == Zeros(h)
      invariant increments == SetupTuning(f0, fs, h)
    {
      gains := gains + [0.0];
      angles := angles + [0.0];
      increments := increments + [SetupIncrement(f0, fs, h)];
      assert gains == Zeros(h + 1);
      assert forall k :: 0 <= k < h ==> increments[k] == SetupTuning(f0, fs, h)[k];
    }
    if n > 0 {
      gains := gains[0 := 1.0];
    }
    assert gains == UnitGains(n);
  }

  /** The harmonic loop of `getNextSample()`, run over the voice's fields: the sum
      of every audible harmonic's envelope level times its gain times the sine of its
      phase, the envelope after one step per audible harmonic, and every phase
      advanced by its increment. */
  method Oscillators(v: VoiceState, ext: Externals) returns (out: real, envelope: Adsr.Envelope, angles: seq<real>)
    requires v.WellFormed()
    ensures out == Oscillate(v, ext, v.numHarmonics).0 && envelope == Oscillate(v, ext, v.numHarmonics).1
    ensures angles == AdvanceAll(v.currentAngle, v.angleChange)
  {
    out := 0.0;
    angles, envelope := v.currentAngle, v.adsr;
    for h := 0 to v.numHarmonics
      invariant out == Oscillate(v, ext, h).0 && envelope == Oscillate(v, ext, h).1
      invariant |angles| == v.numHarmonics
      invariant forall k :: 0 <= k < h ==> angles[k] == Advance(v.currentAngle[k], v.angleChange[k])
      invariant forall k :: h <= k < v.numHarmonics ==> angles[k] == v.currentAngle[k]
    {
      OscillateNext(v, ext, h, out, envelope, angles[h], v.gainVector[h]);
      if Audible(v.f0, v.nyquist, h) {
        var step := Adsr.GetNextSample(envelope, ext.level);
        out := out + step.0 * v.gainVector[h] * ext.sin(angles[h]);
        envelope := step.1;
      }
      var angle := angles[h] + v.angleChange[h];
      if angle > 2.0 * Pi {
        angle := angle - 2.0 * Pi;
      }
      angles := angles[h := angle];
    }
    assert angles == AdvanceAll(v.currentAngle, v.angleChange);
  }

  class SynthVoice {
    var cent: real
    var f0: real
    var gainVector: seq<real>
    var currentAngle: seq<real>
    var angleChange: seq<real>
    var adsr: Adsr.Envelope
    var fs: real
    var nyquist: real
    var averagedGain: real
    var numHarmonics: int

    function Model(): VoiceState
      reads this
    {
      VoiceState(cent, f0, gainVector, currentAngle, angleChange, adsr, fs, nyquist, averagedGain, numHarmonics)
    }

    ghost predicate Valid()
      reads this
    {
      Model().WellFormed()
    }

    constructor ()
      ensures Model() == Fresh()
    {
      cent := 0.0;
      f0 := 220.0;
      gainVector, currentAngle, angleChange := [], [], [];
      adsr := Adsr.Fresh();
      fs := 48000.0;
      nyquist := 48000.0 / 2.0;
      averagedGain := 0.0;
      numHarmonics := 0;
    }

    method Setup(sampleRate: real, harmonics: int)
      requires sampleRate > 0.0 && harmonics >= 1
      modifies this
      ensures Valid()
      ensures Model() == old(Model()).Setup(sampleRate, harmonics)
    {
      fs := sampleRate;
      numHarmonics := harmonics;
      nyquist := fs / 2.0;

      var gains, angles, increments := SetupVectors(f0, sampleRate, harmonics);
      gainVector, currentAngle, angleChange := gains, angles, increments;
      adsr := adsr.(sampleRate := fs);
      adsr := adsr.(params := Adsr.SetupParameters);

      ComputeAverageGain();
    }

    method GetNextSample(ext: Externals) returns (sample: real)
      requires Valid()
      modifies this
      ensures sample == NextSample(old(Model()), ext).0
      ensures Model() == NextSample(old(Model()), ext).1
    {
      ghost var v := Model();
      var out, envelope, angles := Oscillators(Model(), ext);
      NextSampleOf(v, ext, out, envelope, angles);
      sample := out * averagedGain;
      currentAngle, adsr := angles, envelope;
    }

    method SetHarmonicGain(g: seq<real>)
      requires Valid() && |g| == numHarmonics
      modifies this
      ensures Model() == old(Model()).WithGains(g)
    {
      gainVector := g;
      ComputeAverageGain();
    }

    /** Sums the gains of the audible harmonics and stores the guarded reciprocal. */
    method ComputeAverageGain()
      requires 0 <= numHarmonics <= |gainVector|
      modifies this`averagedGain
      ensures averagedGain == Reciprocal(AudibleGain(gainVector, f0, nyquist, numHarmonics))
    {
      var totalGain := 0.0;
      for h := 0 to numHarmonics
        invariant totalGain == AudibleGain(gainVector, f0, nyquist, h)
      {
        if Audible(f0, nyquist, h) {
          totalGain := totalGain + gainVector[h];
        }
      }
      averagedGain := Reciprocal(totalGain);
    }

    method SetAdsrParams(params: Adsr.Parameters)
      modifies this
      ensures Model() == old(Model()).WithAdsrParameters(params)
    {
      adsr := adsr.(params := params);
    }

    method NoteOn(freq: real, ext: Externals)
      requires Valid()
      modifies this
      ensures Model() == old(Model()).WithNoteOn(freq, ext.pow2)
      ensures gainVector == old(gainVector) && averagedGain == old(averagedGain)
    {
      f0 := freq;
      SetAngleChange(ext);
      adsr := Adsr.NoteOn(adsr);
    }

    method NoteOff()
      modifies this
      ensures Model() == old(Model()).WithNoteOff()
    {
      adsr := Adsr.NoteOff(adsr);
    }

    method SetAngleChange(ext: Externals)
      requires Valid()
      modifies this
      ensures Model() == old(Model()).WithTuning(ext.pow2)
    {
      for h := 0 to numHarmonics
        invariant Model() == old(Model()).(angleChange := angleChange)
        invariant |angleChange| == numHarmonics
        invariant forall k :: 0 <= k < h ==> angleChange[k] == Increment(f0, cent, fs, k, ext.pow2)
      {
        angleChange := angleChange[h := 2.0 * Pi * f0 * (h + 1) as real * ext.pow2(cent / 1200.0) * (1.0 / fs)];
      }
      assert angleChange == Tuning(f0, cent, fs, numHarmonics, ext.pow2);
    }
  }
}
