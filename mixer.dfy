/** The output stage of `processBlock`: every voice's next sample summed, scaled
    by `vol / numVoices`, clamped by `limit`, and written to both channels.  The
    functions here describe, for a pool of voice states, the sample the render
    loop writes at each position and the voice states it leaves. */
module Mixer {
  import opened Library
  import opened Voice
  import VoiceProperties
  import Adsr

  /** `limit(min, max, n)`: the bounds passed in are ignored and the sample is
      clamped to [-1, 1]. */
  function Limit(min: real, max: real, n: real): (r: real)
    ensures -1.0 <= r <= 1.0
    ensures -1.0 <= n <= 1.0 ==> r == n
    ensures n < -1.0 ==> r == -1.0
    ensures n > 1.0 ==> r == 1.0
  {
    if n < -1.0 then -1.0
    else if n > 1.0 then 1.0
    else n
  }

  ghost predicate AllWellFormed(vs: seq<VoiceState>)
  {
    forall i :: 0 <= i < |vs| ==> vs[i].WellFormed()
  }

  /** The sum `x` of the inner loop after its first `k` voices. */
  function Mix(vs: seq<VoiceState>, ext: Externals, k: nat): real
    requires AllWellFormed(vs) && k <= |vs|
  {
    if k == 0 then 0.0 else Mix(vs, ext, k - 1) + NextSample(vs[k - 1], ext).0
  }

  /** Every voice after one call of `getNextSample()`. */
  function Step(vs: seq<VoiceState>, ext: Externals): (r: seq<VoiceState>)
    requires AllWellFormed(vs)
    ensures |r| == |vs| && AllWellFormed(r)
    ensures forall i :: 0 <= i < |vs| ==> SameSetup(vs[i], r[i])
  {
    seq(|vs|, i requires 0 <= i < |vs| => NextSample(vs[i], ext).1)
  }

  /** Every voice after `n` samples. */
  function After(vs: seq<VoiceState>, ext: Externals, n: nat): (r: seq<VoiceState>)
    requires AllWellFormed(vs)
    ensures |r| == |vs| && AllWellFormed(r)
    ensures forall i :: 0 <= i < |vs| ==> SameSetup(vs[i], r[i])
  {
    if n == 0 then vs else Step(After(vs, ext, n - 1), ext)
  }

  /** The mixed sum `x` of `numVoices` voices scaled by `vol / numVoices`. */
  function Scaled(vol: real, numVoices: int, x: real): real
    requires numVoices > 0
  {
    vol * (1.0 / numVoices as real) * x
  }

  /** The scaled sum, clamped. */
  function Output(vol: real, numVoices: int, x: real): real
    requires numVoices > 0
  {
    Limit(-1.0, 1.0, Scaled(vol, numVoices, x))
  }

  /** The sample written to both channels at position `n` of the block. */
  function Frame(vs: seq<VoiceState>, ext: Externals, vol: real, n: nat): (r: real)
    requires AllWellFormed(vs) && |vs| > 0
    ensures -1.0 <= r <= 1.0
  {
    Output(vol, |vs|, Mix(After(vs, ext, n), ext, |vs|))
  }

  ghost predicate AllNormalised(vs: seq<VoiceState>)
  {
    forall i :: 0 <= i < |vs| ==>
      vs[i].WellFormed() && Normalised(vs[i]) && VoiceProperties.NonNegative(vs[i].gainVector)
  }

  /** A step moves only phases and envelopes, so it keeps every voice normalised. */
  lemma {:induction false} AfterKeepsNormalised(vs: seq<VoiceState>, ext: Externals, n: nat)
    requires AllNormalised(vs)
    ensures AllNormalised(After(vs, ext, n))
  {
    if n > 0 {
      AfterKeepsNormalised(vs, ext, n - 1);
      var w := After(vs, ext, n - 1);
      forall i | 0 <= i < |w|
        ensures Step(w, ext)[i].gainVector == w[i].gainVector
        ensures Normalised(Step(w, ext)[i])
      {
        assert Step(w, ext)[i] == NextSample(w[i], ext).1;
      }
    }
  }

  /** With every voice normalised, the sum over `k` voices lies in [-k, k]. */
  lemma {:induction false} MixBounded(vs: seq<VoiceState>, ext: Externals, k: nat)
    requires AllNormalised(vs) && ext.Sound() && k <= |vs|
    ensures -(k as real) <= Mix(vs, ext, k) <= k as real
  {
    if k > 0 {
      MixBounded(vs, ext, k - 1);
      VoiceProperties.SampleBounded(vs[k - 1], ext);
    }
  }

  /** Scaling a sum over `nv` voices by `vol / nv`, with `vol` in [0, 1], gives a
      value in [-1, 1], which the clamp passes unchanged. */
  lemma OutputUnclamped(vol: real, nv: int, x: real)
    requires 0.0 <= vol <= 1.0 && nv > 0 && -(nv as real) <= x <= nv as real
    ensures -1.0 <= Scaled(vol, nv, x) <= 1.0
    ensures Output(vol, nv, x) == Scaled(vol, nv, x)
  {
    var q := 1.0 / nv as real;
    assert q * (nv as real) == 1.0;
    VoiceProperties.NormalisedBound(x, nv as real, q);
    VolumeScale(vol, x * q);
    assert vol * q * x == vol * (x * q);
  }

  lemma VolumeScale(vol: real, y: real)
    requires 0.0 <= vol <= 1.0 && -1.0 <= y <= 1.0
    ensures -1.0 <= vol * y <= 1.0
  {
    VoiceProperties.SignedScale(vol, y);
  }

  /** The clamp never engages while every voice stays normalised and the volume is
      in [0, 1]: each written sample is exactly `vol / numVoices` times the sum. */
  lemma NoClipping(vs: seq<VoiceState>, ext: Externals, vol: real, n: nat)
    requires AllNormalised(vs) && ext.Sound() && |vs| > 0 && 0.0 <= vol <= 1.0
    ensures Frame(vs, ext, vol, n) == Scaled(vol, |vs|, Mix(After(vs, ext, n), ext, |vs|))
  {
    var w := After(vs, ext, n);
    AfterKeepsNormalised(vs, ext, n);
    MixBounded(w, ext, |vs|);
    var x := Mix(w, ext, |vs|);
    OutputUnclamped(vol, |vs|, x);
    assert Frame(vs, ext, vol, n) == Output(vol, |vs|, x);
  }

  /** The condition of `NoClipping` is not kept by the processor: a note-on does
      not recompute the normaliser, so a voice normalised at one pitch can sum to 2
      at another, and the clamp then cuts the sample to 1. */
  lemma ClampEngagesAfterStaleNoteOn()
    ensures exists v: VoiceState, ext: Externals ::
      && v.WellFormed() && Normalised(v) && VoiceProperties.NonNegative(v.gainVector) && ext.Sound()
      && Mix([v.WithNoteOn(0.5, ext.pow2)], ext, 1) == 2.0
      && Frame([v.WithNoteOn(0.5, ext.pow2)], ext, 1.0, 0) == 1.0
  {
    var v := VoiceState(0.0, 1.5, [1.0, 1.0], [0.0, 0.0], [0.0, 0.0], Adsr.Fresh(), 4.0, 2.0, 1.0, 2);
    var ext := Externals(x => 1.0, c => 1.0, e => 1.0);
    assert AudibleGain(v.gainVector, 1.5, 2.0, 2) == 1.0;
    var w := v.WithNoteOn(0.5, ext.pow2);
    assert Oscillate(w, ext, 2).0 == 2.0;
    assert NextSample(w, ext).0 == 2.0;
    assert Mix([w], ext, 1) == 2.0;
    assert Frame([w], ext, 1.0, 0) == Output(1.0, 1, 2.0);
  }
}
