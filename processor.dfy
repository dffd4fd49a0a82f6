/** `AdditiveSynthPluginAudioProcessor`: six voices of sixteen harmonics, a
    round-robin cursor, the parameters the host writes, and `processBlock`, which
    pushes changed parameters to every voice, acts on the note-on and note-off
    flags and renders the block.  The voices are held by value, as in the
    source's `vector<SynthVoice>`: a sequence of voice states that the methods
    update element by element with the functions of module `Voice`.  Every method
    is proved to move the voices as the functions of `ProcessorModel` say. */
module Processor {
  import opened Library
  import opened Voice
  import Adsr
  import Pool
  import Mixer
  import opened ProcessorModel

  /** The processor's own fields, apart from the voices. */
  datatype ProcessorState = ProcessorState(
    f0: real,
    fs: real,
    gainVector: seq<real>,
    vol: real,
    cent: real,
    att: real,
    dec: real,
    sus: real,
    rel: real,
    nyquist: real,
    currentPlayingNotes: seq<real>,
    currentPreset: int,
    currentNoteIndex: int,
    host: HostParameters)

  /** The fields of a newly constructed processor. */
  function Defaults(numHarmonics: nat): (s: ProcessorState)
    ensures s.host.InRange() && |s.host.gains| == numHarmonics
    ensures s.nyquist == s.fs / 2.0 && s.currentNoteIndex == 0
  {
    ProcessorState(440.0, 44100.0, [], 0.5, 0.0, 0.5, 0.5, 1.0, 0.5, 44100.0 / 2.0, [], 1, 0,
                   DefaultHostParameters(numHarmonics))
  }

  /** The voices after the parameter section of a block that starts in state `s`
      with voices `vs`. */
  function ParametersApplied(s: ProcessorState, vs: seq<VoiceState>, pow2: real -> real): (r: seq<VoiceState>)
    requires Mixer.AllWellFormed(vs) && HarmonicsMatch(vs, |s.host.gains|)
    ensures |r| == |vs| && Mixer.AllWellFormed(r)
  {
    AfterParameters(vs, s.cent, Adsr.Parameters(s.att, s.dec, s.sus, s.rel), s.host, pow2)
  }

  /** The voices the render loop of that block starts from: after the parameter
      section and then the note flags, for the fundamental the host has set. */
  function BlockVoices(s: ProcessorState, vs: seq<VoiceState>, pow2: real -> real): (r: seq<VoiceState>)
    requires Mixer.AllWellFormed(vs) && HarmonicsMatch(vs, |s.host.gains|) && 0 <= s.currentNoteIndex < |vs|
    ensures |r| == |vs| && Mixer.AllWellFormed(r)
  {
    AfterNotes(ParametersApplied(s, vs, pow2), s.host.fundamentalFreq, s.currentNoteIndex,
               s.host.noteOn, s.host.noteOff, pow2)
  }

  class AdditiveSynthPluginAudioProcessor {
    var f0: real
    var fs: real
    var gainVector: seq<real>
    var vol: real
    const numHarmonics: int := 16
    const numVoices: int := 6
    var cent: real
    var att: real
    var dec: real
    var sus: real
    var rel: real
    var nyquist: real
    var currentPlayingNotes: seq<real>
    var currentPreset: int
    var currentNoteIndex: int
    var synthVoices: seq<VoiceState>
    var host: HostParameters

    function State(): ProcessorState
      reads this
    {
      ProcessorState(f0, fs, gainVector, vol, cent, att, dec, sus, rel, nyquist,
                     currentPlayingNotes, currentPreset, currentNoteIndex, host)
    }

    /** What the MIDI branch reads and writes. */
    function Midi(): MidiPool
      reads this
    {
      MidiPool(f0, currentPlayingNotes, synthVoices, currentNoteIndex)
    }

    /** What holds from construction on: the cursor indexes a voice and there is one
        gain parameter per harmonic. */
    ghost predicate Configured()
      reads this
    {
      0 <= currentNoteIndex < numVoices && |host.gains| == numHarmonics
    }

    /** What holds from `prepareToPlay` on: the per-harmonic and per-voice vectors at
        their sizes and every voice set up for sixteen harmonics at rate `fs`. */
    ghost predicate Valid()
      reads this
    {
      && Configured()
      && |gainVector| == numHarmonics
      && |currentPlayingNotes| == numVoices
      && |synthVoices| == numVoices
      && Ready(synthVoices, numHarmonics, fs)
    }

    constructor ()
      ensures Configured()
      ensures State() == Defaults(16) && synthVoices == []
    {
      f0 := 440.0;
      fs := 44100.0;
      gainVector := [];
      vol := 0.5;
      cent := 0.0;
      att, dec, sus, rel := 0.5, 0.5, 1.0, 0.5;
      nyquist := 44100.0 / 2.0;
      currentPlayingNotes := [];
      currentPreset := 1;
      currentNoteIndex := 0;
      synthVoices := [];
      host := DefaultHostParameters(16);
    }

    /** `prepareToPlay`: the new sample rate and Nyquist frequency, the gain vector
        [1, 0, ..., 0], a zero stored note per voice, and six default voices each set
        up for the new rate. The cursor, `f0`, `cent`, the volume and the envelope
        values are kept. */
    method PrepareToPlay(sampleRate: real, samplesPerBlock: int)
      requires Configured() && sampleRate > 0.0
      modifies this`fs, this`nyquist, this`gainVector, this`currentPlayingNotes, this`synthVoices
      ensures Valid()
      ensures fs == sampleRate && nyquist == sampleRate / 2.0
      ensures gainVector == UnitGains(numHarmonics) && currentPlayingNotes == Zeros(numVoices)
      ensures forall i :: 0 <= i < numVoices ==> synthVoices[i] == Fresh().Setup(sampleRate, numHarmonics)
    {
      fs := sampleRate;
      nyquist := fs / 2.0;
      gainVector := [];
      currentPlayingNotes := [];
      synthVoices := [];
      ResetGains();
      synthVoices := seq(numVoices, i => Fresh());
      SetUpVoices(sampleRate);
    }

    /** The first loop of `prepareToPlay`: sixteen zero gains, then the first set to 1. */
    method ResetGains()
      modifies this`gainVector
      ensures gainVector == UnitGains(numHarmonics)
    {
      gainVector := [];
      for h := 0 to numHarmonics
        invariant gainVector == Zeros(h)
      {
        gainVector := gainVector + [0.0];
      }
      gainVector := gainVector[0 := 1.0];
      assert gainVector == UnitGains(numHarmonics);
    }

    /** The last loop of `prepareToPlay`: a zero stored note per voice, and each
        default voice set up for the sample rate and sixteen harmonics. */
    method SetUpVoices(sampleRate: real)
      requires sampleRate > 0.0 && |synthVoices| == numVoices
      requires forall i :: 0 <= i < numVoices ==> synthVoices[i] == Fresh()
      modifies this`currentPlayingNotes, this`synthVoices
      ensures currentPlayingNotes == Zeros(numVoices) && |synthVoices| == numVoices
      ensures forall i :: 0 <= i < numVoices ==> synthVoices[i] == Fresh().Setup(sampleRate, numHarmonics)
      ensures Ready(synthVoices, numHarmonics, sampleRate)
    {
      currentPlayingNotes := [];
      ghost var ready := Fresh().Setup(sampleRate, numHarmonics);
      for i := 0 to numVoices
        invariant currentPlayingNotes == Zeros(i) && |synthVoices| == numVoices
        invariant forall k :: 0 <= k < i ==> synthVoices[k] == ready
        invariant forall k :: i <= k < numVoices ==> synthVoices[k] == Fresh()
      {
        currentPlayingNotes := currentPlayingNotes + [0.0];
        synthVoices := synthVoices[i := synthVoices[i].Setup(sampleRate, numHarmonics)];
      }
    }

    /** `processBlock` with `NOEDITOR` defined: the changed parameters are pushed to
        the voices in the order the source tests them, the note flags are acted on
        and cleared, and the block is rendered into both channels. */
    method ProcessBlock(outL: array<real>, outR: array<real>, ext: Externals)
      requires Valid() && outL != outR && outL.Length == outR.Length
      modifies this`vol, this`cent, this`f0, this`att, this`dec, this`sus, this`rel, this`gainVector,
               this`host, this`currentNoteIndex, this`synthVoices, outL, outR
      ensures Valid()
      ensures host == old(host).(noteOn := false, noteOff := false, harmonicsChanged := false)
      ensures vol == host.volume && cent == CentAfterAsWritten(old(cent), host.modulation) && f0 == host.fundamentalFreq
      ensures att == host.attack && dec == host.decay && sus == host.sustain && rel == host.release
      ensures gainVector == if old(host.harmonicsChanged) then host.gains else old(gainVector)
      ensures currentNoteIndex == if old(host.noteOn)
        then Pool.ParameterNoteOnCursor(Frequencies(ParametersApplied(old(State()), old(synthVoices), ext.pow2)),
                                        host.fundamentalFreq, old(currentNoteIndex))
        else old(currentNoteIndex)
      ensures synthVoices == Mixer.After(BlockVoices(old(State()), old(synthVoices), ext.pow2), ext, outL.Length)
      ensures forall n :: 0 <= n < outL.Length ==>
        outL[n] == outR[n] == Mixer.Frame(BlockVoices(old(State()), old(synthVoices), ext.pow2), ext, host.volume, n)
    {
      ghost var start, voices := State(), synthVoices;
      UpdateParameters(ext);
      ghost var tuned := synthVoices;
      assert tuned == ParametersApplied(start, voices, ext.pow2);
      ParameterNoteOn(ext);
      ParameterNoteOff();
      assert synthVoices == BlockVoices(start, voices, ext.pow2);
      Render(outL, outR, ext);
    }

    /** The parameter section of `processBlock`: each parameter compared with the
        value last used and, where it changed, taken over and pushed to the voices. */
    method UpdateParameters(ext: Externals)
      requires Valid()
      modifies this`vol, this`cent, this`f0, this`att, this`dec, this`sus, this`rel, this`gainVector,
               this`host, this`synthVoices
      ensures Valid()
      ensures host == old(host).(harmonicsChanged := false)
      ensures vol == host.volume && cent == CentAfterAsWritten(old(cent), host.modulation) && f0 == host.fundamentalFreq
      ensures att == host.attack && dec == host.decay && sus == host.sustain && rel == host.release
      ensures gainVector == if old(host.harmonicsChanged) then host.gains else old(gainVector)
      ensures synthVoices == ParametersApplied(old(State()), old(synthVoices), ext.pow2)
    {
      UpdateVolume();
      UpdateModulation(ext);
      UpdateFundamental();
      UpdateEnvelope();
      UpdateHarmonics();
    }

    /** The volume follows its parameter. */
    method UpdateVolume()
      modifies this`vol
      ensures vol == host.volume
    {
      if vol != host.volume {
        vol := host.volume;
      }
    }

    /** The modulation, with the test as written: when the stored `cent` differs
        from the raw parameter, `cent` becomes the parameter times 100 and every
        voice is given it and re-tuned. */
    method UpdateModulation(ext: Externals)
      requires Valid()
      modifies this`cent, this`synthVoices
      ensures Valid()
      ensures cent == CentAfterAsWritten(old(cent), host.modulation)
      ensures synthVoices == Retuned(old(synthVoices), old(cent), host, ext.pow2)
    {
      if cent != host.modulation {
        cent := host.modulation * 100.0;
        ghost var before := synthVoices;
        for i := 0 to numVoices
          modifies this`synthVoices
          invariant |synthVoices| == numVoices
          invariant forall k :: 0 <= k < i ==> synthVoices[k] == before[k].(cent := cent).WithTuning(ext.pow2)
          invariant forall k :: i <= k < numVoices ==> synthVoices[k] == before[k]
        {
          synthVoices := synthVoices[i := synthVoices[i].(cent := cent).WithTuning(ext.pow2)];
        }
        assert synthVoices == RetuneAll(before, cent, ext.pow2);
        ReadyKept(before, synthVoices, numHarmonics, fs);
      }
    }

    /** The fundamental follows its parameter; the voices keep theirs until a note-on. */
    method UpdateFundamental()
      modifies this`f0
      ensures f0 == host.fundamentalFreq
    {
      if f0 != host.fundamentalFreq {
        f0 := host.fundamentalFreq;
      }
    }

    /** The envelope values follow their parameters; when any of them changed, the
        new tuple is pushed to every voice. */
    method UpdateEnvelope()
      requires Valid()
      modifies this`att, this`dec, this`sus, this`rel, this`synthVoices
      ensures Valid()
      ensures att == host.attack && dec == host.decay && sus == host.sustain && rel == host.release
      ensures synthVoices == Enveloped(old(synthVoices), old(Adsr.Parameters(att, dec, sus, rel)), host)
    {
      if att != host.attack || dec != host.decay || sus != host.sustain || rel != host.release {
        att := host.attack;
        dec := host.decay;
        sus := host.sustain;
        rel := host.release;
        SetVoiceADSR(att, dec, sus, rel);
      }
    }

    /** `setVoiceADSR`: every voice given the same envelope parameters. */
    method SetVoiceADSR(attack: real, decay: real, sustain: real, release: real)
      requires Valid()
      modifies this`synthVoices
      ensures Valid()
      ensures synthVoices == EnvelopeAll(old(synthVoices), Adsr.Parameters(attack, decay, sustain, release))
    {
      ghost var before := synthVoices;
      var params := Adsr.Parameters(attack, decay, sustain, release);
      for i := 0 to numVoices
        invariant |synthVoices| == numVoices
        invariant forall k :: 0 <= k < i ==> synthVoices[k] == before[k].WithAdsrParameters(params)
        invariant forall k :: i <= k < numVoices ==> synthVoices[k] == before[k]
      {
        synthVoices := synthVoices[i := synthVoices[i].WithAdsrParameters(params)];
      }
      assert synthVoices == EnvelopeAll(before, params);
      ReadyKept(before, synthVoices, numHarmonics, fs);
    }

    /** When the host has flagged new harmonic gains, they are copied into
        `gainVector`, pushed to every voice, and the flag is cleared. */
    method UpdateHarmonics()
      requires Valid()
      modifies this`gainVector, this`host, this`synthVoices
      ensures Valid()
      ensures host == old(host).(harmonicsChanged := false)
      ensures gainVector == if old(host.harmonicsChanged) then host.gains else old(gainVector)
      ensures synthVoices == Regained(old(synthVoices), old(host))
    {
      if host.harmonicsChanged {
        for h := 0 to numHarmonics
          modifies this`gainVector
          invariant |gainVector| == numHarmonics
          invariant forall k :: 0 <= k < h ==> gainVector[k] == host.gains[k]
        {
          gainVector := gainVector[h := host.gains[h]];
        }
        assert gainVector == host.gains;
        SetVoiceHarmonics();
        host := host.(harmonicsChanged := false);
      }
    }

    /** `setVoiceHarmonics`: every voice given the processor's gain vector. */
    method SetVoiceHarmonics()
      requires Valid()
      modifies this`synthVoices
      ensures Valid()
      ensures synthVoices == GainsAll(old(synthVoices), gainVector)
    {
      ghost var before := synthVoices;
      for i := 0 to numVoices
        invariant |synthVoices| == numVoices
        invariant forall k :: 0 <= k < i ==> synthVoices[k] == before[k].WithGains(gainVector)
        invariant forall k :: i <= k < numVoices ==> synthVoices[k] == before[k]
      {
        synthVoices := synthVoices[i := synthVoices[i].WithGains(gainVector)];
      }
      assert synthVoices == GainsAll(before, gainVector);
      ReadyKept(before, synthVoices, numHarmonics, fs);
    }

    /** The note-on flag: every voice already at `f0` is re-triggered and the cursor
        moves to the last of them; if none is, the cursor advances first and the
        voice under it plays `f0`. The flag is cleared. */
    method ParameterNoteOn(ext: Externals)
      requires Valid()
      modifies this`currentNoteIndex, this`host, this`synthVoices
      ensures Valid()
      ensures host == old(host).(noteOn := false)
      ensures old(host.noteOn) ==>
        && synthVoices == NoteOnAt(old(synthVoices), Pool.ParameterNoteOnTargets(Frequencies(old(synthVoices)), f0, old(currentNoteIndex)), f0, ext.pow2)
        && currentNoteIndex == Pool.ParameterNoteOnCursor(Frequencies(old(synthVoices)), f0, old(currentNoteIndex))
      ensures !old(host.noteOn) ==> currentNoteIndex == old(currentNoteIndex) && synthVoices == old(synthVoices)
    {
      if host.noteOn {
        ghost var before := synthVoices;
        ParameterNoteOnInTwoSteps(before, f0, currentNoteIndex, ext.pow2);
        var noteExists := RetriggerMatching(ext);
        if !noteExists {
          StartNote(ext);
        }
        host := host.(noteOn := false);
      }
    }

    /** No voice plays `f0`: the cursor advances, then the voice under it plays `f0`. */
    method StartNote(ext: Externals)
      requires Valid()
      modifies this`currentNoteIndex, this`synthVoices
      ensures Valid()
      ensures currentNoteIndex == Pool.NextCursor(old(currentNoteIndex), numVoices)
      ensures synthVoices == NoteOnAt(old(synthVoices), {currentNoteIndex}, f0, ext.pow2)
    {
      ghost var before := synthVoices;
      currentNoteIndex := currentNoteIndex + 1;
      if currentNoteIndex >= numVoices {
        currentNoteIndex := 0;
      }
      synthVoices := synthVoices[currentNoteIndex := synthVoices[currentNoteIndex].WithNoteOn(f0, ext.pow2)];
      assert synthVoices == NoteOnAt(before, {currentNoteIndex}, f0, ext.pow2);
      ReadyKept(before, synthVoices, numHarmonics, fs);
    }

    /** The scan of the note-on: every voice at `f0` is re-triggered and the cursor
        is left on the last of them. Tells whether there was one. */
    method RetriggerMatching(ext: Externals) returns (noteExists: bool)
      requires Valid()
      modifies this`currentNoteIndex, this`synthVoices
      ensures Valid()
      ensures noteExists <==> Pool.LastMatch(Frequencies(old(synthVoices)), f0) >= 0
      ensures currentNoteIndex == if noteExists then Pool.LastMatch(Frequencies(old(synthVoices)), f0) else old(currentNoteIndex)
      ensures synthVoices == NoteOnAt(old(synthVoices), Pool.Matches(Frequencies(old(synthVoices)), f0), f0, ext.pow2)
    {
      ghost var before := synthVoices;
      ghost var freqs := Frequencies(before);
      noteExists := false;
      for i := 0 to numVoices
        invariant noteExists <==> Pool.LastMatch(freqs[..i], f0) >= 0
        invariant currentNoteIndex == if noteExists then Pool.LastMatch(freqs[..i], f0) else old(currentNoteIndex)
        invariant synthVoices == NoteOnAt(before, Pool.Matches(freqs[..i], f0), f0, ext.pow2)
      {
        Pool.LastMatchNext(freqs, i, f0);
        RetriggerNext(before, i, f0, ext.pow2);
        if f0 == synthVoices[i].f0 {
          synthVoices := synthVoices[i := synthVoices[i].WithNoteOn(f0, ext.pow2)];
          noteExists := true;
          currentNoteIndex := i;
        }
      }
      assert freqs[..numVoices] == freqs;
      ReadyKept(before, synthVoices, numHarmonics, fs);
    }

    /** The note-off flag: every voice at `f0` is released, and the flag cleared. */
    method ParameterNoteOff()
      requires Valid()
      modifies this`host, this`synthVoices
      ensures Valid()
      ensures host == old(host).(noteOff := false)
      ensures synthVoices == if old(host.noteOff) then NoteOffAt(old(synthVoices), Pool.Matches(Frequencies(old(synthVoices)), f0))
                             else old(synthVoices)
    {
      if host.noteOff {
        ghost var before := synthVoices;
        ghost var freqs := Frequencies(before);
        for i := 0 to numVoices
          modifies this`synthVoices
          invariant |synthVoices| == numVoices
          invariant forall k :: 0 <= k < i ==>
            synthVoices[k] == if freqs[k] == f0 then before[k].WithNoteOff() else before[k]
          invariant forall k :: i <= k < numVoices ==> synthVoices[k] == before[k]
        {
          if f0 == synthVoices[i].f0 {
            synthVoices := synthVoices[i := synthVoices[i].WithNoteOff()];
          }
        }
        host := host.(noteOff := false);
        assert synthVoices == NoteOffAt(before, Pool.Matches(freqs, f0));
        ReadyKept(before, synthVoices, numHarmonics, fs);
      }
    }

    /** The render loop: at every position of the block the sum of all voices' next
        samples, scaled by `vol / numVoices` and clamped, goes to both channels. */
    method Render(outL: array<real>, outR: array<real>, ext: Externals)
      requires Valid() && outL != outR && outL.Length == outR.Length
      modifies this`synthVoices, outL, outR
      ensures Valid()
      ensures synthVoices == Mixer.After(old(synthVoices), ext, outL.Length)
      ensures forall n :: 0 <= n < outL.Length ==> outL[n] == outR[n] == Mixer.Frame(old(synthVoices), ext, vol, n)
    {
      ghost var before := synthVoices;
      for n := 0 to outL.Length
        invariant Valid()
        invariant synthVoices == Mixer.After(before, ext, n)
        invariant forall k :: 0 <= k < n ==> outL[k] == outR[k] == Mixer.Frame(before, ext, vol, k)
      {
        RenderSample(outL, outR, n, before, ext);
      }
    }

    /** One pass of the render loop, with the voices `n` samples on from `start`:
        sample `n` of both channels is the mixed sum, scaled and clamped, and every
        voice moves one sample on. */
    method RenderSample(outL: array<real>, outR: array<real>, n: nat, ghost start: seq<VoiceState>, ext: Externals)
      requires Valid() && outL != outR && n < outL.Length == outR.Length
      requires Mixer.AllWellFormed(start) && |start| == numVoices && synthVoices == Mixer.After(start, ext, n)
      modifies this`synthVoices, outL, outR
      ensures Valid()
      ensures synthVoices == Mixer.After(start, ext, n + 1)
      ensures outL[n] == outR[n] == Mixer.Frame(start, ext, vol, n)
      ensures forall k :: 0 <= k < outL.Length && k != n ==> outL[k] == old(outL[k]) && outR[k] == old(outR[k])
    {
      var x := MixVoices(ext);
      x := Mixer.Scaled(vol, numVoices, x);
      x := Mixer.Limit(-1.0, 1.0, x);
      outL[n] := x;
      outR[n] := x;
    }

    /** The inner loop of the render loop: every voice's next sample, summed. */
    method MixVoices(ext: Externals) returns (x: real)
      requires Valid()
      modifies this`synthVoices
      ensures Valid()
      ensures x == Mixer.Mix(old(synthVoices), ext, numVoices)
      ensures synthVoices == Mixer.Step(old(synthVoices), ext)
    {
      ghost var before := synthVoices;
      x := 0.0;
      for i := 0 to numVoices
        invariant |synthVoices| == numVoices
        invariant x == Mixer.Mix(before, ext, i)
        invariant forall k :: 0 <= k < i ==> synthVoices[k] == NextSample(before[k], ext).1
        invariant forall k :: i <= k < numVoices ==> synthVoices[k] == before[k]
      {
        var sample := NextSample(synthVoices[i], ext);
        synthVoices := synthVoices[i := sample.1];
        x := x + sample.0;
      }
      assert synthVoices == Mixer.Step(before, ext);
      ReadyKept(before, synthVoices, numHarmonics, fs);
    }

    /** The MIDI branch of `processBlock`, which the `NOEDITOR` build compiles out:
        the events are handled in order. */
    method HandleMidi(events: seq<MidiEvent>, ext: Externals)
      requires Valid()
      modifies this`f0, this`currentPlayingNotes, this`synthVoices, this`currentNoteIndex
      ensures Valid()
      ensures Midi() == MidiRun(old(Midi()), events, ext.pow2)
      ensures currentNoteIndex == Pool.MidiCursorAfter(old(currentNoteIndex), numVoices, NoteOnCount(events))
    {
      for j := 0 to |events|
        invariant Valid()
        invariant Midi() == MidiRun(old(Midi()), events[..j], ext.pow2)
      {
        assert events[..j + 1][..j] == events[..j];
        match events[j]
        case NoteOnEvent(note) =>
          MidiNoteOn(note, ext);
        case NoteOffEvent(note) =>
          MidiNoteOff(note);
        case OtherEvent =>
      }
      assert events[..|events|] == events;
      MidiRunCursor(old(Midi()), events, ext.pow2);
    }

    /** A MIDI note-on: `f0` becomes the note's frequency, the note number is stored
        under the cursor, the voice under the cursor starts, and the cursor advances. */
    method MidiNoteOn(note: int, ext: Externals)
      requires Valid()
      modifies this`f0, this`currentPlayingNotes, this`synthVoices, this`currentNoteIndex
      ensures Valid()
      ensures Midi() == MidiStep(old(Midi()), NoteOnEvent(note), ext.pow2)
    {
      ghost var before := synthVoices;
      f0 := MidiNoteInHertz(note, ext.pow2);
      currentPlayingNotes := currentPlayingNotes[currentNoteIndex := note as real];
      synthVoices := synthVoices[currentNoteIndex := synthVoices[currentNoteIndex].WithNoteOn(f0, ext.pow2)];
      assert synthVoices == NoteOnAt(before, {currentNoteIndex}, f0, ext.pow2);
      currentNoteIndex := currentNoteIndex + 1;
      if currentNoteIndex >= numVoices {
        currentNoteIndex := 0;
      }
      ReadyKept(before, synthVoices, numHarmonics, fs);
    }

    /** A MIDI note-off: every voice whose stored note number is `note` is released. */
    method MidiNoteOff(note: int)
      requires Valid()
      modifies this`synthVoices
      ensures Valid()
      ensures synthVoices == NoteOffAt(old(synthVoices), Pool.MidiReleaseTargets(currentPlayingNotes, note))
    {
      ghost var before := synthVoices;
      for i := 0 to numVoices
        invariant |synthVoices| == numVoices
        invariant forall k :: 0 <= k < i ==>
          synthVoices[k] == if note as real == currentPlayingNotes[k] then before[k].WithNoteOff() else before[k]
        invariant forall k :: i <= k < numVoices ==> synthVoices[k] == before[k]
      {
        if note as real == currentPlayingNotes[i] {
          synthVoices := synthVoices[i := synthVoices[i].WithNoteOff()];
        }
      }
      assert synthVoices == NoteOffAt(before, Pool.MidiReleaseTargets(currentPlayingNotes, note));
      ReadyKept(before, synthVoices, numHarmonics, fs);
    }
  }
}
