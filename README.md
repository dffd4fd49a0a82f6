# AdditiveSynthPlugin in Dafny

A model of the synthesis core of AdditiveSynthPlugin, a JUCE audio plug-in:

- `SynthVoice` is one voice: a bank of sixteen sine oscillators, one per
  harmonic of a fundamental `f0`. Each has a phase, a phase increment and a
  gain. The voice also holds a gain normaliser and an ADSR envelope.
- `AdditiveSynthPluginAudioProcessor` owns six such voices. In the `NOEDITOR`
  build that the source selects, the host drives it through parameters:
  - volume, modulation in semitones, fundamental frequency and the four
    envelope values;
  - a note-on flag, a note-off flag and a harmonics-changed flag;
  - sixteen harmonic gains.

  Each `processBlock` pushes changed parameters to the voices. It then acts on
  the note flags, picking voices round-robin with the cursor
  `currentNoteIndex`. Finally it renders the block: the voices' samples are
  summed, scaled by `vol / numVoices`, clamped to [-1, 1] and written to both
  channels.

Files:

- `adsr.dfy` (module `Adsr`): the envelope, kept abstract. It records its
  parameters, sample rate, whether its note is held, and how many samples have
  been drawn from it.
- `library.dfy` (module `Library`): pi and the foreign calls. `sin`,
  `powf(2, .)` and the envelope's level curve are passed in as `Externals`,
  with `Sound()` stating the bounds the proofs rely on.
- `voice.dfy` (module `Voice`):
  - `VoiceState` holds a voice's fields, with one function per operation.
  - The class `SynthVoice` holds the same fields. Each of its methods is
    proved to move its state exactly as the matching function says.
  - The loops of `setup` and `getNextSample` run in the value-level methods
    `SetupVectors` and `Oscillators`, which the class methods call.
- `voice_properties.dfy` (module `VoiceProperties`): what a voice promises.
  - A normalised sample lies in [-1, 1].
  - The envelope is drawn once per audible harmonic.
  - Phases stay in [0, 2 pi] while every increment is at most one turn. An
    ordinary note breaks that: at 3000 Hz and a 44100 Hz rate the sixteenth
    harmonic's increment exceeds one turn, and its phase then grows without
    bound, since one wrap per sample no longer keeps up.
  - `setup`'s increments agree with `setAngleChange`'s.
  - The division by zero of the normaliser.
- `mixer.dfy` (module `Mixer`): the render loop as functions of the voices.
  This covers the mix, the voices after `n` samples, the frame written at
  position `n`, and `limit`. The clamp never engages while every voice stays
  normalised (`NoClipping`). The processor does not keep that up: a note-on
  keeps the normaliser of the previous pitch, and the clamp can then engage
  (`ClampEngagesAfterStaleNoteOn`).
- `pool.dfy` (module `Pool`): which voices a note-on or note-off reaches and
  where the cursor goes, for the parameter path and for the MIDI path.
- `processor_model.dfy` (module `ProcessorModel`):
  - The processor's effect on its voices, as functions on sequences of voice
    states: `NoteOnAt`, `NoteOffAt`, `RetuneAll`, `EnvelopeAll`, `GainsAll`.
  - The host parameters and their defaults, and `isOdd`.
  - The modulation test, as written and corrected.
  - The voices after the parameter section (`AfterParameters`) and after the
    note flags (`AfterNotes`) of one block.
  - The MIDI branch as a function over a list of events.
- `processor.dfy` (module `Processor`): the class
  `AdditiveSynthPluginAudioProcessor`.
  - Its methods follow `prepareToPlay` and `processBlock`.
  - `processBlock` is split into one method per section, with each loop kept.
    The modulation section uses the test as the source writes it.
  - The voices are a `seq<VoiceState>` field, updated element by element,
    because the source's `vector<SynthVoice>` holds its voices by value.

Where the plug-in's documented behaviour and its code differ, the model follows
the code:

- A phase can reach 2 pi exactly: the wrap test is a strict `>` (lemma
  `PhaseCanReachTwoPi`).
- The parameter note-on advances the cursor before it assigns a voice. From
  the initial cursor 0, the first new note goes to voice 1; only the MIDI
  branch assigns the voice under the cursor first.
- Every fresh voice has `f0 = 220`. So the first parameter note-on at 220 Hz
  re-triggers all six voices (`FirstNoteAt220RetriggersAll`).

## Model

| member | source | states |
|---|---|---|
| `Voice.VoiceState.Setup` | Source/SynthVoice.cpp:23-47 | the state `setup` leaves is well formed: all three vectors have `n` entries, the rate is positive and the Nyquist frequency is half of it |
| `Voice.VoiceState.WithGains` | Source/SynthVoice.cpp:70-88 | `setHarmonicGain` keeps the voice well formed and changes only the gains and the normaliser, which is the guarded reciprocal of the new audible total |
| `Voice.VoiceState.WithTuning` | Source/SynthVoice.cpp:107-113 | `setAngleChange` keeps the voice well formed and changes only the increments; harmonic `h`'s is `h + 1` times the fundamental's |
| `Voice.VoiceState.WithNoteOn` | Source/SynthVoice.cpp:95-100 | `noteOn` is: set `f0`, then `setAngleChange`, then trigger the envelope; gains and normaliser are unchanged |
| `Voice.VoiceState.WithNoteOff` | Source/SynthVoice.cpp:102-105 | `noteOff` releases the envelope and changes nothing else |
| `Voice.VoiceState.WithAdsrParameters` | Source/SynthVoice.cpp:90-93 | `setADSRParams` installs the parameters and changes nothing else, not even the envelope's held flag or position |
| `Voice.Fresh` | Source/SynthVoice.h:36-57 | a default-constructed voice (`cent` 0, `f0` 220, `Fs` 48000, empty vectors) is not yet usable: it is not well formed until `setup` |
| `Voice.Reciprocal` | Source/SynthVoice.cpp:87 | corrected normaliser: a non-zero total times its normaliser is exactly 1, and a zero total gives 0 instead of a division by zero |
| `Voice.ReciprocalAsWritten` | Source/SynthVoice.cpp:79-87 | `1.f / totalGain` as written is finite exactly when the total is non-zero, and is then the exact reciprocal; a zero total gives +infinity |
| `Voice.Tuning` | Source/SynthVoice.cpp:107-113 | after `setAngleChange`, harmonic `h` turns `h + 1` times as fast as the fundamental, for every `h` |
| `Voice.Advance` | Source/SynthVoice.cpp:59-64 | a phase step adds the increment and removes at most one full turn; a phase and increment in [0, 2 pi] give a phase in [0, 2 pi] |
| `Voice.NextSample` | Source/SynthVoice.cpp:49-68 | `getNextSample` leaves the voice well formed and changes only its phases and its envelope |
| `Voice.SetupVectors` | Source/SynthVoice.cpp:35-42 | the vector loop of `setup` yields the gains [1, 0, ..., 0], all phases 0, and harmonic `h`'s increment `f0 * (h + 1) * 2 pi / Fs` |
| `Voice.Oscillators` | Source/SynthVoice.cpp:51-65 | the harmonic loop computes the oscillator sum of the audible harmonics, the envelope after one draw per audible harmonic, and every phase advanced |
| `Voice.Oscillate` | Source/SynthVoice.cpp:53-58 | the oscillator sum over the first `n` harmonics leaves every envelope field but its sample count as it was, and never moves the count back |
| `Voice.SynthVoice.constructor` | Source/SynthVoice.h:36-57 | a new voice has the default state, field by field |
| `Voice.SynthVoice.Setup` | Source/SynthVoice.cpp:23-47 | `setup` leaves the voice well formed and in exactly the state `VoiceState.Setup` gives |
| `Voice.SynthVoice.GetNextSample` | Source/SynthVoice.cpp:49-68 | the returned sample is the normalised oscillator sum, and the new state is the voice one sample on |
| `Voice.SynthVoice.SetHarmonicGain` | Source/SynthVoice.cpp:70-75 | the voice takes the new gains and a normaliser recomputed for them; nothing else changes |
| `Voice.SynthVoice.ComputeAverageGain` | Source/SynthVoice.cpp:77-88 | `averagedGain` becomes the guarded reciprocal of the summed gains of the harmonics below Nyquist |
| `Voice.SynthVoice.SetAdsrParams` | Source/SynthVoice.cpp:90-93 | only the envelope's parameters change |
| `Voice.SynthVoice.NoteOn` | Source/SynthVoice.cpp:95-100 | the voice takes the new `f0` and its increments, and the envelope is triggered; gains and normaliser are untouched |
| `Voice.SynthVoice.NoteOff` | Source/SynthVoice.cpp:102-105 | only the envelope is released |
| `Voice.SynthVoice.SetAngleChange` | Source/SynthVoice.cpp:107-113 | every increment becomes `2 pi f0 (h + 1) 2^(cent/1200) / Fs`; nothing else changes |
| `VoiceProperties.OscillateBounded` | Source/SynthVoice.cpp:53-65 | with non-negative gains, the oscillator sum never exceeds the total gain of the audible harmonics, in either direction |
| `VoiceProperties.EnvelopeDrawnPerAudibleHarmonic` | Source/SynthVoice.cpp:55-58 | each call moves the envelope on by the number of audible harmonics, not by one, and changes nothing else about it |
| `VoiceProperties.SampleBounded` | Source/SynthVoice.cpp:49-68 | a normalised voice with non-negative gains produces samples in [-1, 1] |
| `VoiceProperties.NormaliserIdentity` | Source/SynthVoice.cpp:77-88 | whenever the audible gains do not total zero, the normaliser times the total is 1 |
| `VoiceProperties.SilentVoiceIsQuiet` | Source/SynthVoice.cpp:67 | a voice whose audible gains total zero outputs 0, with the guarded normaliser |
| `VoiceProperties.NothingAudibleAboveNyquist` | Source/SynthVoice.cpp:80-86 | a fundamental at or above Nyquist gates out every harmonic, so the total is 0 |
| `VoiceProperties.OnlyAudibleGainsCount` | Source/SynthVoice.cpp:79-86 | the total `computeAverageGain` forms depends only on the gains of the harmonics below Nyquist |
| `VoiceProperties.AudibleGainNonNegative` | Source/SynthVoice.cpp:79-86 | non-negative gains give a non-negative audible total |
| `VoiceProperties.SilentGainsDivideByZero` | Source/SynthVoice.cpp:79-87 | as written, sixteen zero gains make `computeAverageGain` divide by zero |
| `VoiceProperties.HighNoteDividesByZero` | Source/SynthVoice.cpp:79-87 | as written, a 20000 Hz fundamental at a 32000 Hz rate makes `computeAverageGain` divide by zero, whatever the gains |
| `VoiceProperties.SetupNormaliser` | Source/SynthVoice.cpp:42-46 | after `setup` the voice is normalised, with normaliser 1 when `f0` is below Nyquist and 0 otherwise |
| `VoiceProperties.SetupPhasesAndGains` | Source/SynthVoice.cpp:35-42 | after `setup` every phase is 0, the gains are [1, 0, ..., 0] and Nyquist is half the rate |
| `VoiceProperties.SetupAgreesWithTuning` | Source/SynthVoice.cpp:35-40 | `setup`'s increments equal those `setAngleChange` computes at zero cents |
| `VoiceProperties.PhasesStayInRange` | Source/SynthVoice.cpp:59-64 | every phase advances, audible or not, and phases stay in [0, 2 pi] while increments are at most one turn |
| `VoiceProperties.Run` | Source/SynthVoice.cpp:49-68 | `k` calls of `getNextSample` keep the voice well formed, with its harmonic count and increments unchanged |
| `VoiceProperties.RunPhase` | Source/SynthVoice.cpp:59-64 | after `k` samples, harmonic `h`'s phase is its phase stepped `k` times by its increment, independently of the other harmonics and the envelope |
| `VoiceProperties.Drift` | Source/SynthVoice.cpp:61-64 | the excess over one turn accumulated over `k` steps is never negative when the excess is not |
| `VoiceProperties.DriftIsProduct` | Source/SynthVoice.cpp:61-64 | the accumulated excess after `k` steps is `k` times the excess |
| `VoiceProperties.FastPhaseGrows` | Source/SynthVoice.cpp:61-64 | a phase stepped `k` times by an increment above one turn is its start plus the accumulated excess: the wrap removes one turn per step and cannot keep up, so the phase leaves [0, 2 pi] for good |
| `VoiceProperties.FastHarmonicLeavesRange` | Source/SynthVoice.cpp:59-64 | a harmonic whose increment exceeds one turn has, after `k` samples, its starting phase plus the accumulated excess, `k` times the excess by `DriftIsProduct` |
| `VoiceProperties.HighHarmonicOutrunsTurn` | Source/SynthVoice.cpp:95-113 | after `setup` at 44100 Hz with sixteen harmonics, a note-on at 3000 Hz gives the sixteenth harmonic an increment above one turn |
| `VoiceProperties.PhaseCanReachTwoPi` | Source/SynthVoice.cpp:61-64 | the wrap test is strict, so a phase can land on 2 pi exactly |
| `VoiceProperties.NoteOnKeepsStaleNormaliser` | Source/SynthVoice.cpp:95-100 | `noteOn` does not recompute the normaliser, so a normalised voice can stop being normalised after a note at another pitch |
| `Mixer.Limit` | Source/PluginProcessor.cpp:383-388 | the result lies in [-1, 1]; values inside pass unchanged and values outside go to the nearer bound; the bounds passed in are ignored |
| `Mixer.Step` | Source/PluginProcessor.cpp:333-338 | one pass of the voice loop moves every voice one sample on and keeps the pool size, well-formedness and setups |
| `Mixer.After` | Source/PluginProcessor.cpp:328-344 | the voices after `n` samples keep the pool size, well-formedness and setups |
| `Mixer.AfterKeepsNormalised` | Source/PluginProcessor.cpp:328-344 | rendering any number of samples keeps every voice normalised with non-negative gains |
| `Mixer.MixBounded` | Source/PluginProcessor.cpp:335-338 | the sum over `k` normalised voices lies in [-k, k] |
| `Mixer.OutputUnclamped` | Source/PluginProcessor.cpp:340-341 | a sum over `nv` voices scaled by `vol / nv`, with `vol` in [0, 1], lies in [-1, 1] and passes the clamp unchanged |
| `Mixer.NoClipping` | Source/PluginProcessor.cpp:339-342 | while the voices stay normalised and the volume is in [0, 1], each written sample is exactly `vol / numVoices` times the sum: the clamp never engages |
| `Mixer.Frame` | Source/PluginProcessor.cpp:330-342 | the sample written at position `n`, the clamped `vol / numVoices` times the sum over the voices `n` samples on (`Mix`, which has no contract of its own), lies in [-1, 1] |
| `Mixer.ClampEngagesAfterStaleNoteOn` | Source/PluginProcessor.cpp:339-342 | a normalised voice given a note-on at a lower pitch keeps its old normaliser; its next sample is 2.0, so the clamp engages and writes 1.0 |
| `Pool.NextCursor` | Source/PluginProcessor.cpp:304-305 | the cursor step stays inside the pool and is `(cursor + 1) mod n` |
| `Pool.LastMatch` | Source/PluginProcessor.cpp:291-300 | the highest index at `f` holds `f` and nothing after it does, and it is -1 exactly when no entry is `f` |
| `Pool.ParameterNoteOnCursor` | Source/PluginProcessor.cpp:288-311 | the cursor after a parameter note-on still indexes a voice |
| `Pool.MidiRoundRobin` | Source/PluginProcessor.cpp:239-242 | the `k`-th MIDI note-on, for `k` up to the pool size, goes to voice `cursor + k` wrapped around the pool |
| `Pool.MidiPoolWrapsAfterSix` | Source/PluginProcessor.cpp:233-243 | six MIDI note-ons take six different voices, and the seventh reuses the first one's voice |
| `Pool.ParameterNoteOnTargets` | Source/PluginProcessor.cpp:291-308 | a parameter note-on always reaches at least one voice, and only voices inside the pool |
| `Pool.ParameterNoteOnReaches` | Source/PluginProcessor.cpp:288-311 | a parameter note-on reaches exactly the voices at `f` when there are any, and otherwise only voice `(cursor + 1) mod n`; the cursor ends on a reached voice |
| `Pool.ParameterNoteOnSkipsCursorVoice` | Source/PluginProcessor.cpp:302-308 | a new parameter note never lands on the voice under the cursor, and from cursor 0 it goes to voice 1 |
| `Pool.FirstNoteAt220RetriggersAll` | Source/PluginProcessor.cpp:291-300 | with every voice at 220 Hz, a note-on at 220 Hz reaches all six voices and leaves the cursor on voice 5 |
| `Pool.RepeatedNoteSharesVoices` | Source/PluginProcessor.cpp:291-300 | a note-on at a frequency already playing takes no new voice, and the cursor goes to the last voice at it |
| `ProcessorModel.DefaultHostParameters` | Source/PluginProcessor.cpp:29-91 | the default parameters lie in their registered ranges, with one gain per harmonic and no flag set |
| `ProcessorModel.CRemainder` | Source/PluginProcessor.h:113 | C++ `%`: the remainder of a non-negative dividend is in [0, b), and that of a negative dividend is in (-b, 0] |
| `ProcessorModel.IsOdd` | Source/PluginProcessor.h:113 | `isOdd` holds exactly for the values not divisible by 2, negative ones included |
| `ProcessorModel.IsOddOfNegative` | Source/PluginProcessor.h:113 | the C++ remainder of -3 by 2 is -1, and `isOdd(-3)` still holds while `isOdd(-4)` does not |
| `ProcessorModel.CentFollowsModulation` | Source/PluginProcessor.cpp:259-267 | with the corrected test, `cent` always becomes 100 times the parameter, and a second block with the same parameter re-tunes nothing |
| `ProcessorModel.ModulationChangeLost` | Source/PluginProcessor.cpp:259-267 | as written, moving the parameter from 0.05 to 5 leaves `cent` at 5 instead of 500; the corrected test gives 500 |
| `ProcessorModel.CentAfterAsWritten` | Source/PluginProcessor.cpp:259-261 | with the test as written, `cent` after a block is either 100 times the parameter or the parameter itself |
| `ProcessorModel.CorrectedTestMissesReset` | Source/PluginProcessor.cpp:259-267 | with `cent` at 500 and the parameter at 5, as after a second `prepareToPlay` whose fresh voices sit at 0 cents, the test as written fires and re-tunes the voices (`cent` stays 500), while the corrected test would not fire |
| `ProcessorModel.AsWrittenRefreshesEveryBlock` | Source/PluginProcessor.cpp:259-261 | as written, a block re-tunes every voice again exactly when the parameter is non-zero, even if it did not change |
| `ProcessorModel.NoteOnAt` | Source/PluginProcessor.cpp:288-311 | starting notes on a set of voices keeps the pool size, every voice well formed and every voice's setup |
| `ProcessorModel.NoteOffAt` | Source/PluginProcessor.cpp:313-323 | releasing a set of voices keeps the pool size, every voice well formed and every voice's setup |
| `ProcessorModel.RetuneAll` | Source/PluginProcessor.cpp:262-266 | re-tuning every voice keeps the pool size, every voice well formed and every voice's setup |
| `ProcessorModel.EnvelopeAll` | Source/PluginProcessor.cpp:397-401 | `setVoiceADSR` keeps the pool size, well-formedness and setups |
| `ProcessorModel.GainsAll` | Source/PluginProcessor.cpp:391-395 | `setVoiceHarmonics` keeps the pool size, well-formedness and setups |
| `ProcessorModel.Retuned` | Source/PluginProcessor.cpp:259-267 | the modulation section, with the test as written, keeps the pool size, well-formedness and setups |
| `ProcessorModel.Enveloped` | Source/PluginProcessor.cpp:269-276 | the envelope section keeps the pool size, well-formedness and setups |
| `ProcessorModel.Regained` | Source/PluginProcessor.cpp:278-285 | the gains section keeps the pool size, well-formedness and setups |
| `ProcessorModel.AfterParameters` | Source/PluginProcessor.cpp:257-285 | the whole parameter section keeps the pool size, well-formedness, the harmonic count and setups |
| `ProcessorModel.ParameterSectionPushes` | Source/PluginProcessor.cpp:257-285 | after the parameter section, flagged gains are in every voice with a fresh normaliser; a changed envelope is in every voice; when the test as written fires, every voice sits at 100 times the parameter in cents |
| `ProcessorModel.AfterNotes` | Source/PluginProcessor.cpp:287-323 | the note-on then note-off steps of a block keep the pool size, well-formedness and setups |
| `ProcessorModel.ParameterNoteOnInTwoSteps` | Source/PluginProcessor.cpp:288-311 | the note-on's effect on the voices equals re-triggering the voices at `f`, then, only when there were none, starting the voice after the cursor |
| `ProcessorModel.ParameterNoteOnPlays` | Source/PluginProcessor.cpp:288-311 | after a parameter note-on, the voice under the cursor plays `f` with its envelope triggered, and every voice not reached is unchanged |
| `ProcessorModel.ParameterNoteOffReleases` | Source/PluginProcessor.cpp:313-323 | a parameter note-off releases the envelope of each voice at `f` and changes nothing else; other voices are untouched |
| `ProcessorModel.MidiStep` | Source/PluginProcessor.cpp:235-254 | one MIDI event keeps the pool consistent: one note per voice, the cursor inside the pool, and every voice's harmonic count and rate unchanged |
| `ProcessorModel.MidiRun` | Source/PluginProcessor.cpp:233-255 | a whole list of MIDI events keeps the pool consistent in the same sense |
| `ProcessorModel.MidiRunCursor` | Source/PluginProcessor.cpp:233-255 | after a list of events the cursor has moved on once per note-on, round-robin; other events do not move it |
| `ProcessorModel.MidiNoteOffReleasesItsVoice` | Source/PluginProcessor.cpp:235-253 | after a note-on and the note-off of the same note, the voice the note-on took plays the note's frequency and is released |
| `Processor.Defaults` | Source/PluginProcessor.h:63-83 | a new processor's parameters are in range with one gain per harmonic, Nyquist is half the rate, and the cursor is 0 |
| `Processor.ParametersApplied` | Source/PluginProcessor.cpp:257-285 | the voices after the parameter section, for a processor's stored values, keep the pool size and well-formedness |
| `Processor.BlockVoices` | Source/PluginProcessor.cpp:257-323 | the voices after the parameter section and the note flags keep the pool size and well-formedness |
| `Processor.AdditiveSynthPluginAudioProcessor.constructor` | Source/PluginProcessor.h:63-83 | a new processor holds exactly the default fields, no voices yet, and a cursor inside the pool |
| `Processor.AdditiveSynthPluginAudioProcessor.PrepareToPlay` | Source/PluginProcessor.cpp:162-182 | the new rate and Nyquist are stored, the gains become [1, 0, ..., 0], and there is a zero note per voice; all six voices are default voices set up for the rate and sixteen harmonics |
| `Processor.AdditiveSynthPluginAudioProcessor.ResetGains` | Source/PluginProcessor.cpp:170-174 | the gain vector becomes sixteen entries [1, 0, ..., 0] |
| `Processor.AdditiveSynthPluginAudioProcessor.SetUpVoices` | Source/PluginProcessor.cpp:176-181 | every voice is set up for the rate and sixteen harmonics, and one zero note is stored per voice |
| `Processor.AdditiveSynthPluginAudioProcessor.ProcessBlock` | Source/PluginProcessor.cpp:216-345 | the three flags are cleared and every stored value follows its parameter (`cent` by the test as written); the gains are taken over only when flagged; the cursor moves as `Pool.ParameterNoteOnCursor` says when note-on is flagged; the voices end as `Mixer.After` of `BlockVoices` over the block; sample `n` of both channels is `Mixer.Frame` of `BlockVoices` at the host volume; the processor stays ready |
| `Processor.AdditiveSynthPluginAudioProcessor.UpdateParameters` | Source/PluginProcessor.cpp:257-285 | after the parameter section every stored value equals its parameter (`cent` by the test as written), the gains are taken over exactly when flagged, the harmonics flag is cleared, and the voices are `ParametersApplied` |
| `Processor.AdditiveSynthPluginAudioProcessor.UpdateVolume` | Source/PluginProcessor.cpp:258 | the volume equals its parameter |
| `Processor.AdditiveSynthPluginAudioProcessor.UpdateModulation` | Source/PluginProcessor.cpp:259-267 | `cent` follows the test as written (`CentAfterAsWritten`); the voices become `Retuned`: when the test fires every voice takes 100 times the parameter and is re-tuned, otherwise no voice changes |
| `Processor.AdditiveSynthPluginAudioProcessor.UpdateFundamental` | Source/PluginProcessor.cpp:268 | `f0` equals its parameter, and the voices are not touched |
| `Processor.AdditiveSynthPluginAudioProcessor.UpdateEnvelope` | Source/PluginProcessor.cpp:269-276 | the four envelope values equal their parameters; the voices become `Enveloped`: they get the new tuple exactly when one of them changed |
| `Processor.AdditiveSynthPluginAudioProcessor.SetVoiceADSR` | Source/PluginProcessor.cpp:397-401 | every voice gets the same envelope parameters and nothing else changes |
| `Processor.AdditiveSynthPluginAudioProcessor.UpdateHarmonics` | Source/PluginProcessor.cpp:278-285 | when flagged, the gains become the parameters, the voices become `Regained` (every voice takes them) and the flag is cleared; otherwise nothing changes |
| `Processor.AdditiveSynthPluginAudioProcessor.SetVoiceHarmonics` | Source/PluginProcessor.cpp:391-395 | every voice gets the processor's gain vector with a recomputed normaliser |
| `Processor.AdditiveSynthPluginAudioProcessor.ParameterNoteOn` | Source/PluginProcessor.cpp:288-311 | when flagged, exactly the voices `Pool.ParameterNoteOnTargets` names get `f0`, the cursor lands where `Pool.ParameterNoteOnCursor` says, and the flag is cleared; otherwise nothing changes |
| `Processor.AdditiveSynthPluginAudioProcessor.StartNote` | Source/PluginProcessor.cpp:302-308 | the cursor advances round-robin and only the voice under the new cursor gets `f0` |
| `Processor.AdditiveSynthPluginAudioProcessor.RetriggerMatching` | Source/PluginProcessor.cpp:291-300 | a match is reported exactly when some voice plays `f0`; all such voices are re-triggered and the cursor moves to the last of them |
| `Processor.AdditiveSynthPluginAudioProcessor.ParameterNoteOff` | Source/PluginProcessor.cpp:313-323 | when flagged, exactly the voices at `f0` are released and the flag is cleared; otherwise nothing changes |
| `Processor.AdditiveSynthPluginAudioProcessor.Render` | Source/PluginProcessor.cpp:328-344 | sample `n` of both channels is the frame `Mixer.Frame` gives for position `n`, and the voices end the block `n` samples on |
| `Processor.AdditiveSynthPluginAudioProcessor.RenderSample` | Source/PluginProcessor.cpp:330-343 | one pass writes the scaled, clamped mix at position `n` of both channels only, and moves every voice one sample on |
| `Processor.AdditiveSynthPluginAudioProcessor.MixVoices` | Source/PluginProcessor.cpp:333-338 | the sum is every voice's next sample added in order, and every voice moves one sample on |
| `Processor.AdditiveSynthPluginAudioProcessor.HandleMidi` | Source/PluginProcessor.cpp:227-256 | the events are handled in order as `MidiRun` says, and the cursor moves on once per note-on |
| `Processor.AdditiveSynthPluginAudioProcessor.MidiNoteOn` | Source/PluginProcessor.cpp:235-243 | `f0` becomes the note's frequency, the note number is stored under the cursor, the voice under the cursor starts, and the cursor advances |
| `Processor.AdditiveSynthPluginAudioProcessor.MidiNoteOff` | Source/PluginProcessor.cpp:244-253 | exactly the voices whose stored note number is the note are released |

## Left out

- Floating point: `float` and `double` are modelled as exact reals. So the
  model has no rounding and no NaN. Float/double conversions (the processor's
  `float f0` against the voice's `double f0`) are not modelled either.
- `std::sin`, `powf(2, .)` and the envelope's level curve are parameters of the
  model (`Library.Externals`), assumed to satisfy only `Sound()`. JUCE's
  attack/decay/sustain/release curves are not modelled. An envelope records its
  parameters, rate, held flag and the number of samples drawn.
- `MidiMessage` parsing is abstracted to `MidiEvent`.
  `getMidiNoteInHertz(note, 440)` is JUCE's equal-temperament formula, written
  with the `pow2` parameter.
- The MIDI branch is compiled out by `NOEDITOR` (Source/PluginProcessor.h:18).
  So `ProcessBlock` has no `midiMessages` parameter. The branch is modelled on
  its own by `HandleMidi`.
- `ScopedNoDenormals`, the clearing of extra output channels, and reading the
  channel pointers from the `AudioBuffer` are left out. The block is two
  distinct arrays of equal length.
- The `samplesPerBlock` argument of `prepareToPlay` is unused by the source and
  by the model.
- The editor (`PluginEditor.cpp`) is not part of this model. Neither are
  `ChangePreset`, the preset, `resetVoices`, `voiceIsAdded`, `activeVoices`,
  `isPlaying` or the host-state save and restore, since the core never reads
  them.
- The header declares `currentVoiceIndex`, while the code uses
  `currentNoteIndex`. The `gains`, `noteOn`, `noteOff` and `harmonicsChanged`
  parameters are used but not declared in the header. The model follows the
  code.
- `Voice.SynthVoice.GetNextSample`: the harmonic loop runs on a snapshot of the
  voice (`Oscillators`), and the phases and envelope are stored once at the
  end. Nothing else reads the voice during the loop, so the difference is not
  observable.
- `Voice.SynthVoice.ComputeAverageGain` stores the guarded reciprocal
  (`Reciprocal`) rather than dividing by zero. See Findings.
- `Processor.AdditiveSynthPluginAudioProcessor.PrepareToPlay` requires a
  positive sample rate. The source takes whatever the host passes, and a zero
  rate would divide by zero in the voices' `setup`.
- `Processor.AdditiveSynthPluginAudioProcessor.ProcessBlock` requires a
  prepared processor. The source would index the empty voice vector if the
  host called it before `prepareToPlay`.
- `ProcessorModel.CRemainder` states the sign and range of the C++ remainder,
  not the quotient identity. `IsOdd` states the full meaning of `isOdd`.
- The voices are held by value in a sequence, as `vector<SynthVoice>` holds
  them. The processor's methods update that sequence with the same `Voice`
  functions the `SynthVoice` class is proved against, rather than calling the
  class's methods.

## Findings

| source | as written | input that shows it | evidently intended | confidence | as-written member | corrected member |
|---|---|---|---|---|---|---|
| Source/SynthVoice.cpp:87 | `averagedGain = 1.f / totalGain` with no guard | all sixteen harmonic gains at 0, or a fundamental at or above Nyquist (20000 Hz at a 32000 Hz rate): the total is 0 and the normaliser is +infinity, so the voice outputs NaN or infinity | a voice with nothing audible is silent | not executed | `VoiceProperties.SilentGainsDivideByZero` | `VoiceProperties.SilentVoiceIsQuiet` |
| Source/PluginProcessor.cpp:259-261 | `if (cent != *modulation)`, where `cent` holds 100 times the parameter | the parameter at 0.05 (`cent` becomes 5), then moved to 5: the test sees 5 == 5 and the change is lost. Any non-zero parameter also re-tunes every voice on every block | compare `cent` with `*modulation * 100`; that fix alone would leave the voices a second `prepareToPlay` creates at 0 cents (`CorrectedTestMissesReset`), so the processor class keeps the test as written | not executed | `ProcessorModel.ModulationChangeLost` | `ProcessorModel.CentFollowsModulation` |
