/** The JUCE `ADSR` envelope each voice owns, kept abstract.  Its attack, decay,
    sustain and release curves are library code outside this model, so an envelope
    records only what the voice does to it: the parameters and sample rate it was
    given, whether its note is held, and how many samples have been drawn from it.
    The level of each drawn sample is supplied by `Library.Externals.level`. */
module Adsr {

  /** `juce::ADSR::Parameters`: attack, decay and release in seconds, sustain a level. */
  datatype Parameters = Parameters(attack: real, decay: real, sustain: real, release: real)

  /** The parameters `SynthVoice::setup` installs. */
  const SetupParameters: Parameters := Parameters(0.5, 0.5, 1.0, 0.5)

  /** A default-constructed `juce::ADSR`: the library's default parameters and rate. */
  const LibraryParameters: Parameters := Parameters(0.1, 0.1, 1.0, 0.1)
  const LibrarySampleRate: real := 44100.0

  datatype Envelope = Envelope(params: Parameters, sampleRate: real, held: bool, ticks: nat)

  function Fresh(): Envelope
  {
    Envelope(LibraryParameters, LibrarySampleRate, false, 0)
  }

  /** `adsr.noteOn()`: the note is held from now on. */
  function NoteOn(e: Envelope): Envelope
  {
    e.(held := true)
  }

  /** `adsr.noteOff()`: the note is released. */
  function NoteOff(e: Envelope): Envelope
  {
    e.(held := false)
  }

  /** `adsr.getNextSample()`: the level at the current position, and the envelope
      one sample further on. */
  function GetNextSample(e: Envelope, level: Envelope -> real): (r: (real, Envelope))
    ensures r.1.ticks == e.ticks + 1
  {
    (level(e), e.(ticks := e.ticks + 1))
  }
}
