/** What `AdditiveSynthPluginAudioProcessor` does to its pool of voices, stated as
    functions on voice states, together with the host parameters it reads in the
    `NOEDITOR` build and the two small pure helpers of the class (`isOdd` and the
    modulation test of `processBlock`).  The class in module `Processor` is proved
    to move its voices exactly as these functions say. */
module ProcessorModel {
  import opened Voice
  import Adsr
  import Pool
  import opened Mixer

  /** The parameters the `NOEDITOR` build registers with the host.  The host may
      write any of them between two blocks; the three flags are cleared by
      `processBlock` once it has acted on them. */
  datatype HostParameters = HostParameters(
    volume: real,
    modulation: real,
    fundamentalFreq: real,
    attack: real,
    decay: real,
    sustain: real,
    release: real,
    noteOn: bool,
    noteOff: bool,
    harmonicsChanged: bool,
    gains: seq<real>)
  {
    /** The ranges the parameters are registered with; the host keeps every value
        inside its range. */
    ghost predicate InRange()
    {
      && 0.0 <= volume <= 1.0
      && -12.0 <= modulation <= 12.0
      && 20.0 <= fundamentalFreq <= 20000.0
      && 0.0 <= attack <= 25.0
      && 0.0 <= decay <= 25.0
      && 0.0 <= sustain <= 1.0
      && 0.0 <= release <= 25.0
      && forall h :: 0 <= h < |gains| ==> 0.0 <= gains[h] <= 1.0
    }
  }

  /** The default value of every registered parameter: full volume, no modulation,
      440 Hz, the envelope (0.5, 0.5, 1.0, 0.5), no pending flag and `n` harmonic
      gains of 0.1. */
  function DefaultHostParameters(n: nat): (p: HostParameters)
    ensures p.InRange() && |p.gains| == n
    ensures !p.noteOn && !p.noteOff && !p.harmonicsChanged
  {
    HostParameters(1.0, 0.0, 440.0, 0.5, 0.5, 1.0, 0.5, false, false, false, seq(n, h => 0.1))
  }

  /** C++ `%` on `int`: the quotient is truncated toward zero, so the remainder
      takes the sign of the dividend. */
  function CRemainder(a: int, b: int): (r: int)
    requires b > 0
    ensures a >= 0 ==> 0 <= r < b
    ensures a < 0 ==> -b < r <= 0
  {
    if a >= 0 then a % b else -((-a) % b)
  }

  /** `isOdd(value)`: `value % 2 != 0` with the C++ remainder, which is -1 for a
      negative odd value. It holds exactly for the values not divisible by 2. */
  function IsOdd(value: int): (r: bool)
    ensures r <==> value % 2 == 1
  {
    CRemainder(value, 2) != 0
  }

  /** For negative odd values the C++ remainder is -1, not 1, and `isOdd` still
      holds because it tests against 0. */
  lemma IsOddOfNegative()
    ensures CRemainder(-3, 2) == -1 && IsOdd(-3)
    ensures !IsOdd(-4)
  {
  }

  /** The modulation test as written: the stored `cent`, which is the parameter
      times 100, is compared with the raw parameter. */
  predicate ModulationRefreshAsWritten(cent: real, modulation: real)
  {
    cent != modulation
  }

  /** The modulation test as intended: compare like with like. */
  predicate ModulationRefresh(cent: real, modulation: real)
  {
    cent != modulation * 100.0
  }

  /** The processor's `cent` after one block, with the test as written. */
  function CentAfterAsWritten(cent: real, modulation: real): (r: real)
    ensures r == modulation * 100.0 || r == modulation
  {
    if ModulationRefreshAsWritten(cent, modulation) then modulation * 100.0 else cent
  }

  /** The processor's `cent` after one block, with the corrected test. */
  function CentAfter(cent: real, modulation: real): real
  {
    if ModulationRefresh(cent, modulation) then modulation * 100.0 else cent
  }

  /** With the corrected test `cent` always follows the parameter, and a second
      block with the same parameter recomputes nothing. */
  lemma CentFollowsModulation(cent: real, modulation: real)
    ensures CentAfter(cent, modulation) == modulation * 100.0
    ensures !ModulationRefresh(CentAfter(cent, modulation), modulation)
  {
  }

  /** As written, a parameter change is lost whenever the stored `cent` happens to
      equal the new raw value: moving the parameter from 0.05 (cent 5) to 5 leaves
      `cent` at 5 instead of 500. */
  lemma ModulationChangeLost()
    ensures CentAfterAsWritten(CentAfterAsWritten(0.0, 0.05), 5.0) == 5.0
    ensures CentAfter(CentAfter(0.0, 0.05), 5.0) == 500.0
  {
    assert CentAfterAsWritten(0.0, 0.05) == 5.0;
  }

  /** As written, every block with a non-zero parameter recomputes every voice's
      increments again, since the stored `cent` is 100 times the parameter. */
  lemma AsWrittenRefreshesEveryBlock(modulation: real)
    ensures ModulationRefreshAsWritten(modulation * 100.0, modulation) <==> modulation != 0.0
  {
  }

  /** A second `prepareToPlay` gives fresh voices at 0 cents but keeps the
      processor's `cent`: with the parameter at 5, the stored `cent` is 500. The
      test as written then fires and re-tunes the fresh voices to 500 cents; the
      corrected comparison alone does not, and would leave them at 0. */
  lemma CorrectedTestMissesReset()
    ensures ModulationRefreshAsWritten(500.0, 5.0) && CentAfterAsWritten(500.0, 5.0) == 500.0
    ensures !ModulationRefresh(500.0, 5.0)
  {
  }

  /** A pool ready to render: every voice set up for `n` harmonics at rate `fs`. */
  ghost predicate Ready(vs: seq<VoiceState>, n: int, fs: real)
  {
    forall i :: 0 <= i < |vs| ==> vs[i].WellFormed() && vs[i].numHarmonics == n && vs[i].fs == fs
  }

  /** Whatever the processor does to its voices keeps them ready. */
  lemma ReadyKept(vs: seq<VoiceState>, r: seq<VoiceState>, n: int, fs: real)
    requires Ready(vs, n, fs) && AllWellFormed(r) && |r| == |vs|
    requires forall i :: 0 <= i < |vs| ==> SameSetup(vs[i], r[i])
    ensures Ready(r, n, fs)
  {
  }

  /** The fundamental each voice plays. */
  function Frequencies(vs: seq<VoiceState>): (r: seq<real>)
    ensures |r| == |vs| && forall i :: 0 <= i < |vs| ==> r[i] == vs[i].f0
  {
    seq(|vs|, i requires 0 <= i < |vs| => vs[i].f0)
  }

  /** `noteOn(f)` on the voices in `targets`; the others are left alone. */
  function NoteOnAt(vs: seq<VoiceState>, targets: set<int>, f: real, pow2: real -> real): (r: seq<VoiceState>)
    requires AllWellFormed(vs)
    ensures |r| == |vs| && AllWellFormed(r)
    ensures forall i :: 0 <= i < |vs| ==> SameSetup(vs[i], r[i])
  {
    seq(|vs|, i requires 0 <= i < |vs| => if i in targets then vs[i].WithNoteOn(f, pow2) else vs[i])
  }

  /** A note-on reaching no voice leaves the pool as it was. */
  lemma NoteOnAtNone(vs: seq<VoiceState>, targets: set<int>, f: real, pow2: real -> real)
    requires AllWellFormed(vs) && targets == {}
    ensures NoteOnAt(vs, targets, f, pow2) == vs
  {
  }

  /** The parameter note-on in the two steps the source takes: re-trigger every
      voice at `f`, then, only if there was none, start `f` on the voice after the
      cursor. */
  lemma ParameterNoteOnInTwoSteps(vs: seq<VoiceState>, f: real, cursor: int, pow2: real -> real)
    requires AllWellFormed(vs) && 0 <= cursor < |vs|
    ensures Pool.LastMatch(Frequencies(vs), f) >= 0 ==>
      NoteOnAt(vs, Pool.ParameterNoteOnTargets(Frequencies(vs), f, cursor), f, pow2)
        == NoteOnAt(vs, Pool.Matches(Frequencies(vs), f), f, pow2)
    ensures Pool.LastMatch(Frequencies(vs), f) < 0 ==>
      NoteOnAt(vs, Pool.ParameterNoteOnTargets(Frequencies(vs), f, cursor), f, pow2)
        == NoteOnAt(NoteOnAt(vs, Pool.Matches(Frequencies(vs), f), f, pow2), {Pool.NextCursor(cursor, |vs|)}, f, pow2)
  {
    var freqs := Frequencies(vs);
    if Pool.LastMatch(freqs, f) < 0 {
      Pool.NoMatches(freqs, f);
      NoteOnAtNone(vs, Pool.Matches(freqs, f), f, pow2);
    }
  }

  /** The re-trigger scan of the parameter note-on, one voice further: voice `i`
      is re-triggered exactly when it plays `f`. */
  lemma RetriggerNext(vs: seq<VoiceState>, i: int, f: real, pow2: real -> real)
    requires AllWellFormed(vs) && 0 <= i < |vs|
    ensures NoteOnAt(vs, Pool.Matches(Frequencies(vs)[..i + 1], f), f, pow2)
              == NoteOnAt(vs, Pool.Matches(Frequencies(vs)[..i], f), f, pow2)[i := if vs[i].f0 == f then vs[i].WithNoteOn(f, pow2) else vs[i]]
  {
    var freqs := Frequencies(vs);
    assert forall k :: k in Pool.Matches(freqs[..i + 1], f) <==> 0 <= k <= i && vs[k].f0 == f;
    assert forall k :: k in Pool.Matches(freqs[..i], f) <==> 0 <= k < i && vs[k].f0 == f;
  }

  /** `noteOff()` on the voices in `targets`; the others are left alone. */
  function NoteOffAt(vs: seq<VoiceState>, targets: set<int>): (r: seq<VoiceState>)
    requires AllWellFormed(vs)
    ensures |r| == |vs| && AllWellFormed(r)
    ensures forall i :: 0 <= i < |vs| ==> SameSetup(vs[i], r[i])
  {
    seq(|vs|, i requires 0 <= i < |vs| => if i in targets then vs[i].WithNoteOff() else vs[i])
  }

  /** Every voice given the cent offset `c` and re-tuned. */
  function RetuneAll(vs: seq<VoiceState>, c: real, pow2: real -> real): (r: seq<VoiceState>)
    requires AllWellFormed(vs)
    ensures |r| == |vs| && AllWellFormed(r)
    ensures forall i :: 0 <= i < |vs| ==> SameSetup(vs[i], r[i])
  {
    seq(|vs|, i requires 0 <= i < |vs| => vs[i].(cent := c).WithTuning(pow2))
  }

  /** `setVoiceADSR`: every voice given the same envelope parameters. */
  function EnvelopeAll(vs: seq<VoiceState>, p: Adsr.Parameters): (r: seq<VoiceState>)
    requires AllWellFormed(vs)
    ensures |r| == |vs| && AllWellFormed(r)
    ensures forall i :: 0 <= i < |vs| ==> SameSetup(vs[i], r[i])
  {
    seq(|vs|, i requires 0 <= i < |vs| => vs[i].WithAdsrParameters(p))
  }

  ghost predicate HarmonicsMatch(vs: seq<VoiceState>, n: int)
  {
    forall i :: 0 <= i < |vs| ==> vs[i].numHarmonics == n
  }

  /** `setVoiceHarmonics`: every voice given the same gain vector. */
  function GainsAll(vs: seq<VoiceState>, g: seq<real>): (r: seq<VoiceState>)
    requires AllWellFormed(vs) && HarmonicsMatch(vs, |g|)
    ensures |r| == |vs| && AllWellFormed(r)
    ensures forall i :: 0 <= i < |vs| ==> SameSetup(vs[i], r[i])
  {
    seq(|vs|, i requires 0 <= i < |vs| => vs[i].WithGains(g))
  }

  /** What a parameter note-on does to the voices: the voice the cursor is left on
      plays `f` with its envelope triggered, every voice it reaches does too, and
      every other voice is left as it was. */
  lemma ParameterNoteOnPlays(vs: seq<VoiceState>, f: real, cursor: int, pow2: real -> real)
    requires AllWellFormed(vs) && 0 <= cursor < |vs|
    ensures var c := Pool.ParameterNoteOnCursor(Frequencies(vs), f, cursor);
            var r := NoteOnAt(vs, Pool.ParameterNoteOnTargets(Frequencies(vs), f, cursor), f, pow2);
            r[c].f0 == f && r[c].adsr == Adsr.NoteOn(vs[c].adsr)
    ensures forall i :: 0 <= i < |vs| && i !in Pool.ParameterNoteOnTargets(Frequencies(vs), f, cursor) ==>
              NoteOnAt(vs, Pool.ParameterNoteOnTargets(Frequencies(vs), f, cursor), f, pow2)[i] == vs[i]
  {
    Pool.ParameterNoteOnReaches(Frequencies(vs), f, cursor);
  }

  /** What a parameter note-off does: every voice at `f` has its envelope released
      and keeps everything else; the other voices are untouched. */
  lemma ParameterNoteOffReleases(vs: seq<VoiceState>, f: real)
    requires AllWellFormed(vs)
    ensures forall i :: 0 <= i < |vs| ==>
      NoteOffAt(vs, Pool.Matches(Frequencies(vs), f))[i]
        == if vs[i].f0 == f then vs[i].(adsr := Adsr.NoteOff(vs[i].adsr)) else vs[i]
  {
  }

  /** The voices after the parameter section of `processBlock`, in the order the
      source tests: the re-tune, the envelope push, then the gain push. */
  function AfterParameters(vs: seq<VoiceState>, cent: real, env: Adsr.Parameters, host: HostParameters,
                           pow2: real -> real): (r: seq<VoiceState>)
    requires AllWellFormed(vs) && HarmonicsMatch(vs, |host.gains|)
    ensures |r| == |vs| && AllWellFormed(r) && HarmonicsMatch(r, |host.gains|)
    ensures forall i :: 0 <= i < |vs| ==> SameSetup(vs[i], r[i])
  {
    Regained(Enveloped(Retuned(vs, cent, host, pow2), env, host), host)
  }

  /** The re-tune, when the modulation test as written fires: every voice takes
      100 times the parameter as its `cent`. */
  function Retuned(vs: seq<VoiceState>, cent: real, host: HostParameters, pow2: real -> real): (r: seq<VoiceState>)
    requires AllWellFormed(vs)
    ensures |r| == |vs| && AllWellFormed(r)
    ensures forall i :: 0 <= i < |vs| ==> SameSetup(vs[i], r[i])
  {
    if ModulationRefreshAsWritten(cent, host.modulation) then RetuneAll(vs, host.modulation * 100.0, pow2) else vs
  }

  /** The envelope push, when one of the four stored values `env` differs from its
      parameter. */
  function Enveloped(vs: seq<VoiceState>, env: Adsr.Parameters, host: HostParameters): (r: seq<VoiceState>)
    requires AllWellFormed(vs)
    ensures |r| == |vs| && AllWellFormed(r)
    ensures forall i :: 0 <= i < |vs| ==> SameSetup(vs[i], r[i])
  {
    if env != HostEnvelope(host) then EnvelopeAll(vs, HostEnvelope(host)) else vs
  }

  /** The gain push, when the host has flagged new gains. */
  function Regained(vs: seq<VoiceState>, host: HostParameters): (r: seq<VoiceState>)
    requires AllWellFormed(vs) && HarmonicsMatch(vs, |host.gains|)
    ensures |r| == |vs| && AllWellFormed(r)
    ensures forall i :: 0 <= i < |vs| ==> SameSetup(vs[i], r[i])
  {
    if host.harmonicsChanged then GainsAll(vs, host.gains) else vs
  }

  /** The envelope tuple the host's four envelope parameters make. */
  function HostEnvelope(host: HostParameters): Adsr.Parameters
  {
    Adsr.Parameters(host.attack, host.decay, host.sustain, host.release)
  }

  /** The voices after the note section: the note-on flag, then the note-off flag,
      both for the fundamental `f`. */
  function AfterNotes(vs: seq<VoiceState>, f: real, cursor: int, noteOn: bool, noteOff: bool,
                      pow2: real -> real): (r: seq<VoiceState>)
    requires AllWellFormed(vs) && 0 <= cursor < |vs|
    ensures |r| == |vs| && AllWellFormed(r)
    ensures forall i :: 0 <= i < |vs| ==> SameSetup(vs[i], r[i])
  {
    var started := if noteOn then NoteOnAt(vs, Pool.ParameterNoteOnTargets(Frequencies(vs), f, cursor), f, pow2) else vs;
    if noteOff then NoteOffAt(started, Pool.Matches(Frequencies(started), f)) else started
  }

  /** When the host flags new gains, every voice ends the parameter section with
      exactly those gains and a normaliser computed for them, and with the host's
      envelope parameters whenever they differed from the stored ones. */
  lemma ParameterSectionPushes(vs: seq<VoiceState>, cent: real, env: Adsr.Parameters, host: HostParameters,
                               pow2: real -> real)
    requires AllWellFormed(vs) && HarmonicsMatch(vs, |host.gains|)
    ensures var r := AfterParameters(vs, cent, env, host, pow2);
            host.harmonicsChanged ==>
              forall i :: 0 <= i < |vs| ==> r[i].gainVector == host.gains && Normalised(r[i])
    ensures var r := AfterParameters(vs, cent, env, host, pow2);
            env != HostEnvelope(host) ==>
              forall i :: 0 <= i < |vs| ==> r[i].adsr.params == HostEnvelope(host)
    ensures var r := AfterParameters(vs, cent, env, host, pow2);
            ModulationRefreshAsWritten(cent, host.modulation) ==>
              forall i :: 0 <= i < |vs| ==> r[i].cent == host.modulation * 100.0
  {
  }

  /** One event of the MIDI branch: a note-on or a note-off with its note number,
      or any other message, which the branch ignores. */
  datatype MidiEvent = NoteOnEvent(note: int) | NoteOffEvent(note: int) | OtherEvent

  /** `MidiMessage::getMidiNoteInHertz(note, 440)`: equal temperament with note 69
      at 440 Hz. */
  function MidiNoteInHertz(note: int, pow2: real -> real): real
  {
    440.0 * pow2((note - 69) as real / 12.0)
  }

  /** How many note-ons a list of events holds. */
  function NoteOnCount(events: seq<MidiEvent>): (k: nat)
    ensures k <= |events|
  {
    if |events| == 0 then 0
    else NoteOnCount(events[..|events| - 1]) + (if events[|events| - 1].NoteOnEvent? then 1 else 0)
  }

  /** The part of the processor the MIDI branch reads and writes: `f0`, the note
      number stored per voice, the voices and the cursor. */
  datatype MidiPool = MidiPool(f0: real, notes: seq<real>, voices: seq<VoiceState>, cursor: int)
  {
    ghost predicate Ok()
    {
      |notes| == |voices| && 0 <= cursor < |voices| && AllWellFormed(voices)
    }
  }

  /** One event of the MIDI branch. A note-on sets `f0` to the note's frequency,
      stores the note number under the cursor, starts the voice under the cursor
      and then advances the cursor. A note-off releases every voice whose stored
      note number is the event's. */
  function MidiStep(p: MidiPool, e: MidiEvent, pow2: real -> real): (r: MidiPool)
    requires p.Ok()
    ensures r.Ok() && |r.voices| == |p.voices|
    ensures forall i :: 0 <= i < |p.voices| ==> SameSetup(p.voices[i], r.voices[i])
  {
    match e
    case NoteOnEvent(note) =>
      var f := MidiNoteInHertz(note, pow2);
      MidiPool(f, p.notes[p.cursor := note as real], NoteOnAt(p.voices, {p.cursor}, f, pow2),
               Pool.NextCursor(p.cursor, |p.voices|))
    case NoteOffEvent(note) =>
      p.(voices := NoteOffAt(p.voices, Pool.MidiReleaseTargets(p.notes, note)))
    case OtherEvent =>
      p
  }

  /** The MIDI branch over a whole list of events, in order. */
  function MidiRun(p: MidiPool, events: seq<MidiEvent>, pow2: real -> real): (r: MidiPool)
    requires p.Ok()
    ensures r.Ok() && |r.voices| == |p.voices|
    ensures forall i :: 0 <= i < |p.voices| ==> SameSetup(p.voices[i], r.voices[i])
  {
    if |events| == 0 then p
    else MidiStep(MidiRun(p, events[..|events| - 1], pow2), events[|events| - 1], pow2)
  }

  /** Only note-ons move the cursor, one voice each, round-robin. */
  lemma {:induction false} MidiRunCursor(p: MidiPool, events: seq<MidiEvent>, pow2: real -> real)
    requires p.Ok()
    ensures MidiRun(p, events, pow2).cursor == Pool.MidiCursorAfter(p.cursor, |p.voices|, NoteOnCount(events))
  {
    if |events| > 0 {
      var init, e := events[..|events| - 1], events[|events| - 1];
      MidiRunCursor(p, init, pow2);
      var q := MidiRun(p, init, pow2);
      MidiStepCursor(q, e, pow2);
      assert MidiRun(p, events, pow2).cursor == MidiStep(q, e, pow2).cursor;
      assert NoteOnCount(events) == NoteOnCount(init) + if e.NoteOnEvent? then 1 else 0;
    }
  }

  /** A note-on advances the cursor; no other event moves it. */
  lemma MidiStepCursor(p: MidiPool, e: MidiEvent, pow2: real -> real)
    requires p.Ok()
    ensures MidiStep(p, e, pow2).cursor
              == if e.NoteOnEvent? then Pool.NextCursor(p.cursor, |p.voices|) else p.cursor
  {
  }

  /** A note-on followed by the note-off of the same note: the voice the note-on
      took plays the note's frequency and ends released, since its stored note
      number is the one the note-off looks for. */
  lemma MidiNoteOffReleasesItsVoice(p: MidiPool, note: int, pow2: real -> real)
    requires p.Ok()
    ensures var q := MidiStep(p, NoteOnEvent(note), pow2);
            var r := MidiStep(q, NoteOffEvent(note), pow2);
            && p.cursor in Pool.MidiReleaseTargets(q.notes, note)
            && r.voices[p.cursor].f0 == MidiNoteInHertz(note, pow2)
            && r.voices[p.cursor].adsr == Adsr.NoteOff(Adsr.NoteOn(p.voices[p.cursor].adsr))
  {
    var q := MidiStep(p, NoteOnEvent(note), pow2);
    assert q.notes[p.cursor] == note as real;
  }
}
