/** The voice pool of `AdditiveSynthPluginAudioProcessor`: which voices a note-on
    or a note-off reaches, and where the round-robin cursor `currentNoteIndex`
    goes.  The processor's methods are proved against these functions; the
    lemmas at the end state what they mean for a player. */
module Pool {

  /** The cursor step both note-on paths use: one further on, back to 0 at the end
      of the pool. */
  function NextCursor(cursor: int, n: int): (r: int)
    requires 0 <= cursor < n
    ensures 0 <= r < n
    ensures r == (cursor + 1) % n
  {
    if cursor + 1 >= n then 0 else cursor + 1
  }

  /** The voices playing frequency `f`. */
  function Matches(freqs: seq<real>, f: real): set<int>
  {
    set i | 0 <= i < |freqs| && freqs[i] == f
  }

  /** The highest index holding `f`, or -1 when no entry does. */
  function LastMatch(freqs: seq<real>, f: real): (r: int)
    ensures -1 <= r < |freqs|
    ensures r >= 0 ==> freqs[r] == f && forall j :: r < j < |freqs| ==> freqs[j] != f
    ensures r == -1 <==> forall j :: 0 <= j < |freqs| ==> freqs[j] != f
  {
    if |freqs| == 0 then -1
    else if freqs[|freqs| - 1] == f then |freqs| - 1
    else LastMatch(freqs[..|freqs| - 1], f)
  }

  /** The scan one entry further: the last match is the new entry if it holds `f`. */
  lemma LastMatchNext(freqs: seq<real>, i: int, f: real)
    requires 0 <= i < |freqs|
    ensures LastMatch(freqs[..i + 1], f) == if freqs[i] == f then i else LastMatch(freqs[..i], f)
  {
    assert freqs[..i + 1][..i] == freqs[..i];
  }

  /** No index holds `f` when the last match is missing. */
  lemma NoMatches(freqs: seq<real>, f: real)
    requires LastMatch(freqs, f) < 0
    ensures Matches(freqs, f) == {}
  {
  }

  /** The parameter-driven note-on: every voice already at `f` is re-triggered;
      if there is none, the cursor is advanced first and the voice under it
      takes the note. */
  function ParameterNoteOnTargets(freqs: seq<real>, f: real, cursor: int): (r: set<int>)
    requires 0 <= cursor < |freqs|
    ensures r != {} && forall i :: i in r ==> 0 <= i < |freqs|
  {
    var last := LastMatch(freqs, f);
    if last >= 0 then assert last in Matches(freqs, f); Matches(freqs, f) else {NextCursor(cursor, |freqs|)}
  }

  /** Where that note-on leaves the cursor: on the last re-triggered voice, or one
      further on. */
  function ParameterNoteOnCursor(freqs: seq<real>, f: real, cursor: int): (r: int)
    requires 0 <= cursor < |freqs|
    ensures 0 <= r < |freqs|
  {
    var last := LastMatch(freqs, f);
    if last >= 0 then last else NextCursor(cursor, |freqs|)
  }

  /** The MIDI note-off: every voice whose stored note number is `note`. */
  function MidiReleaseTargets(notes: seq<real>, note: int): set<int>
  {
    set i | 0 <= i < |notes| && notes[i] == note as real
  }

  /** The cursor after `k` MIDI note-ons starting at `cursor`; MIDI note-on assigns
      the voice under the cursor and then advances. */
  function MidiCursorAfter(cursor: int, n: int, k: nat): (r: int)
    requires 0 <= cursor < n
    ensures 0 <= r < n
  {
    if k == 0 then cursor else NextCursor(MidiCursorAfter(cursor, n, k - 1), n)
  }

  /** The voices a sequence of MIDI note-ons reaches, in order. */
  function MidiVoicesFor(cursor: int, n: int, k: nat): (r: seq<int>)
    requires 0 <= cursor < n
    ensures |r| == k
  {
    if k == 0 then [] else MidiVoicesFor(cursor, n, k - 1) + [MidiCursorAfter(cursor, n, k - 1)]
  }

  /** Consecutive MIDI note-ons walk the pool round-robin: the `k`-th of the first
      `n` goes to voice `cursor + k`, wrapping past the end of the pool, and after
      `n` of them the cursor is back where it started. */
  lemma {:induction false} MidiRoundRobin(cursor: int, n: int, k: nat)
    requires 0 <= cursor < n && k <= n
    ensures MidiCursorAfter(cursor, n, k) == if cursor + k < n then cursor + k else cursor + k - n
  {
    if k > 0 {
      MidiRoundRobin(cursor, n, k - 1);
    }
  }

  /** With six voices, the seventh MIDI note reuses the voice the first one took. */
  lemma MidiPoolWrapsAfterSix(cursor: int)
    requires 0 <= cursor < 6
    ensures MidiVoicesFor(cursor, 6, 7)[6] == MidiVoicesFor(cursor, 6, 7)[0] == cursor
    ensures forall i, j :: 0 <= i < j < 6 ==> MidiVoicesFor(cursor, 6, 6)[i] != MidiVoicesFor(cursor, 6, 6)[j]
  {
    MidiRoundRobin(cursor, 6, 6);
    var vs := MidiVoicesFor(cursor, 6, 6);
    forall k | 0 <= k < 6
      ensures vs[k] == if cursor + k < 6 then cursor + k else cursor + k - 6
    {
      MidiVoicesPrefix(cursor, 6, 6, k);
      MidiRoundRobin(cursor, 6, k);
    }
    MidiVoicesPrefix(cursor, 6, 7, 0);
  }

  /** The `k`-th voice in the list is the cursor after `k` note-ons. */
  lemma {:induction false} MidiVoicesPrefix(cursor: int, n: int, m: nat, k: nat)
    requires 0 <= cursor < n && k < m
    ensures MidiVoicesFor(cursor, n, m)[k] == MidiCursorAfter(cursor, n, k)
  {
    if k < m - 1 {
      MidiVoicesPrefix(cursor, n, m - 1, k);
    }
  }

  /** The voices a note-on reaches are exactly the voices already at its frequency
      when there are any, and otherwise exactly one voice, the one after the
      cursor; the cursor ends on a reached voice. */
  lemma ParameterNoteOnReaches(freqs: seq<real>, f: real, cursor: int)
    requires 0 <= cursor < |freqs|
    ensures forall i :: i in ParameterNoteOnTargets(freqs, f, cursor) ==> 0 <= i < |freqs|
    ensures Matches(freqs, f) != {} ==> ParameterNoteOnTargets(freqs, f, cursor) == Matches(freqs, f)
    ensures Matches(freqs, f) == {} ==>
      ParameterNoteOnTargets(freqs, f, cursor) == {(cursor + 1) % |freqs|}
    ensures ParameterNoteOnCursor(freqs, f, cursor) in ParameterNoteOnTargets(freqs, f, cursor)
  {
    var last := LastMatch(freqs, f);
    if last >= 0 {
      assert last in Matches(freqs, f);
    }
  }

  /** Unlike the MIDI path, a new note from the parameter path never lands on the
      voice under the cursor when there is more than one voice: from the initial
      cursor 0 the first note goes to voice 1. */
  lemma ParameterNoteOnSkipsCursorVoice(freqs: seq<real>, f: real, cursor: int)
    requires 0 <= cursor < |freqs| && |freqs| > 1
    requires Matches(freqs, f) == {}
    ensures cursor !in ParameterNoteOnTargets(freqs, f, cursor)
    ensures cursor == 0 ==> ParameterNoteOnTargets(freqs, f, cursor) == {1}
  {
    ParameterNoteOnReaches(freqs, f, cursor);
  }

  /** A pool of `n` voices all at frequency `f`. */
  function Unison(n: nat, f: real): (r: seq<real>)
    ensures |r| == n && forall i :: 0 <= i < n ==> r[i] == f
  {
    seq(n, k => f)
  }

  /** Every voice starts at 220 Hz, so the first parameter note-on at 220 Hz
      re-triggers the whole pool and leaves the cursor on the last voice. */
  lemma FirstNoteAt220RetriggersAll(cursor: int)
    requires 0 <= cursor < 6
    ensures forall i :: 0 <= i < 6 ==> i in ParameterNoteOnTargets(Unison(6, 220.0), 220.0, cursor)
    ensures forall i :: i in ParameterNoteOnTargets(Unison(6, 220.0), 220.0, cursor) ==> 0 <= i < 6
    ensures ParameterNoteOnCursor(Unison(6, 220.0), 220.0, cursor) == 5
  {
    var freqs := Unison(6, 220.0);
    assert freqs[5] == 220.0;
  }

  /** A note-on at a frequency some voice already plays takes no new voice: it
      re-triggers those voices and leaves the cursor on the last of them. */
  lemma RepeatedNoteSharesVoices(freqs: seq<real>, f: real, cursor: int)
    requires 0 <= cursor < |freqs|
    requires Matches(freqs, f) != {}
    ensures ParameterNoteOnTargets(freqs, f, cursor) == Matches(freqs, f)
    ensures ParameterNoteOnCursor(freqs, f, cursor) == LastMatch(freqs, f)
  {
    var i :| i in Matches(freqs, f);
    assert freqs[i] == f;
  }
}
