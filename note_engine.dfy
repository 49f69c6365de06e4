/** The audio note table of src/main.ts: PLAYING_NOTES with playNote, stopNote,
    stopAll and the getMIDIMessage dispatch. Oscillators are opaque tokens and the
    audio context is a flag; the Web Audio calls are reduced to the creation,
    start() and stop() of those tokens. */
module NoteEngine {
  import opened Prelude
  import opened Midi

  /** An oscillator handle; `id` only tells handles apart. */
  datatype Osc = Osc(id: nat)

  /** A value of PLAYING_NOTES: the oscillator the table holds for the note, or
      `undefined` once stopNote ran. A held oscillator may already be stopped when a
      stopAll threw part-way through the table. */
  datatype Slot = Held(osc: Osc) | Cleared

  /** A property key of PLAYING_NOTES: a note byte, or None for the key "undefined"
      that a note message without a data byte produces. */
  type NoteKey = Option<Byte>

  /** Everything the note functions of src/main.ts read or change. */
  datatype EngineState = EngineState(
    audio: bool,                  // `ctx` has been created
    playing: map<NoteKey, Slot>,  // PLAYING_NOTES
    created: nat,                 // oscillators created so far
    started: set<Osc>,            // oscillators on which start() was called
    stopped: set<Osc>)            // oscillators on which stop() was called

  /** The state after an operation, and whether it ended in a TypeError. */
  datatype Step = Step(next: EngineState, threw: bool)

  /** The oscillators held by the table. */
  function Oscs(p: map<NoteKey, Slot>): set<Osc>
  {
    set k | k in p && p[k].Held? :: p[k].osc
  }

  /** Consistency of the bookkeeping: the table holds started oscillators, no
      oscillator under two keys, and every handle was created. */
  predicate Valid(s: EngineState)
  {
    && (forall k | k in s.playing && s.playing[k].Held? :: s.playing[k].osc in s.started)
    && (forall k, k' | k in s.playing && k' in s.playing && s.playing[k].Held? && s.playing[k] == s.playing[k'] :: k == k')
    && s.stopped <= s.started
    && (forall o | o in s.started :: o.id < s.created)
  }

  /** The state before any event: no audio context, an empty table. */
  const Initial := EngineState(false, map[], 0, {}, {})

  /** playNote. With an audio context it creates an oscillator, starts it and stores it
      under the note, overwriting what was there. A missing note byte gives the
      frequency NaN, which the oscillator's frequency setter rejects with a TypeError
      before anything is stored. */
  function PlayNoteStep(s: EngineState, note: NoteKey): Step
  {
    if !s.audio then Step(s, false)
    else
      var osc := Osc(s.created);
      if note.None? then Step(s.(created := s.created + 1), true)
      else Step(s.(playing := s.playing[note := Held(osc)],
                   created := s.created + 1,
                   started := s.started + {osc}), false)
  }

  /** stopNote. The entry is set to `undefined` (the key stays), then stop() is called
      on what the entry held; when that was not an oscillator the call is a TypeError. */
  function StopNoteStep(s: EngineState, note: NoteKey): Step
  {
    if !s.audio then Step(s, false)
    else
      var slot := if note in s.playing then s.playing[note] else Cleared;
      var playing := s.playing[note := Cleared];
      match slot
      case Held(osc) => Step(s.(playing := playing, stopped := s.stopped + {osc}), false)
      case Cleared => Step(s.(playing := playing), true)
  }

  /** The i-th key that Object.keys yields for the table: the integer keys in
      ascending order, then the string key "undefined". */
  function KeyAt(i: nat): NoteKey
    requires i <= 256
  {
    if i < 256 then Some(i) else None
  }

  lemma KeyAtCovers(k: NoteKey)
    ensures exists j :: 0 <= j < 257 && KeyAt(j) == k
  {
    if k.Some? {
      assert KeyAt(k.value) == k;
    } else {
      assert KeyAt(256) == k;
    }
  }

  /** The forEach of stopAll from the i-th key on: stop() on each oscillator, ending in
      a TypeError at the first `undefined` entry. Returns the stopped set and whether
      it threw. */
  function StopFrom(p: map<NoteKey, Slot>, i: nat, stopped: set<Osc>): (r: (set<Osc>, bool))
    requires i <= 257
    ensures r.1 <==> exists j :: i <= j < 257 && KeyAt(j) in p && p[KeyAt(j)] == Cleared
    ensures stopped <= r.0 <= stopped + Oscs(p)
    ensures !r.1 ==> forall j :: i <= j < 257 && KeyAt(j) in p ==> p[KeyAt(j)].osc in r.0
    decreases 257 - i
  {
    if i == 257 then (stopped, false)
    else if KeyAt(i) !in p then StopFrom(p, i + 1, stopped)
    else match p[KeyAt(i)]
      case Cleared => (stopped, true)
      case Held(osc) => StopFrom(p, i + 1, stopped + {osc})
  }

  /** stopAll: stop every oscillator, then reset the table to empty. A TypeError in the
      forEach skips the reset. */
  function StopAllStep(s: EngineState): Step
  {
    if !s.audio then Step(s, false)
    else
      var (stopped, threw) := StopFrom(s.playing, 0, s.stopped);
      Step(s.(playing := if threw then s.playing else map[], stopped := stopped), threw)
  }

  /** The switch of getMIDIMessage. */
  function DispatchStep(s: EngineState, e: MidiEvent): Step
  {
    match e
    case NoteOn(note, _, _) => PlayNoteStep(s, note)
    case NoteOff(note, _, _) => StopNoteStep(s, note)
    case Stop => StopAllStep(s)
    case Unknown => Step(s, false)
  }

  /** True when the table holds an entry that stopNote set to `undefined`. */
  predicate HasCleared(p: map<NoteKey, Slot>)
  {
    exists k :: k in p && p[k] == Cleared
  }

  /** What the piano roll reads for key i: PLAYING_NOTES[i] is truthy. */
  predicate Highlighted(s: EngineState, i: int)
  {
    0 <= i < 256 && Some(i) in s.playing && s.playing[Some(i)].Held?
  }

  // ---------------------------------------------------------------------------
  // Properties of the table operations

  /** Without an audio context no event changes anything. */
  lemma NoAudioNoChange(s: EngineState, e: MidiEvent)
    requires !s.audio
    ensures DispatchStep(s, e) == Step(s, false)
  {
  }

  /** An unknown message changes nothing. */
  lemma UnknownChangesNothing(s: EngineState)
    ensures DispatchStep(s, Unknown) == Step(s, false)
  {
  }

  /** playNote maps the note to a fresh, started oscillator, overwriting any entry and
      leaving the other entries alone. */
  lemma PlayNoteOverwrites(s: EngineState, n: Byte)
    requires Valid(s) && s.audio
    ensures var r := PlayNoteStep(s, Some(n));
      && !r.threw
      && r.next.playing.Keys == s.playing.Keys + {Some(n)}
      && r.next.playing[Some(n)].Held?
      && r.next.playing[Some(n)].osc !in s.started
      && r.next.playing[Some(n)].osc in r.next.started
      && (forall k :: k in s.playing && k != Some(n) ==> r.next.playing[k] == s.playing[k])
      && r.next.stopped == s.stopped
  {
  }

  /** playNote without a note byte throws and leaves the table as it was. */
  lemma PlayNoteWithoutNoteThrows(s: EngineState)
    requires s.audio
    ensures var r := PlayNoteStep(s, None);
      r.threw && r.next.playing == s.playing && r.next.started == s.started
  {
  }

  /** stopNote leaves the key present and mapped to `undefined`, stops exactly the
      oscillator the entry held, and throws exactly when it held none. */
  lemma StopNoteClears(s: EngineState, note: NoteKey)
    requires s.audio
    ensures var r := StopNoteStep(s, note);
      && r.next.playing.Keys == s.playing.Keys + {note}
      && r.next.playing[note] == Cleared
      && (forall k :: k in s.playing && k != note ==> r.next.playing[k] == s.playing[k])
      && (r.threw <==> !(note in s.playing && s.playing[note].Held?))
      && r.next.stopped == (if r.threw then s.stopped else s.stopped + {s.playing[note].osc})
  {
  }

  /** When every entry holds an oscillator, stopAll stops them all and empties the table. */
  lemma StopAllResets(s: EngineState)
    requires s.audio && !HasCleared(s.playing)
    ensures var r := StopAllStep(s);
      !r.threw && r.next.playing == map[] && r.next.stopped == s.stopped + Oscs(s.playing)
  {
    var (stopped, threw) := StopFrom(s.playing, 0, s.stopped);
    forall o | o in Oscs(s.playing)
      ensures o in stopped
    {
      var k :| k in s.playing && s.playing[k].Held? && s.playing[k].osc == o;
      KeyAtCovers(k);
    }
  }

  /** After any note_off the table holds `undefined`, and stopAll throws in its forEach
      and leaves the table as it was. */
  lemma StopAllThrowsOnCleared(s: EngineState)
    requires s.audio && HasCleared(s.playing)
    ensures var r := StopAllStep(s);
      r.threw && r.next.playing == s.playing && s.stopped <= r.next.stopped <= s.stopped + Oscs(s.playing)
  {
    var k :| k in s.playing && s.playing[k] == Cleared;
    KeyAtCovers(k);
  }

  /** Every event keeps the bookkeeping consistent. */
  lemma DispatchPreservesValid(s: EngineState, e: MidiEvent)
    requires Valid(s)
    ensures Valid(DispatchStep(s, e).next)
  {
    var r := DispatchStep(s, e).next;
    if e.NoteOn? && s.audio && e.note.Some? {
      forall k, k' | k in r.playing && k' in r.playing && r.playing[k].Held? && r.playing[k] == r.playing[k']
        ensures k == k'
      {
        if k != e.note && k' != e.note {
          assert s.playing[k] == s.playing[k'];
        }
      }
    } else if e.Stop? && s.audio {
      assert Oscs(s.playing) <= s.started;
    }
  }

  /** The piano roll highlights a note right after its note_on, and no longer after
      its note_off; the other keys keep their colour. */
  lemma HighlightFollowsEvents(s: EngineState, n: Byte, i: int)
    requires s.audio && i != n
    ensures Highlighted(PlayNoteStep(s, Some(n)).next, n)
    ensures !Highlighted(StopNoteStep(s, Some(n)).next, n)
    ensures Highlighted(PlayNoteStep(s, Some(n)).next, i) == Highlighted(s, i)
    ensures Highlighted(StopNoteStep(s, Some(n)).next, i) == Highlighted(s, i)
  {
  }

  /** A note_off for a note that is not held changes no key's colour. */
  lemma OrphanNoteOffKeepsHighlights(s: EngineState, n: Byte, i: int)
    requires !Highlighted(s, n)
    ensures Highlighted(StopNoteStep(s, Some(n)).next, i) == Highlighted(s, i)
  {
  }

  /** Two note_on events for 60 leave one entry for 60; stopAll after note_on 60, 64
      and 67 empties the table. */
  lemma EngineExamples()
    ensures var s1 := PlayNoteStep(Initial.(audio := true), Some(60)).next;
      PlayNoteStep(s1, Some(60)).next.playing.Keys == {Some(60)}
    ensures var s1 := PlayNoteStep(Initial.(audio := true), Some(60)).next;
      var s2 := PlayNoteStep(s1, Some(64)).next;
      var s3 := PlayNoteStep(s2, Some(67)).next;
      StopAllStep(s3).next.playing == map[]
  {
    var s1 := PlayNoteStep(Initial.(audio := true), Some(60)).next;
    var s2 := PlayNoteStep(s1, Some(64)).next;
    var s3 := PlayNoteStep(s2, Some(67)).next;
    assert !HasCleared(s3.playing);
    StopAllResets(s3);
  }

  // ---------------------------------------------------------------------------
  // Oscillators that nothing can stop any more

  /** Every oscillator that was started and not stopped is still held by the table,
      so a later note_off or stop can silence it. */
  predicate NoOrphans(s: EngineState)
  {
    s.started - s.stopped <= Oscs(s.playing)
  }

  /** As written, a second note_on for a held note replaces its oscillator in the
      table without stopping it: the old oscillator keeps sounding and no event can
      reach it again. */
  lemma PlayNoteOrphansSoundingOscillator(s: EngineState, n: Byte)
    requires Valid(s) && s.audio
    requires Some(n) in s.playing && s.playing[Some(n)].Held?
    requires s.playing[Some(n)].osc !in s.stopped
    ensures var o := s.playing[Some(n)].osc; var r := PlayNoteStep(s, Some(n)).next;
      o in r.started && o !in r.stopped && o !in Oscs(r.playing)
    ensures !NoOrphans(PlayNoteStep(s, Some(n)).next)
  {
    var o := s.playing[Some(n)].osc;
    var r := PlayNoteStep(s, Some(n)).next;
    forall k | k in r.playing && r.playing[k].Held?
      ensures r.playing[k].osc != o
    {
      if k != Some(n) {
        assert r.playing[k] == s.playing[k];
      }
    }
    assert o in r.started - r.stopped;
  }

  /** note_on 60, note_on 60, note_off 60: the first oscillator is never stopped. */
  lemma StuckNoteExample()
    ensures var s1 := PlayNoteStep(Initial.(audio := true), Some(60)).next;
      var s2 := PlayNoteStep(s1, Some(60)).next;
      var s3 := StopNoteStep(s2, Some(60)).next;
      && s3.playing == map[Some(60) := Cleared]
      && Osc(0) in s3.started - s3.stopped
  {
  }

  /** note_on 60, note_off 60, stop: stopAll throws and the table keeps its entry. */
  lemma StopAfterNoteOffExample()
    ensures var s1 := PlayNoteStep(Initial.(audio := true), Some(60)).next;
      var s2 := StopNoteStep(s1, Some(60)).next;
      var r := StopAllStep(s2);
      r.threw && r.next.playing == map[Some(60) := Cleared]
  {
    var s1 := PlayNoteStep(Initial.(audio := true), Some(60)).next;
    var s2 := StopNoteStep(s1, Some(60)).next;
    assert s2.playing[Some(60)] == Cleared;
    StopAllThrowsOnCleared(s2);
  }

  /** playNote on a note that is not held loses no oscillator. */
  lemma PlayNoteOnSilentKeepsNoOrphans(s: EngineState, note: NoteKey)
    requires Valid(s) && NoOrphans(s)
    requires !(note in s.playing && s.playing[note].Held?)
    ensures NoOrphans(PlayNoteStep(s, note).next)
  {
    var r := PlayNoteStep(s, note).next;
    if s.audio && note.Some? {
      forall x | x in r.started - r.stopped
        ensures x in Oscs(r.playing)
      {
        if x != Osc(s.created) {
          assert x in Oscs(s.playing);
          var k :| k in s.playing && s.playing[k].Held? && s.playing[k].osc == x;
          assert r.playing[k] == s.playing[k];
        } else {
          assert r.playing[note] == Held(x);
        }
      }
    }
  }

  /** playNote with an idempotence guard: a note_on for a note whose entry already
      holds an oscillator is a no-op, and any other note_on plays as before. */
  function PlayNoteGuarded(s: EngineState, note: NoteKey): (r: Step)
    ensures note in s.playing && s.playing[note].Held? ==> r == Step(s, false)
    ensures !(note in s.playing && s.playing[note].Held?) ==> r == PlayNoteStep(s, note)
    ensures Valid(s) && NoOrphans(s) ==> Valid(r.next) && NoOrphans(r.next)
  {
    if note in s.playing && s.playing[note].Held? then Step(s, false)
    else
      var r := PlayNoteStep(s, note);
      assert Valid(s) && NoOrphans(s) ==> Valid(r.next) && NoOrphans(r.next) by {
        if Valid(s) && NoOrphans(s) {
          DispatchPreservesValid(s, NoteOn(note, 0, 0));
          PlayNoteOnSilentKeepsNoOrphans(s, note);
        }
      }
      r
  }

  /** stopAll that skips entries already set to `undefined`: it never throws, stops
      every oscillator the table holds and empties the table. */
  function StopAllGuarded(s: EngineState): (r: Step)
    ensures !r.threw
    ensures !s.audio ==> r == Step(s, false)
    ensures s.audio ==> r.next.playing == map[] && r.next.stopped == s.stopped + Oscs(s.playing)
    ensures r.next.audio == s.audio && r.next.created == s.created && r.next.started == s.started
    ensures Valid(s) ==> Valid(r.next)
    ensures s.audio && NoOrphans(s) ==> r.next.started - r.next.stopped == {}
  {
    if !s.audio then Step(s, false)
    else Step(s.(playing := map[], stopped := s.stopped + Oscs(s.playing)), false)
  }

  /** stopNote keeps every sounding oscillator reachable, as written. */
  lemma StopNoteKeepsNoOrphans(s: EngineState, note: NoteKey)
    requires Valid(s) && NoOrphans(s)
    ensures NoOrphans(StopNoteStep(s, note).next)
  {
    var r := StopNoteStep(s, note).next;
    if s.audio && note in s.playing && s.playing[note].Held? {
      var o := s.playing[note].osc;
      forall x | x in r.started - r.stopped
        ensures x in Oscs(r.playing)
      {
        assert x in Oscs(s.playing);
        var k :| k in s.playing && s.playing[k].Held? && s.playing[k].osc == x;
        assert k != note;
        assert r.playing[k] == s.playing[k];
      }
    } else if s.audio {
      forall x | x in r.started - r.stopped
        ensures x in Oscs(r.playing)
      {
        assert x in Oscs(s.playing);
        var k :| k in s.playing && s.playing[k].Held? && s.playing[k].osc == x;
        assert r.playing[k] == s.playing[k];
      }
    }
  }

  /** getMIDIMessage over the corrected playNote and stopAll. */
  function DispatchGuarded(s: EngineState, e: MidiEvent): Step
  {
    match e
    case NoteOn(note, _, _) => PlayNoteGuarded(s, note)
    case NoteOff(note, _, _) => StopNoteStep(s, note)
    case Stop => StopAllGuarded(s)
    case Unknown => Step(s, false)
  }

  /** With the corrections, no event stream leaves an oscillator sounding that the
      table has lost, and a stop always silences everything. */
  lemma GuardedDispatchKeepsNoOrphans(s: EngineState, e: MidiEvent)
    requires Valid(s) && NoOrphans(s)
    ensures Valid(DispatchGuarded(s, e).next) && NoOrphans(DispatchGuarded(s, e).next)
  {
    if e.NoteOff? {
      DispatchPreservesValid(s, e);
      StopNoteKeepsNoOrphans(s, e.note);
    }
  }

  /** The state before any event, and the state right after the audio click, keep both
      invariants, so they hold in every state the events below can reach. */
  lemma InitialValid()
    ensures Valid(Initial) && NoOrphans(Initial)
    ensures Valid(Initial.(audio := true)) && NoOrphans(Initial.(audio := true))
  {
  }

  /** The state after a sequence of events under the corrected dispatch. */
  function RunGuarded(s: EngineState, es: seq<MidiEvent>): EngineState
    decreases |es|
  {
    if es == [] then s else RunGuarded(DispatchGuarded(s, es[0]).next, es[1..])
  }

  /** Under the corrected dispatch no sequence of events leaves an oscillator sounding
      out of reach of the table. */
  lemma {:induction false} GuardedRunKeepsNoOrphans(s: EngineState, es: seq<MidiEvent>)
    requires Valid(s) && NoOrphans(s)
    ensures Valid(RunGuarded(s, es)) && NoOrphans(RunGuarded(s, es))
    decreases |es|
  {
    if es != [] {
      GuardedDispatchKeepsNoOrphans(s, es[0]);
      GuardedRunKeepsNoOrphans(DispatchGuarded(s, es[0]).next, es[1..]);
    }
  }

  // ---------------------------------------------------------------------------
  // The table as the source keeps it: module-level state changed in place

  class Engine {
    var audio: bool
    var playing: map<NoteKey, Slot>
    var created: nat
    var started: set<Osc>
    var stopped: set<Osc>

    function State(): EngineState
      reads this
    {
      EngineState(audio, playing, created, started, stopped)
    }

    constructor ()
      ensures State() == Initial
    {
      audio, playing, created, started, stopped := false, map[], 0, {}, {};
    }

    /** The start button's click handler, which creates the audio context. */
    method StartAudio()
      modifies this
      ensures State() == old(State()).(audio := true)
    {
      audio := true;
    }

    method PlayNote(note: NoteKey) returns (threw: bool)
      modifies this
      ensures Step(State(), threw) == PlayNoteStep(old(State()), note)
    {
      threw := false;
      if audio {
        var osc := Osc(created);  // ctx.createOscillator()
        created := created + 1;
        if note.None? {
          threw := true;  // osc.frequency.value = NaN
        } else {
          started := started + {osc};  // osc.start()
          playing := playing[note := Held(osc)];
        }
      }
    }

    method StopNote(note: NoteKey) returns (threw: bool)
      modifies this
      ensures Step(State(), threw) == StopNoteStep(old(State()), note)
    {
      threw := false;
      if audio {
        var slot := if note in playing then playing[note] else Cleared;
        playing := playing[note := Cleared];
        match slot {
          case Held(osc) => stopped := stopped + {osc};  // osc.stop(ctx.currentTime)
          case Cleared => threw := true;                       // undefined.stop(...)
        }
      }
    }

    method StopAll() returns (threw: bool)
      modifies this
      ensures Step(State(), threw) == StopAllStep(old(State()))
    {
      threw := false;
      if audio {
        var i := 0;
        while i < 257 && !threw
          invariant 0 <= i <= 257
          invariant audio && playing == old(playing)
          invariant created == old(created) && started == old(started)
          invariant !threw ==> StopFrom(playing, i, stopped) == StopFrom(playing, 0, old(stopped))
          invariant threw ==> StopFrom(playing, 0, old(stopped)) == (stopped, true)
        {
          var k := KeyAt(i);
          if k in playing {
            match playing[k] {
              case Cleared => threw := true;
              case Held(osc) => stopped := stopped + {osc};
            }
          }
          i := i + 1;
        }
        if !threw {
          playing := map[];
        }
      }
    }

    /** getMIDIMessage without the re-render. */
    method HandleMidiMessage(data: seq<Byte>) returns (threw: bool)
      modifies this
      ensures Step(State(), threw) == DispatchStep(old(State()), ParseMidi(data))
    {
      var midi := ParseMidi(data);
      match midi {
        case NoteOn(note, _, _) => threw := PlayNote(note);
        case NoteOff(note, _, _) => threw := StopNote(note);
        case Stop => threw := StopAll();
        case Unknown => threw := false;
      }
    }
  }
}
