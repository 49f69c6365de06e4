/** The computer-keyboard component of src/Keyboard.ts: the character table, the
    octave kept by the keyup handler, the messages the two handlers dispatch and the
    `update` reducer over the active-note state. */
module Keyboard {

  /** A note as a JavaScript number: `octave * 12 + CharToNoteOffset[key]` is NaN when
      the key is not in the table. */
  datatype NoteValue = Num(n: int) | NaN

  /** CharToNoteOffset: two rows of keys spanning sixteen semitones. */
  const CharToNoteOffset: map<string, int> := map[
    "a" := 0, "w" := 1, "s" := 2, "e" := 3, "d" := 4, "f" := 5, "t" := 6, "g" := 7,
    "y" := 8, "h" := 9, "u" := 10, "j" := 11, "k" := 12, "o" := 13, "l" := 14, "p" := 15]

  /** The key for each offset, in offset order: the inverse of CharToNoteOffset. */
  const OffsetKeys: seq<string> :=
    ["a", "w", "s", "e", "d", "f", "t", "g", "y", "h", "u", "j", "k", "o", "l", "p"]

  const InitialOctave := 2
  const LowestOctave := -1
  const HighestOctave := 9
  const KeyDownVelocity := 100
  const OctaveDownKey := "z"
  const OctaveUpKey := "x"

  /** Every offset 0..15 has its key, and OffsetKeys names it. */
  lemma OffsetKeysInverse()
    ensures |OffsetKeys| == 16
    ensures forall i | 0 <= i < 16 :: OffsetKeys[i] in CharToNoteOffset && CharToNoteOffset[OffsetKeys[i]] == i
  {
  }

  /** The table maps onto the offsets 0..15 without two keys sharing an offset. */
  lemma OffsetTableIsBijective()
    ensures forall c | c in CharToNoteOffset :: 0 <= CharToNoteOffset[c] < 16 && OffsetKeys[CharToNoteOffset[c]] == c
    ensures forall c, d | c in CharToNoteOffset && d in CharToNoteOffset && c != d :: CharToNoteOffset[c] != CharToNoteOffset[d]
    ensures OctaveDownKey !in CharToNoteOffset && OctaveUpKey !in CharToNoteOffset
  {
    OffsetKeysInverse();
    forall c | c in CharToNoteOffset
      ensures 0 <= CharToNoteOffset[c] < 16 && OffsetKeys[CharToNoteOffset[c]] == c
    {
      assert c in CharToNoteOffset.Keys;
    }
  }

  /** The note a key stands for at an octave. */
  function KeyToNote(octave: int, key: string): (r: NoteValue)
    ensures r.Num? <==> key in CharToNoteOffset
    ensures r.Num? ==> 12 * octave <= r.n < 12 * octave + 16
  {
    if key in CharToNoteOffset then Num(octave * 12 + CharToNoteOffset[key]) else NaN
  }

  /** Each of the sixteen notes from the octave's C on is played by exactly one key. */
  lemma KeyToNoteCoversWindow(octave: int, n: int)
    requires 12 * octave <= n < 12 * octave + 16
    ensures KeyToNote(octave, OffsetKeys[n - 12 * octave]) == Num(n)
    ensures forall key | KeyToNote(octave, key) == Num(n) :: key == OffsetKeys[n - 12 * octave]
  {
    var i := n - 12 * octave;
    OffsetKeysInverse();
    assert CharToNoteOffset[OffsetKeys[i]] == i;
    forall key | KeyToNote(octave, key) == Num(n)
      ensures key == OffsetKeys[i]
    {
      OffsetTableIsBijective();
      assert CharToNoteOffset[key] == i;
    }
  }

  lemma KeyToNoteExamples()
    ensures KeyToNote(0, "a") == Num(0) && KeyToNote(0, "p") == Num(15)
    ensures KeyToNote(0, "q") == NaN && KeyToNote(InitialOctave, "a") == Num(24)
  {
  }

  /** The messages of `actions`. */
  datatype Message = NoteOn(note: NoteValue, velocity: int) | NoteOff(note: NoteValue)

  /** The keydown handler's message: the guard `note !== NaN` always holds, so an
      unmapped key dispatches a note_on for NaN. */
  function KeyDownMessage(octave: int, key: string): (m: Message)
    ensures m.NoteOn? && m.velocity == KeyDownVelocity
    ensures key !in CharToNoteOffset ==> m.note == NaN
    ensures key in CharToNoteOffset ==> m.note == Num(12 * octave + CharToNoteOffset[key])
  {
    NoteOn(KeyToNote(octave, key), KeyDownVelocity)
  }

  /** True when a keyup of `key` moves the octave instead of releasing a note. */
  predicate ShiftsOctave(octave: int, key: string)
  {
    (key == OctaveDownKey && octave != LowestOctave) || (key == OctaveUpKey && octave != HighestOctave)
  }

  /** The octave after the keyup handler. */
  function ShiftOctave(octave: int, key: string): (r: int)
    ensures LowestOctave <= octave <= HighestOctave ==> LowestOctave <= r <= HighestOctave
    ensures !ShiftsOctave(octave, key) <==> r == octave
    ensures -1 <= r - octave <= 1
  {
    if key == OctaveDownKey && octave != LowestOctave then octave - 1
    else if key == OctaveUpKey && octave != HighestOctave then octave + 1
    else octave
  }

  /** What the keyup handler dispatches: nothing when it moved the octave, otherwise
      a note_off (for NaN when the key is unmapped, the bounded 'z' and 'x' included). */
  function KeyUpMessages(octave: int, key: string): (ms: seq<Message>)
    ensures ShiftsOctave(octave, key) <==> ms == []
    ensures !ShiftsOctave(octave, key) ==> ms == [NoteOff(KeyToNote(octave, key))]
  {
    if ShiftsOctave(octave, key) then [] else [NoteOff(KeyToNote(octave, key))]
  }

  /** 'z' and 'x' move the octave by one and release nothing, except at the bounds,
      where the octave stays and a note_off for NaN is dispatched. */
  lemma OctaveKeys(octave: int)
    ensures octave != LowestOctave ==>
      ShiftOctave(octave, OctaveDownKey) == octave - 1 && KeyUpMessages(octave, OctaveDownKey) == []
    ensures octave != HighestOctave ==>
      ShiftOctave(octave, OctaveUpKey) == octave + 1 && KeyUpMessages(octave, OctaveUpKey) == []
    ensures ShiftOctave(LowestOctave, OctaveDownKey) == LowestOctave
    ensures KeyUpMessages(LowestOctave, OctaveDownKey) == [NoteOff(NaN)]
    ensures ShiftOctave(HighestOctave, OctaveUpKey) == HighestOctave
    ensures KeyUpMessages(HighestOctave, OctaveUpKey) == [NoteOff(NaN)]
  {
    OffsetTableIsBijective();
  }

  /** The octave after a sequence of keyups. */
  function OctaveAfter(octave: int, keys: seq<string>): int
    decreases |keys|
  {
    if keys == [] then octave else OctaveAfter(ShiftOctave(octave, keys[0]), keys[1..])
  }

  /** From the initial octave 2, any sequence of keyups keeps the octave in [-1, 9]. */
  lemma {:induction false} OctaveStaysInRange(octave: int, keys: seq<string>)
    requires LowestOctave <= octave <= HighestOctave
    ensures LowestOctave <= OctaveAfter(octave, keys) <= HighestOctave
    decreases |keys|
  {
    if keys != [] {
      OctaveStaysInRange(ShiftOctave(octave, keys[0]), keys[1..]);
    }
  }

  /** One held note: its velocity. */
  datatype Note = Note(velocity: int)

  /** The component state: the notes that are on. */
  type State = map<NoteValue, Note>

  /** Keyboard.update. A note_on for a note already on returns the state itself; a
      note_off removes the note from a copy of the state. */
  function Update(message: Message, state: State): (r: State)
    ensures message.NoteOn? ==> r.Keys == state.Keys + {message.note}
    ensures message.NoteOff? ==> r.Keys == state.Keys - {message.note}
    ensures forall n | n in state && n != message.note :: n in r && r[n] == state[n]
  {
    match message
    case NoteOn(note, velocity) =>
      if note in state then state else state[note := Note(velocity)]
    case NoteOff(note) => state - {note}
  }

  /** note_on for a note already on changes nothing; for a note not on it records the
      message's velocity. Repeating a note_on therefore changes nothing. */
  lemma UpdateNoteOn(state: State, note: NoteValue, velocity: int)
    ensures note in state ==> Update(NoteOn(note, velocity), state) == state
    ensures note !in state ==> Update(NoteOn(note, velocity), state)[note] == Note(velocity)
    ensures var s1 := Update(NoteOn(note, velocity), state); Update(NoteOn(note, velocity), s1) == s1
  {
  }

  /** note_off removes exactly that note; for a note that is not on it gives an equal state. */
  lemma UpdateNoteOff(state: State, note: NoteValue)
    ensures note !in Update(NoteOff(note), state)
    ensures note !in state ==> Update(NoteOff(note), state) == state
  {
  }

  /** From a state without the note, note_on then note_off restores the state. */
  lemma NoteOnThenOffRestores(state: State, note: NoteValue, velocity: int)
    requires note !in state
    ensures Update(NoteOff(note), Update(NoteOn(note, velocity), state)) == state
  {
  }

  /** Releasing a key after an octave shift releases a different note: the note its
      press turned on stays in the state. */
  lemma OctaveShiftWhileHeldLeavesNoteOn(state: State, octave: int, key: string)
    requires key in CharToNoteOffset && octave != LowestOctave
    ensures var pressed := KeyToNote(octave, key);
      var s1 := Update(KeyDownMessage(octave, key), state);
      var released := KeyUpMessages(ShiftOctave(octave, OctaveDownKey), key);
      |released| == 1 && pressed in Update(released[0], s1)
  {
    OffsetTableIsBijective();
  }

  /** The module-level `octave` and the messages handed to `dispatch`, in order. */
  class KeyboardInput {
    var octave: int
    var sent: seq<Message>

    predicate Valid()
      reads this
    {
      LowestOctave <= octave <= HighestOctave
    }

    constructor ()
      ensures Valid() && octave == InitialOctave && sent == []
    {
      octave, sent := InitialOctave, [];
    }

    /** The keydown listener. */
    method KeyDown(key: string)
      modifies this
      ensures octave == old(octave)
      ensures sent == old(sent) + [KeyDownMessage(old(octave), key)]
    {
      var note := if key in CharToNoteOffset then Num(octave * 12 + CharToNoteOffset[key]) else NaN;
      sent := sent + [NoteOn(note, KeyDownVelocity)];
    }

    /** The keyup listener. */
    method KeyUp(key: string)
      requires Valid()
      modifies this
      ensures Valid()
      ensures octave == ShiftOctave(old(octave), key)
      ensures sent == old(sent) + KeyUpMessages(old(octave), key)
    {
      if key == OctaveDownKey && octave != LowestOctave {
        octave := octave - 1;
      } else if key == OctaveUpKey && octave != HighestOctave {
        octave := octave + 1;
      } else {
        var note := if key in CharToNoteOffset then Num(octave * 12 + CharToNoteOffset[key]) else NaN;
        sent := sent + [NoteOff(note)];
      }
    }
  }
}
