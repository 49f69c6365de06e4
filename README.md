# Note-event core of the jonika browser synthesizer, in Dafny

This project models the note-event logic of a browser synthesizer, without its audio
and DOM layers. The logic covers four parts:

- **MIDI decoding** (`parseMidi`). A raw byte buffer becomes a stop, note_on, note_off
  or unknown event. The byte ranges are those of the status-byte summary in the
  MIDI 1.0 Detailed Specification.
- **Piano-roll arithmetic** (`isBlackKey`, `getBlackKeyPositionOffset`).
- **Two note tables.**
  - The audio table `PLAYING_NOTES`, changed by `playNote`, `stopNote` and `stopAll`,
    which `getMIDIMessage` dispatches to.
  - The `Keyboard` component. It covers the character table, the octave that the keyup
    handler shifts, the messages the handlers dispatch and the `update` reducer.
- **The key-repeat debouncer** (`createKeyListener`).

Modules, one per concern:

| file | module | source |
|---|---|---|
| prelude.dfy | Prelude | `Option`, and JavaScript's truncating `%` |
| midi.dfy | Midi | `parseMidi` in src/main.ts |
| piano_layout.dfy | PianoLayout | `isBlackKey`, `getBlackKeyPositionOffset` in src/main.ts |
| note_engine.dfy | NoteEngine | `PLAYING_NOTES`, `playNote`, `stopNote`, `stopAll`, `getMIDIMessage` in src/main.ts |
| keyboard.dfy | Keyboard | src/Keyboard.ts |
| key_listener.dfy | KeyListener | src/key-listener.ts |

State that the source changes in place is a class:

- `NoteEngine.Engine` holds the module-level table and the audio flag.
- `Keyboard.KeyboardInput` holds the module-level `octave` and the dispatched messages.
- `KeyListener.Listener` holds the closure's `pressedKeys` and handler lists.

Each method's `ensures` gives the new state as a function of the old one. The
functions are `PlayNoteStep`, `StopNoteStep`, `StopAllStep` and `DispatchStep` for the
engine; `KeyDownMessage`, `ShiftOctave` and `KeyUpMessages` for the keyboard;
`KeyDownStep`, `KeyUpStep`, `AddHandlerStep` and `Without` for the listener. Turning the
audio on and detaching the listener are single field updates. The lemmas state the
properties of these functions.

How the model represents the runtime:

- **Oscillators** are opaque tokens (`Osc`).
- **`ctx`** becomes the flag `audio`.
- **Handler invocations** become entries of a call trace.

The model keeps these JavaScript details explicit:

- **Remainder.** `%` truncates toward zero (`Prelude.JsRem`). As a result `isBlackKey` is
  false for every negative note.
- **Missing bytes.** A missing data byte reads `undefined`. The decoded note is then
  `None`, and the property key "undefined" is the `None` key of the table.
- **The `note !== NaN` guard.** It is always true, so an unmapped key dispatches a
  message for `NaN` (`Keyboard.NoteValue.NaN`).
- **Key order.** `Object.keys` yields the integer keys in ascending order, then
  "undefined". `stopAll` walks the table in that order (`NoteEngine.KeyAt`).
- **TypeErrors** are reported as a `threw` result, in three cases:
  - `stopNote` calls `stop()` on an entry that holds no oscillator. This happens for a
    note never played or one already stopped.
  - The `forEach` of `stopAll` reaches such an entry.
  - `playNote` gets a missing note. The frequency is then NaN, and the Web Audio
    `float` attribute `frequency.value` rejects NaN before the table is written.

Where the code departs from its evident intent, the model follows the code:

- **Repeated note_on.** A note_on for a note whose entry already holds an oscillator overwrites the
  table entry with a new oscillator. It is not a no-op.
- **Orphan note_off.** A note_off for a silent note leaves the key in the table, mapped
  to `undefined`, and throws.
- **Negative notes.** Key colour does not repeat with period 12 below zero.
- **Unsubscribing.** It does not remove the handler.
- **Octave bounds.** The octave runs from -1 to 9. At a bound, 'z' or 'x' falls through
  to the note_off branch and dispatches a note_off for NaN.

`Keyboard.OctaveShiftWhileHeldLeavesNoteOn` records one more consequence of the code.
Suppose a key is released after an octave shift. The release then sends a note_off for
a different note, and the note that the press turned on stays in the state.

## Model

| member | source | states |
|---|---|---|
| Prelude.JsRem | src/main.ts:57 | JavaScript `%` for a positive divisor: agrees with the floor remainder on non-negative operands, lies in (-b, 0] on negative ones, and always differs from the operand by a multiple of the divisor |
| Midi.ParseMidi | src/main.ts:63-92 | 0xFC gives stop; a status with high nibble 9 gives note_on and 8 gives note_off, with channel = low nibble in [0,15], note = data[1] (absent when the buffer is shorter), velocity = data[2] when the length exceeds 2 and 0 otherwise; everything else, the empty buffer included, is unknown (each case as an if-and-only-if) |
| Midi.Encode | src/main.ts:63-92 | every well-formed event has a buffer of at most 3 bytes that parseMidi decodes back to exactly that event |
| Midi.ParseMidiWellFormed | src/main.ts:75-88 | every decoded event is well formed: channel in [0,15], velocity 0 when the note byte is missing |
| Midi.ParseMidiExamples | src/main.ts:70-91 | [0x90,60,100], [0x80,60,0], [0xFC], [] and a clock byte decode as expected; a Note On with velocity 0 stays a Note On |
| PianoLayout.BlackKeyPitchClasses | src/main.ts:56-61 | isBlackKey(n) holds exactly when n >= 0 and n mod 12 is 1, 3, 6, 8 or 10 |
| PianoLayout.BlackKeyPeriodic | src/main.ts:56-61 | for n >= 0 the colour of n + 12 equals that of n |
| PianoLayout.NegativeNotesBreakPeriod | src/main.ts:56-61 | with the truncating remainder, -11 is white although 1 is black |
| PianoLayout.FiveBlackKeysPerOctave | src/main.ts:56-61 | any 12 consecutive notes from 0 up contain exactly 5 black keys |
| PianoLayout.OffsetInOctave | src/main.ts:160-176 | the switch yields an offset exactly for pitch classes 1, 3, 6, 8, 10; each lies inside the octave and plus 9 is a multiple of 30 |
| PianoLayout.BlackKeyOffset | src/main.ts:156-178 | an offset exists (is not NaN) exactly for black keys; offset + 9 is a multiple of 30; it lies strictly inside its octave's 210-pixel band |
| PianoLayout.BlackKeyCentredOnWhiteBoundary | src/main.ts:156-178 | a black key's centre is 30 times the number of white keys to its left, so it sits on the boundary between two white keys |
| PianoLayout.WhiteKeyBetween | src/main.ts:56-61 | between two black keys there is at least one white key |
| PianoLayout.BlackKeyOffsetIncreasing | src/main.ts:156-178 | black-key offsets strictly increase with the note |
| NoteEngine.StopFrom | src/main.ts:119-122 | the forEach throws exactly when some entry is undefined; the stopped set only grows and only by oscillators in the table; without a throw it stops every oscillator in the table |
| NoteEngine.NoAudioNoChange | src/main.ts:98-125 | without ctx, every event leaves the state unchanged and throws nothing |
| NoteEngine.UnknownChangesNothing | src/main.ts:130-140 | an unknown event changes nothing |
| NoteEngine.PlayNoteOverwrites | src/main.ts:98-107 | with ctx, playNote maps the note to a fresh, started oscillator, overwriting any entry, adds no other key and leaves other entries and the stopped set unchanged |
| NoteEngine.PlayNoteWithoutNoteThrows | src/main.ts:100-105 | a note_on without a note byte throws before the table is written |
| NoteEngine.StopNoteClears | src/main.ts:109-115 | with ctx, stopNote keeps the key and maps it to undefined, leaves the other entries unchanged, stops exactly the oscillator the entry held, and throws exactly when it held none |
| NoteEngine.StopAllResets | src/main.ts:117-125 | with ctx and no undefined entry, stopAll stops every oscillator in the table, empties it and does not throw |
| NoteEngine.StopAllThrowsOnCleared | src/main.ts:117-125 | with an undefined entry, stopAll throws and leaves the table as it was |
| NoteEngine.DispatchPreservesValid | src/main.ts:127-143 | every dispatched event keeps the bookkeeping consistent: table oscillators started, none under two keys, stopped ones started, handles created |
| NoteEngine.HighlightFollowsEvents | src/main.ts:195-247 | with an audio context, after note_on n key n is drawn highlighted, after note_off n it is not, and all other keys keep their colour |
| NoteEngine.OrphanNoteOffKeepsHighlights | src/main.ts:109-115 | a note_off for a note that is not held changes no key's colour |
| NoteEngine.EngineExamples | src/main.ts:98-125 | note_on 60 twice leaves one entry; stop after note_on 60, 64, 67 empties the table |
| NoteEngine.PlayNoteOrphansSoundingOscillator | src/main.ts:98-107 | a note_on for a held note leaves the old oscillator started, unstopped and no longer held by the table |
| NoteEngine.StuckNoteExample | src/main.ts:98-115 | note_on 60, note_on 60, note_off 60 leaves the first oscillator sounding |
| NoteEngine.StopAfterNoteOffExample | src/main.ts:109-125 | note_on 60, note_off 60, stop: stopAll throws and the table keeps 60 mapped to undefined |
| NoteEngine.PlayNoteOnSilentKeepsNoOrphans | src/main.ts:98-107 | playNote for a note that is not held keeps every sounding oscillator held by the table |
| NoteEngine.PlayNoteGuarded | src/main.ts:98-107 | corrected playNote: a no-op for a held note, exactly the original playNote for any other; keeps the bookkeeping consistent and every sounding oscillator reachable |
| NoteEngine.StopAllGuarded | src/main.ts:117-125 | corrected stopAll: never throws; without an audio context a no-op; with one it empties the table and stops every oscillator in it, keeps the started set, the handle counter and the audio flag, and leaves nothing sounding |
| NoteEngine.StopNoteKeepsNoOrphans | src/main.ts:109-115 | stopNote keeps every sounding oscillator reachable |
| NoteEngine.GuardedDispatchKeepsNoOrphans | src/main.ts:127-143 | with the corrected playNote and stopAll, every event keeps the bookkeeping consistent and every sounding oscillator reachable |
| NoteEngine.InitialValid | src/main.ts:7-10 | the empty table, with or without an audio context, is consistent and has no orphaned oscillator |
| NoteEngine.GuardedRunKeepsNoOrphans | src/main.ts:127-143 | with the corrected dispatch, every sequence of events keeps the bookkeeping consistent and every sounding oscillator reachable |
| NoteEngine.Engine.constructor | src/main.ts:7-10 | the table starts empty and without an audio context |
| NoteEngine.Engine.StartAudio | src/main.ts:34-36 | the start button's click makes audio available and changes nothing else |
| NoteEngine.Engine.PlayNote | src/main.ts:98-107 | the new table, oscillator bookkeeping and thrown flag are those of PlayNoteStep |
| NoteEngine.Engine.StopNote | src/main.ts:109-115 | the new state and thrown flag are those of StopNoteStep |
| NoteEngine.Engine.StopAll | src/main.ts:117-125 | the loop over the keys in Object.keys order yields the state and thrown flag of StopAllStep |
| NoteEngine.Engine.HandleMidiMessage | src/main.ts:127-143 | decoding then dispatching yields DispatchStep of the decoded event |
| Keyboard.OffsetKeysInverse | src/Keyboard.ts:4-21 | every offset 0..15 has a key in the table |
| Keyboard.OffsetTableIsBijective | src/Keyboard.ts:4-21 | every mapped offset is in 0..15, no two keys share an offset, and 'z' and 'x' are unmapped |
| Keyboard.KeyToNote | src/Keyboard.ts:44 | a note is a number exactly for mapped keys, and lies in the 16 notes from 12 times the octave |
| Keyboard.KeyToNoteCoversWindow | src/Keyboard.ts:44 | each of those 16 notes is produced by exactly one key |
| Keyboard.KeyToNoteExamples | src/Keyboard.ts:44 | 'a' and 'p' at octave 0 give 0 and 15, 'q' gives NaN, 'a' at the initial octave gives 24 |
| Keyboard.KeyDownMessage | src/Keyboard.ts:43-48 | keydown always dispatches note_on with velocity 100: for a mapped key the note is 12 times the octave plus the key's offset, for an unmapped key NaN |
| Keyboard.ShiftOctave | src/Keyboard.ts:50-55 | the octave moves by at most one, only on 'z' or 'x' inside the bounds, and never leaves [-1, 9] |
| Keyboard.KeyUpMessages | src/Keyboard.ts:50-61 | keyup dispatches nothing exactly when it moved the octave, otherwise one note_off for the key's note |
| Keyboard.OctaveKeys | src/Keyboard.ts:51-59 | 'z' decrements unless at -1 and 'x' increments unless at 9, dispatching nothing; at the bounds the octave stays and note_off for NaN is dispatched |
| Keyboard.OctaveStaysInRange | src/Keyboard.ts:23-54 | from an octave in [-1, 9], any sequence of keyups keeps it in [-1, 9] |
| Keyboard.Update | src/Keyboard.ts:64-83 | note_on leaves exactly the old notes plus the note, note_off exactly the old notes minus the note; every other note keeps its velocity |
| Keyboard.UpdateNoteOn | src/Keyboard.ts:66-76 | note_on for a present note returns the state unchanged, for an absent note records its velocity; a repeated note_on changes nothing |
| Keyboard.UpdateNoteOff | src/Keyboard.ts:77-81 | note_off removes the note; for an absent note the state is equal to the old one |
| Keyboard.NoteOnThenOffRestores | src/Keyboard.ts:64-83 | from a state without the note, note_on then note_off restores the state |
| Keyboard.OctaveShiftWhileHeldLeavesNoteOn | src/Keyboard.ts:43-61 | pressing a key, shifting the octave down and releasing the key leaves the pressed note on |
| Keyboard.KeyboardInput.constructor | src/Keyboard.ts:23 | the octave starts at 2, in range, with nothing dispatched |
| Keyboard.KeyboardInput.KeyDown | src/Keyboard.ts:43-48 | appends the keydown message; the octave is unchanged |
| Keyboard.KeyboardInput.KeyUp | src/Keyboard.ts:50-61 | sets the octave to ShiftOctave, appends KeyUpMessages and keeps the octave in range |
| KeyListener.Dispatched | src/key-listener.ts:8 | a forEach calls each handler exactly once, in list order, with the event's key |
| KeyListener.Without | src/key-listener.ts:21 | the filtered copy lacks the handler, keeps every other handler with its multiplicity, and equals the list when the handler is absent |
| KeyListener.WithoutConcat | src/key-listener.ts:21 | filtering keeps the order of the remaining handlers |
| KeyListener.RepeatIsSwallowed | src/key-listener.ts:6 | keydown on a held key calls nothing and changes nothing |
| KeyListener.FirstKeyDownCallsDownHandlers | src/key-listener.ts:5-9 | keydown on a key not held marks it held and appends one call per down handler, in order, and no up call |
| KeyListener.KeyUpCallsUpHandlers | src/key-listener.ts:10-13 | keyup unmarks the key, whether or not it was held, and appends one call per up handler, in order, and no down call |
| KeyListener.PressRepeatReleasePress | src/key-listener.ts:5-13 | down, down, up, down on one key dispatches to the down handlers twice and to the up handlers once |
| KeyListener.PressRepeatReleasePressExample | src/key-listener.ts:5-13 | with one handler per list that trace makes exactly the calls down, up, down |
| KeyListener.AddHandlerAppends | src/key-listener.ts:19-26 | adding a handler appends it to its own list and changes nothing else |
| KeyListener.HandlerStillCalledAfterUnsubscribe | src/key-listener.ts:19-22 | after unsubscribing, the next fresh keydown still calls the handler |
| KeyListener.UnsubscribeStep | src/key-listener.ts:21 | corrected unsubscribe: its list becomes the list without every copy of the handler, the others kept in order; the other list, the held keys and the calls are unchanged |
| KeyListener.UnsubscribeIdempotent | src/key-listener.ts:21 | the corrected unsubscribe may be called any number of times |
| KeyListener.UnsubscribedHandlerNotCalled | src/key-listener.ts:21 | after the corrected unsubscribe, no dispatch from that list calls the handler |
| KeyListener.Listener.constructor | src/key-listener.ts:1-16 | nothing held, no handlers, listening |
| KeyListener.Listener.KeyDown | src/key-listener.ts:5-9 | the forEach loop yields exactly KeyDownStep |
| KeyListener.Listener.KeyUp | src/key-listener.ts:10-13 | the forEach loop yields exactly KeyUpStep |
| KeyListener.Listener.AddKeyDownHandler | src/key-listener.ts:19-22 | appends to the down list and returns the closure for it |
| KeyListener.Listener.AddKeyUpHandler | src/key-listener.ts:23-26 | appends to the up list and returns the closure for it |
| KeyListener.Listener.Unsubscribe | src/key-listener.ts:21-25 | returns the filtered copy, without the handler, and changes no state |
| KeyListener.Listener.Destroy | src/key-listener.ts:27-30 | detaches the listener; nothing else changes |

## Findings

| source | as written | input that shows it | evidently intended | confidence | as-written member | corrected member |
|---|---|---|---|---|---|---|
| src/main.ts:105 | playNote stores a new oscillator over one that is still sounding and never stops the old one | note_on 60, note_on 60, note_off 60 | a note_on for a held note is a no-op, so one oscillator per note | high; not executed | NoteEngine.PlayNoteOrphansSoundingOscillator | NoteEngine.PlayNoteGuarded |
| src/main.ts:112-121 | stopNote leaves `undefined` in the table, and stopAll calls `stop()` on every entry, which throws before the table is reset | note_on 60, note_off 60, then the byte 0xFC | stop silences every oscillator and empties the table | high; not executed | NoteEngine.StopAfterNoteOffExample | NoteEngine.StopAllGuarded |
| src/key-listener.ts:21 | the unsubscribe closure returns a filtered copy and never stores it, so the list keeps the handler | add handler h, call its unsubscribe, press a key | the handler is removed and no longer called | high; not executed | KeyListener.HandlerStillCalledAfterUnsubscribe | KeyListener.UnsubscribeStep |

The classes follow the code as written. The corrected definitions are gathered in
`NoteEngine.DispatchGuarded`, which `NoteEngine.GuardedDispatchKeepsNoOrphans`
proves correct, and in `KeyListener.UnsubscribeStep`.

## Left out

- `midiNoteToHz` is floating-point `Math.pow`. The frequency, `connect`, `ctx.destination`
  and `ctx.currentTime` are left out, so an oscillator is a token that is created,
  started and stopped.
- Web MIDI access (`requestMIDIAccess`, `onMIDISuccess`, `onMIDIFailure`) is browser I/O.
  `Engine.HandleMidiMessage` takes the bytes directly.
- Re-rendering (`rerender`, `morph`, the `html`/`css` templates, `view`) is DOM work. The
  only part kept is what the piano roll reads from the table (`NoteEngine.Highlighted`).
- `NoteEngine.Engine.StartAudio` models only the availability of an audio context. A
  second click creates a new context, and oscillators of the old one are not tracked
  separately.
- Window event wiring (`addEventListener`, `removeEventListener`) is reduced to the
  `listening` flag of `KeyListener.Listener`. The keyboard component's listeners are
  its two methods.
- Key names that are properties of `Object.prototype`, such as "toString", are not
  modelled. They read as functions from `CharToNoteOffset` and `pressedKeys`; the model
  treats them as unmapped keys and as keys not held.
- Handlers that add or remove handlers while a `forEach` runs are not modelled, because
  handlers are opaque.
- A handler that throws is not modelled. In the source the exception leaves the `forEach`
  (src/key-listener.ts:8 and 12), so the later handlers are not called, and after a keydown
  the key stays marked held. The model calls every handler exactly once.
- The JSON copy in the note_off branch of `update` is modelled as a plain copy. Velocities
  are integers here, and non-finite values, which JSON would turn into null, do not occur.
- NoteEngine.StopAllThrowsOnCleared: when stopAll throws, this lemma bounds the stopped set
  but does not give it exactly. `NoteEngine.StopFrom` and `NoteEngine.Engine.StopAll` give
  the exact set, which depends on the order of the keys.
- src/runtime.ts, src/App.ts, src/Create.ts, the pages, src/theme.ts, src/html.ts,
  src/utils.ts and webpack.config.js are not part of this model. They route messages,
  render views or configure the build.
