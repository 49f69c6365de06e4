/** Decoding of raw MIDI input buffers (`parseMidi` in src/main.ts). */
module Midi {
  import opened Prelude

  /** One element of the Uint8Array a MIDI input delivers. */
  type Byte = b: int | 0 <= b < 256

  /** Status bytes, as in the status-byte summary of the MIDI 1.0 Detailed Specification. */
  const StopStatus: Byte := 0xFC     // System Real-Time "Stop"
  const NoteOnStatus: Byte := 0x90   // Note On, channel 0
  const NoteOffStatus: Byte := 0x80  // Note Off, channel 0

  /** The object `parseMidi` returns. `note` is None when the buffer has no second
      byte (the source then reads `undefined`). */
  datatype MidiEvent =
    | Stop
    | NoteOn(note: Option<Byte>, velocity: Byte, channel: int)
    | NoteOff(note: Option<Byte>, velocity: Byte, channel: int)
    | Unknown

  /** The byte at index i, or None where the typed array reads `undefined`. */
  function ByteAt(data: seq<Byte>, i: nat): Option<Byte>
  {
    if i < |data| then Some(data[i]) else None
  }

  /** parseMidi. Its contract reads the status byte by its high nibble (9 = Note On,
      8 = Note Off) and its low nibble (the channel), where the code compares ranges. */
  function ParseMidi(data: seq<Byte>): (e: MidiEvent)
    ensures e.Stop? <==> |data| > 0 && data[0] == StopStatus
    ensures e.NoteOn? <==> |data| > 0 && data[0] / 16 == NoteOnStatus / 16
    ensures e.NoteOff? <==> |data| > 0 && data[0] / 16 == NoteOffStatus / 16
    ensures e.Unknown? <==> |data| == 0 || (data[0] != StopStatus && data[0] / 16 !in {8, 9})
    ensures e.NoteOn? || e.NoteOff? ==>
      && 0 <= e.channel < 16
      && e.channel == data[0] % 16
      && (e.note.Some? <==> |data| > 1)
      && (|data| > 1 ==> e.note.value == data[1])
      && e.velocity == (if |data| > 2 then data[2] else 0)
  {
    // With an empty buffer the source compares `undefined`, which matches no branch.
    if |data| == 0 then Unknown
    else
      var code := data[0];
      if code == 252 then Stop
      else if 144 <= code <= 159 then
        NoteOn(ByteAt(data, 1), if |data| > 2 then data[2] else 0, code - 144)
      else if 128 <= code <= 143 then
        NoteOff(ByteAt(data, 1), if |data| > 2 then data[2] else 0, code - 128)
      else Unknown
  }

  /** The events ParseMidi can produce: a channel in [0, 15], and velocity 0 when
      the note byte is missing. */
  predicate WellFormed(e: MidiEvent)
  {
    (e.NoteOn? || e.NoteOff?) ==> 0 <= e.channel < 16 && (e.note.None? ==> e.velocity == 0)
  }

  /** A shortest buffer for an event; the inverse of ParseMidi on well-formed events. */
  function Encode(e: MidiEvent): (data: seq<Byte>)
    requires WellFormed(e)
    ensures |data| <= 3
    ensures ParseMidi(data) == e
  {
    match e
    case Stop => [StopStatus]
    case Unknown => []
    case NoteOn(note, velocity, channel) =>
      [NoteOnStatus + channel] + (if note.Some? then [note.value, velocity] else [])
    case NoteOff(note, velocity, channel) =>
      [NoteOffStatus + channel] + (if note.Some? then [note.value, velocity] else [])
  }

  /** Every decoded event is well formed, so Encode accepts it. */
  lemma ParseMidiWellFormed(data: seq<Byte>)
    ensures WellFormed(ParseMidi(data))
  {
  }

  /** A Note On with velocity 0 stays a Note On; the decoder does not turn it into a
      Note Off. The usual three-byte messages decode as expected. */
  lemma ParseMidiExamples(note: Byte)
    ensures ParseMidi([0x90, note, 0]) == NoteOn(Some(note), 0, 0)
    ensures ParseMidi([0x90, 60, 100]) == NoteOn(Some(60), 100, 0)
    ensures ParseMidi([0x80, 60, 0]) == NoteOff(Some(60), 0, 0)
    ensures ParseMidi([0x9F, note]) == NoteOn(Some(note), 0, 15)
    ensures ParseMidi([0xFC]) == Stop
    ensures ParseMidi([0xFC, 0x90, 60]) == Stop
    ensures ParseMidi([]) == Unknown
    ensures ParseMidi([0xF8]) == Unknown
  {
  }
}
