/** The note events the firmware sends, their bytes on the serial line (the Note On and Note Off
    Channel Voice Messages of the MIDI 1.0 Detailed Specification, on channel 0), and the
    "sounding" flags that `midiNoteOn` and `midiNoteOff` keep. */
module Midi {
  import opened Config

  datatype Option<T> = None | Some(value: T)

  /** One call of `midiNoteOn(note, velocity)` or `midiNoteOff(note, velocity)`. */
  datatype Event = NoteOn(note: int, velocity: int) | NoteOff(note: int, velocity: int)

  /** The three bytes one call hands to `Serial.write`: status, note, velocity. */
  datatype Message = Message(status: int, data1: int, data2: int)

  /** The MIDI channel both emitters use. */
  const MidiChannel: int := 0

  /** Status byte of a Note On (0x9n) and a Note Off (0x8n) on channel n = 0. */
  const NoteOnStatus: int := 0x90 + MidiChannel
  const NoteOffStatus: int := 0x80 + MidiChannel

  /** The C cast `(byte)x`: the value modulo 256. */
  function Byte(x: int): (b: int)
    ensures 0 <= b < 256
    ensures 0 <= x < 256 ==> b == x
  {
    x % 256
  }

  /** The bytes written for one event: the status byte tells Note On from Note Off, and the data
      bytes carry note and velocity unchanged when they are already in byte range. */
  function Wire(e: Event): (m: Message)
    ensures m.status == NoteOnStatus <==> e.NoteOn?
    ensures m.status == NoteOffStatus <==> e.NoteOff?
    ensures 0 <= m.data1 < 256 && 0 <= m.data2 < 256
    ensures 0 <= e.note < 256 ==> m.data1 == e.note
    ensures 0 <= e.velocity < 256 ==> m.data2 == e.velocity
  {
    match e
    case NoteOn(n, v) => Message(NoteOnStatus, Byte(n), Byte(v))
    case NoteOff(n, v) => Message(NoteOffStatus, Byte(n), Byte(v))
  }

  /** The bytes written for a sequence of events, one message per event, in order. */
  function WireAll(es: seq<Event>): (ms: seq<Message>)
    ensures |ms| == |es|
    ensures forall i | 0 <= i < |es| :: ms[i] == Wire(es[i])
  {
    seq(|es|, i requires 0 <= i < |es| => Wire(es[i]))
  }

  lemma WireAllAppend(a: seq<Event>, b: seq<Event>)
    ensures WireAll(a + b) == WireAll(a) + WireAll(b)
  {
    assert forall i | 0 <= i < |a + b| :: WireAll(a + b)[i] == (WireAll(a) + WireAll(b))[i];
  }

  /** An event whose note and velocity are MIDI data values (0..127). */
  predicate DataBytesValid(e: Event)
  {
    0 <= e.note < 128 && 0 <= e.velocity < 128
  }

  /** How a receiver reads a three-byte Note On / Note Off message on channel 0. It accepts
      exactly the Note On and Note Off status bytes with 7-bit data, and whatever it accepts is
      what the firmware would have written for the decoded event. */
  function Decode(m: Message): (r: Option<Event>)
    ensures r.Some? <==> (m.status == NoteOnStatus || m.status == NoteOffStatus)
                         && 0 <= m.data1 < 128 && 0 <= m.data2 < 128
    ensures r.Some? ==> DataBytesValid(r.value) && Wire(r.value) == m
  {
    if !(0 <= m.data1 < 128 && 0 <= m.data2 < 128) then None
    else if m.status == NoteOnStatus then Some(NoteOn(m.data1, m.data2))
    else if m.status == NoteOffStatus then Some(NoteOff(m.data1, m.data2))
    else None
  }

  /** A receiver decodes the bytes of every event with valid data values back into that event:
      the `(byte)` casts lose nothing and the status byte tells Note On from Note Off. */
  lemma WireRoundTrip(e: Event)
    requires DataBytesValid(e)
    ensures Decode(Wire(e)) == Some(e)
  {
  }

  /** The notes that have a "...Playing" flag, in the order `midiNoteOn` tests them: ride bow
      and bell, crash bow and bell, snare skin and rim, closed and open hi-hat. The flag of a note
      is set exactly when the note is a member of the `playing` set. */
  const Tracked: set<int> := {
    MidiNote(RideBowPad), MidiNote(RideBellPad), MidiNote(CrashBowPad), MidiNote(CrashBellPad),
    MidiNote(SnarePad), MidiNote(SnareRimPad), HatClosedNote, HatOpenNote
  }

  /** The flags after one emitter call: a Note On sets the flag of its note, a Note Off clears
      it, and a note without a flag changes nothing. */
  function AfterEvent(playing: set<int>, e: Event): (r: set<int>)
    ensures forall n | n != e.note :: n in r <==> n in playing
    ensures e.note in Tracked ==> (e.note in r <==> e.NoteOn?)
    ensures e.note !in Tracked ==> r == playing
  {
    if e.note !in Tracked then playing
    else if e.NoteOn? then playing + {e.note}
    else playing - {e.note}
  }

  /** The flags after a sequence of emitter calls. A note without a flag is never affected, and
      the flag of a tracked note is decided by the last event that names it: the last event of a
      non-empty sequence leaves its note's flag set exactly when it is a Note On. */
  function Sound(playing: set<int>, es: seq<Event>): (r: set<int>)
    ensures forall n | n !in Tracked :: n in r <==> n in playing
    ensures es != [] && es[|es| - 1].note in Tracked ==> (es[|es| - 1].note in r <==> es[|es| - 1].NoteOn?)
    decreases |es|
  {
    if es == [] then playing else Sound(AfterEvent(playing, es[0]), es[1..])
  }

  lemma {:induction false} SoundAppend(playing: set<int>, a: seq<Event>, b: seq<Event>)
    ensures Sound(playing, a + b) == Sound(Sound(playing, a), b)
    decreases |a|
  {
    if a != [] {
      assert (a + b)[1..] == a[1..] + b;
      SoundAppend(AfterEvent(playing, a[0]), a[1..], b);
    } else {
      assert a + b == b;
    }
  }

  /** A flag that none of the events names keeps its value. */
  lemma {:induction false} SoundKeepsOthers(playing: set<int>, es: seq<Event>, n: int)
    requires forall i | 0 <= i < |es| :: es[i].note != n
    ensures n in Sound(playing, es) <==> n in playing
    decreases |es|
  {
    if es != [] {
      SoundKeepsOthers(AfterEvent(playing, es[0]), es[1..], n);
    }
  }

  /** Number of Note On events. */
  function OnCount(es: seq<Event>): nat
  {
    if es == [] then 0 else (if es[0].NoteOn? then 1 else 0) + OnCount(es[1..])
  }

  function OnOne(e: Event): nat { if e.NoteOn? then 1 else 0 }

  /** `Sound`, `OnCount` and `WireAll` of one and of two events, unfolded. */
  lemma ShortSequences(playing: set<int>, a: Event, b: Event)
    ensures WireAll([]) == []
    ensures WireAll([a]) == [Wire(a)]
    ensures WireAll([a, b]) == [Wire(a), Wire(b)]
    ensures Sound(playing, []) == playing
    ensures Sound(playing, [a]) == AfterEvent(playing, a)
    ensures Sound(playing, [a, b]) == AfterEvent(AfterEvent(playing, a), b)
    ensures OnCount([a]) == OnOne(a)
    ensures OnCount([a, b]) == OnOne(a) + OnOne(b)
  {
    assert [a, b][1..] == [b];
    assert [b][1..] == [];
    assert Sound(AfterEvent(playing, a), [b]) == AfterEvent(AfterEvent(playing, a), b);
    assert OnCount([b]) == OnOne(b);
  }
}
