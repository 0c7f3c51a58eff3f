# Sound Reactor MIDI engine and rhythm-game state machines, in Dafny

This project models the core of a Unity rhythm game built on the Sound Reactor MIDI
package, and proves properties of the model.

- **Standard MIDI File writer** (`MidiWriting.MidiWriter`). It writes variable-length
  quantities (section "Conventions" of the Standard MIDI Files 1.0 specification), the
  16- and 32-bit integers with the writer's byte order, and raw byte arrays. It also
  back-patches chunk lengths through a FIFO queue of chunk start positions.
- **MIDI event record** (`MidiEvents`). A value type with status classification
  (running status, channel voice, SysEx, meta), channel and message nibbles, the
  data-byte arity used when reading and writing, setters and structural equality.
- **Track** (`Tracks.Track`, specified by `TrackParsing` and `TrackEvents`). It parses
  one track chunk: running status as in the MIDI 1.0 Detailed Specification, SysEx
  skipped, meta events numbered and collected, stop at End of Track. It accumulates
  delta-ticks into absolute ticks, pairs each sounding note-on with its release, counts
  notes, and dispatches events to the sequencer with a one-shot `Seek` and a
  cursor-advancing `Update`.
- **Audio/MIDI sync controller** (`AudioSync.AudioMidiSync`). Each frame it reconciles
  the audio clock with the MIDI clock. It keeps latched end flags and an integrated
  audio time that snaps back into a threshold band. It corrects drift by jumping the
  MIDI forward or freezing it for one frame, and handles play, pause, resume and stop.
- **Gameplay.**
  - `Scoring.ScoreCounter`: the score/combo/multiplier state machine.
  - `Receptors.Receptor`: grading a key press by distance, plus the list of notes in
    flight.
  - `GameConfiguration.GameConfig`: the editor hook that clamps the grade distances.

Code that changes state step by step is modelled as classes whose methods carry
`modifies` clauses, arrays and loops:
- the writer's stream and queue;
- the track's event array and its `CalculateTicks`, `CalculateHoldTime`, `Seek` and
  `Update` loops;
- the sync controller's flags;
- the gameplay counters and lists.

Each method is proved against a pure specification function: `ReadLoop`, `WithTicks`,
`WithHoldTimes`, `Stamped`, `ScanEnd`, `UpdateStep`, `Touched`, `Validated`, and so on.
The properties the source promises are lemmas about those functions.

Collaborators whose source is not part of this model are parameters or inputs.
- `MidiReader` is a byte sequence and a position.
- `MetaMessage` is its type byte and payload, laid out as in Standard MIDI Files 1.0.
- `SequencerInternal` is the `Sequencing.Sequencer` class holding only the state the
  track reads and writes: tempo, time, playback speed, note counter, cursors, note grid
  and raised events.
- The audio and MIDI transports are a per-frame `AudioSync.Frame` of readings. The
  commands sent to them form an output log.
- Host endianness (`BitConverter.IsLittleEndian`) is a constructor parameter of the
  writer.

Exceptions the C# code can throw become explicit outcomes: `Bytes.Outcome`,
`Bytes.Result`, and the `thrown` flag of the sync steps.

## Model

| member | source | states |
|---|---|---|
| Bytes.ToInt16 | Assets/LDG/SoundReactor/Scripts/MIDI/Track.cs:486 | the `(short)` cast: the result is a 16-bit value congruent to the input modulo 2^16, and equal to it when it already fits |
| Bytes.ToInt32 | Assets/LDG/SoundReactor/Scripts/MIDI/Track.cs:125 | unchecked `int` arithmetic: the result is in the 32-bit range and equals the input when that fits |
| Bytes.ToUInt32 | Assets/LDG/SoundReactor/Scripts/MIDI/MidiWriter.cs:175-178 | the `(uint)` cast of an `int`: non-negative values are kept, negative ones gain 2^32 |
| Bytes.IncUInt16 | Assets/LDG/SoundReactor/Scripts/MIDI/Track.cs:114 | `metaMessageIndex++` on a `ushort`: adds one, and 0xFFFF wraps to 0 |
| Bytes.ToInt32Add | Assets/LDG/SoundReactor/Scripts/MIDI/Track.cs:120-128 | wrapping after every addition gives the same result as wrapping once at the end |
| Bytes.ReversedTwice | Assets/LDG/SoundReactor/Scripts/MIDI/MidiWriter.cs:103-114 | `Array.Reverse` applied twice restores the original order |
| Bytes.LittleEndianBound | Assets/LDG/SoundReactor/Scripts/MIDI/MidiWriter.cs:148-159 | n little-endian bytes hold a value below 256^n |
| Vlq.EncodeShape | Assets/LDG/SoundReactor/Scripts/MIDI/MidiWriter.cs:148-172 | for v ≤ MAX_VLQ the encoding has 1 to 4 bytes; every byte but the last has bit 0x80 set and the last has it clear |
| Vlq.EncodeSmall | Assets/LDG/SoundReactor/Scripts/MIDI/MidiWriter.cs:149-170 | a value below 0x80 is written as exactly one byte equal to the value |
| Vlq.DecodeEncode | Assets/LDG/SoundReactor/Scripts/MIDI/MidiWriter.cs:140-172 | reading the written bytes as big-endian 7-bit groups gives back v and consumes exactly the encoding, whatever follows it |
| Vlq.EncodeInjective | Assets/LDG/SoundReactor/Scripts/MIDI/MidiWriter.cs:140-172 | distinct writable values have distinct encodings |
| Vlq.LeadLength | Assets/LDG/SoundReactor/Scripts/MIDI/MidiWriter.cs:152-159 | the loop that shifts `v` by 7 runs at most n times for a value below 128^n |
| Vlq.LeadContinues | Assets/LDG/SoundReactor/Scripts/MIDI/MidiWriter.cs:158 | every byte the loop adds to the buffer has the continuation bit 0x80 set |
| MidiEvents.RateOf | Assets/LDG/SoundReactor/Scripts/MIDI/Track.cs:407 | `1000000.0 / tempo` in double: infinite exactly when the tempo is 0; otherwise the value multiplied by the tempo gives 10^6 |
| MidiEvents.StatusClassesDisjoint | Assets/LDG/SoundReactor/Scripts/MIDI/MidiEvent.cs:171-223 | running status, channel voice, SysEx and meta are pairwise disjoint, and a status is in none of them exactly when it lies in 0xF8..0xFE |
| MidiEvents.StatusSplits | Assets/LDG/SoundReactor/Scripts/MIDI/MidiEvent.cs:144-160 | Status = message nibble + channel nibble; an event is channel voice exactly when its message nibble is one of the seven channel-voice messages |
| MidiEvents.WithChannel | Assets/LDG/SoundReactor/Scripts/MIDI/MidiEvent.cs:162-165 | the Channel setter leaves channel = value mod 16 and clears the message nibble, touching no other field |
| MidiEvents.WithChannelKeepingMessage | Assets/LDG/SoundReactor/Scripts/MIDI/MidiEvent.cs:152-165 | the documented setter sets channel = value mod 16, keeps the message nibble and the channel-voice class, and touches no other field |
| MidiEvents.ChannelSetterDropsMessage | Assets/LDG/SoundReactor/Scripts/MIDI/MidiEvent.cs:162-165 | as written, the setter turns any channel-voice event into running status with another message; it agrees with the documented setter exactly when the message nibble is zero |
| MidiEvents.ChannelSetterCounterexample | Assets/LDG/SoundReactor/Scripts/MIDI/MidiEvent.cs:162-165 | a note-on moved to channel 3 gets status 0x03 as written and 0x93 as documented |
| MidiEvents.ClearData | Assets/LDG/SoundReactor/Scripts/MIDI/MidiEvent.cs:252-258 | DeltaTicks, Data1 and Data2 become 0 and every other field is kept |
| MidiEvents.SetNoteOnMessage | Assets/LDG/SoundReactor/Scripts/MIDI/MidiEvent.cs:353-361 | the result is a channel-0 NoteOn with the given note (Data1), velocity (Data2) and Ticks; all other fields are kept |
| MidiEvents.SetNoteOffMessage | Assets/LDG/SoundReactor/Scripts/MIDI/MidiEvent.cs:363-371 | the result is a channel-0 NoteOff with the given note, velocity and Ticks; all other fields are kept |
| MidiEvents.SetEvent | Assets/LDG/SoundReactor/Scripts/MIDI/MidiEvent.cs:373-381 | Status, Note, Velocity and Ticks take the given values; all other fields are kept |
| MidiEvents.SetMetaMessage | Assets/LDG/SoundReactor/Scripts/MIDI/MidiEvent.cs:383-390 | the result is a meta event (0xFF) holding the given message and Ticks; all other fields are kept |
| MidiEvents.EventEqualsIsEquivalence | Assets/LDG/SoundReactor/Scripts/MIDI/MidiEvent.cs:402-416 | `==` is reflexive, symmetric and transitive, and `!=` is its negation |
| MidiEvents.EventEqualsExactly | Assets/LDG/SoundReactor/Scripts/MIDI/MidiEvent.cs:402-405 | two events are equal exactly when they agree on Ticks, Status, Data1 and Data2, whatever their other fields |
| MidiEvents.ReadVlq | Assets/LDG/SoundReactor/Scripts/MIDI/Track.cs:256 | a successful `ReadVLQ` advances the position, stays inside the input and yields at most MAX_VLQ |
| MidiEvents.DecodeBounds | Assets/LDG/SoundReactor/Scripts/MIDI/Track.cs:256 | a decoded quantity consumes 1 to 4 bytes and is at most MAX_VLQ |
| MidiEvents.ReadData | Assets/LDG/SoundReactor/Scripts/MIDI/MidiEvent.cs:260-315 | `Read` fails exactly when fewer data bytes remain than the status needs (2 for NoteOff, NoteOn, PolyphonicPressure, ControlChange and PitchWheelChange; 1 for ProgramChange and ChannelPressure). Otherwise it takes them into Data1/Data2 in order and changes nothing else |
| MidiEvents.ReadMeta | Assets/LDG/SoundReactor/Scripts/MIDI/Track.cs:97-99 | reading a meta message always advances the position |
| MidiEvents.MetaBytes | Assets/LDG/SoundReactor/Scripts/MIDI/MidiEvent.cs:324 | writing a meta message succeeds exactly when its length fits a variable-length quantity; the type byte always comes first, and a failed write leaves only it |
| MidiEvents.ChannelData | Assets/LDG/SoundReactor/Scripts/MIDI/MidiEvent.cs:329-345 | the corrected data bytes of `Write` have the arity `Read` uses, Data1 first and then Data2 |
| MidiEvents.WriteArityAsWritten | Assets/LDG/SoundReactor/Scripts/MIDI/MidiEvent.cs:329-345 | as written, `Write` emits as many data bytes as `Read` consumes for every channel-voice message except PitchWheelChange, which gets none |
| MidiEvents.WriteReadRoundTrip | Assets/LDG/SoundReactor/Scripts/MIDI/MidiEvent.cs:260-348 | with the corrected pitch-wheel arity, writing a channel-voice event and reading it back recovers DeltaTicks, Status and the data bytes its message carries, and consumes exactly what was written |
| MidiEvents.PitchWheelWriteLosesData | Assets/LDG/SoundReactor/Scripts/MIDI/MidiEvent.cs:288-292 | as written, a pitch-wheel event is written as delta and status only, so reading it back takes the next two bytes of the stream as its data |
| MidiEvents.PitchWheelCounterexample | Assets/LDG/SoundReactor/Scripts/MIDI/MidiEvent.cs:317-348 | a concrete pitch-wheel event whose Data2 (0x40) comes back as 0x90, the status byte of the following event |
| MidiWriting.Overwrite | Assets/LDG/SoundReactor/Scripts/MIDI/MidiWriter.cs:108 | a stream write at a position replaces the bytes there, extends the stream when it runs past the end, and keeps everything else |
| MidiWriting.OverwriteConcat | Assets/LDG/SoundReactor/Scripts/MIDI/MidiWriter.cs:165 | two consecutive writes equal one write of their concatenation |
| MidiWriting.Resized | Assets/LDG/SoundReactor/Scripts/MIDI/MidiWriter.cs:119 | `Array.Resize` keeps the first `count` bytes and pads with zeros |
| MidiWriting.Swap16Bytes | Assets/LDG/SoundReactor/Scripts/MIDI/MidiWriter.cs:185-188 | the 16-bit swap exchanges the low and high bytes |
| MidiWriting.Swap16Reverses | Assets/LDG/SoundReactor/Scripts/MIDI/MidiWriter.cs:181-191 | the little-endian bytes of the swapped value are those of the value, reversed |
| MidiWriting.Swap32Bytes | Assets/LDG/SoundReactor/Scripts/MIDI/MidiWriter.cs:214-218 | the 32-bit swap moves byte k to byte 3−k |
| MidiWriting.Swap32Reverses | Assets/LDG/SoundReactor/Scripts/MIDI/MidiWriter.cs:210-221 | the little-endian bytes of the swapped value are those of the value, reversed |
| MidiWriting.Write16InRequestedOrder | Assets/LDG/SoundReactor/Scripts/MIDI/MidiWriter.cs:181-191 | on a little-endian host, the two written bytes read in the writer's byte order give back the value |
| MidiWriting.Le16Value | Assets/LDG/SoundReactor/Scripts/MIDI/MidiWriter.cs:181-191 | the two bytes BinaryWriter emits for a `ushort`, least significant first, read back as the value |
| MidiWriting.Swap16Involution | Assets/LDG/SoundReactor/Scripts/MIDI/MidiWriter.cs:185-188 | applying the 16-bit swap twice gives the value back |
| MidiWriting.Swap32Involution | Assets/LDG/SoundReactor/Scripts/MIDI/MidiWriter.cs:214-218 | applying the 32-bit swap twice gives the value back |
| MidiWriting.Write32InRequestedOrder | Assets/LDG/SoundReactor/Scripts/MIDI/MidiWriter.cs:210-221 | on a little-endian host, the four written bytes read in the writer's byte order give the same value whichever order was requested: the little-endian reading of the value's four bytes |
| MidiWriting.Write16OnBigEndianHost | Assets/LDG/SoundReactor/Scripts/MIDI/MidiWriter.cs:181-191 | on a big-endian host, the two written bytes read in the writer's byte order give the byte-swapped value, for either requested order |
| MidiWriting.Write32OnBigEndianHost | Assets/LDG/SoundReactor/Scripts/MIDI/MidiWriter.cs:210-221 | on a big-endian host, the four written bytes read in the writer's byte order give the little-endian reading of the byte-swapped value's four bytes, for either requested order |
| MidiWriting.MidiWriter.constructor | Assets/LDG/SoundReactor/Scripts/MIDI/MidiWriter.cs:28-45 | a writer starts at position 0 over the given stream, with an empty chunk queue and the given byte order |
| MidiWriting.MidiWriter.WriteByte | Assets/LDG/SoundReactor/Scripts/MIDI/MidiWriter.cs:165 | `base.Write(byte)` writes one byte at the position and advances it by one |
| MidiWriting.MidiWriter.ResetChunk | Assets/LDG/SoundReactor/Scripts/MIDI/MidiWriter.cs:48-51 | empties the chunk queue and leaves the stream alone |
| MidiWriting.MidiWriter.PushChunk | Assets/LDG/SoundReactor/Scripts/MIDI/MidiWriter.cs:59-74 | writes the chunk header and enqueues the position before it when the definition is included, or after it when not |
| MidiWriting.MidiWriter.PopChunk | Assets/LDG/SoundReactor/Scripts/MIDI/MidiWriter.cs:80-98 | on an empty queue it fails and changes nothing. Otherwise it dequeues the oldest position, writes size = position − start at that start, returns to the original position and leaves the rest of the queue |
| MidiWriting.MidiWriter.WriteChunk | Assets/LDG/SoundReactor/Scripts/MIDI/MidiWriter.cs:59-98 | push, body, pop: the stream holds header and body, and the size field holds the body length (plus the header's when the definition is included) |
| MidiWriting.MidiWriter.ReverseInPlace | Assets/LDG/SoundReactor/Scripts/MIDI/MidiWriter.cs:105 | `Array.Reverse` leaves the array reversed |
| MidiWriting.MidiWriter.WriteBytes | Assets/LDG/SoundReactor/Scripts/MIDI/MidiWriter.cs:100-115 | writes the bytes reversed exactly when writer and host byte orders differ and `resolveEndian` is set; the caller's array ends in its original order |
| MidiWriting.MidiWriter.Resize | Assets/LDG/SoundReactor/Scripts/MIDI/MidiWriter.cs:119 | the resized array holds `Resized` of the old contents; it is the same array when the size is unchanged and a fresh one otherwise |
| MidiWriting.MidiWriter.WriteBytesResized | Assets/LDG/SoundReactor/Scripts/MIDI/MidiWriter.cs:117-132 | a negative count fails and writes nothing; otherwise it writes exactly `count` bytes (truncated or zero-padded), oriented as `WriteBytes` does, and the caller's array is unchanged |
| MidiWriting.MidiWriter.VlqBuffer | Assets/LDG/SoundReactor/Scripts/MIDI/MidiWriter.cs:148-159 | the shift-and-OR loop builds the 32-bit buffer whose little-endian bytes are the encoding |
| MidiWriting.MidiWriter.WriteVlq | Assets/LDG/SoundReactor/Scripts/MIDI/MidiWriter.cs:140-173 | a value above MAX_VLQ (0x0FFFFFFF) fails and writes nothing; otherwise the bytes written are exactly the encoding |
| MidiWriting.VlqBufferStep | Assets/LDG/SoundReactor/Scripts/MIDI/MidiWriter.cs:162-172 | one round of the write loop emits the next encoded byte and continues exactly while that byte carries the continuation bit |
| MidiWriting.MidiWriter.WriteVlqInt | Assets/LDG/SoundReactor/Scripts/MIDI/MidiWriter.cs:175-178 | the same for an `int` cast to `uint`: a negative value becomes a value above MAX_VLQ and fails |
| MidiWriting.MidiWriter.Write16 | Assets/LDG/SoundReactor/Scripts/MIDI/MidiWriter.cs:181-191 | writes the two bytes of the value, reversed exactly when writer and host byte orders differ |
| MidiWriting.MidiWriter.Write16Signed | Assets/LDG/SoundReactor/Scripts/MIDI/MidiWriter.cs:193-196 | a `short` is written as the `ushort` with the same 16 bits |
| MidiWriting.MidiWriter.Write32 | Assets/LDG/SoundReactor/Scripts/MIDI/MidiWriter.cs:210-221 | writes the four bytes of the value, reversed exactly when writer and host byte orders differ |
| MidiWriting.MidiWriter.Write32Signed | Assets/LDG/SoundReactor/Scripts/MIDI/MidiWriter.cs:223-226 | an `int` is written as the `uint` with the same 32 bits |
| MidiWriting.MidiWriter.WriteMeta | Assets/LDG/SoundReactor/Scripts/MIDI/MidiEvent.cs:324 | writes type byte, length and payload of a meta message, with the outcome of writing the length; when the length does not fit, only the type byte is written |
| MidiWriting.MidiWriter.WriteEvent | Assets/LDG/SoundReactor/Scripts/MIDI/MidiEvent.cs:317-351 | `MidiEvent.Write` with the corrected pitch-wheel arity: the stream receives exactly the event's bytes, and the outcome is that of the delta-time write or the meta write |
| MidiWriting.MidiWriter.WritePayload | Assets/LDG/SoundReactor/Scripts/MIDI/MidiEvent.cs:322-350 | after the status byte the stream receives exactly the meta message, the channel-voice data bytes or nothing; a missing meta message fails having written nothing more |
| MidiWriting.MidiWriter.WriteChannelData | Assets/LDG/SoundReactor/Scripts/MIDI/MidiEvent.cs:329-345 | writes Data1 and then Data2, as many as the message carries |
| TrackParsing.ReadStep | Assets/LDG/SoundReactor/Scripts/MIDI/Track.cs:253-302 | every successful turn of the read loop moves the position strictly forward |
| TrackParsing.StatusStep | Assets/LDG/SoundReactor/Scripts/MIDI/Track.cs:263-301 | dispatching on the status byte never moves back further than the running-status rewind |
| TrackParsing.RunningStep | Assets/LDG/SoundReactor/Scripts/MIDI/Track.cs:263-274 | the running-status branch rewinds one byte at most |
| TrackParsing.MetaStep | Assets/LDG/SoundReactor/Scripts/MIDI/Track.cs:277-286 | the meta branch always advances |
| TrackParsing.SkipStep | Assets/LDG/SoundReactor/Scripts/MIDI/Track.cs:63-70 | skipping a SysEx block always advances |
| TrackParsing.ChannelStep | Assets/LDG/SoundReactor/Scripts/MIDI/Track.cs:294-301 | the channel-voice branch never moves back |
| TrackParsing.ReadLoopTurn | Assets/LDG/SoundReactor/Scripts/MIDI/Track.cs:253-303 | below `trackEndPos` the loop stops on a failed turn or after End of Track, and otherwise continues from the turn's state |
| TrackParsing.RunningStatusStep | Assets/LDG/SoundReactor/Scripts/MIDI/Track.cs:263-274 | a status byte below 0x80 is pushed back: the event takes the previous channel-voice status, reads its data from that byte on, and is stored; the remembered event is unchanged |
| TrackParsing.SysExSkipped | Assets/LDG/SoundReactor/Scripts/MIDI/Track.cs:288-292 | a SysEx event skips its length-prefixed payload and stores nothing: events, meta list and running status are unchanged |
| TrackParsing.StepGrows | Assets/LDG/SoundReactor/Scripts/MIDI/Track.cs:273-297 | a turn stores at most one event, appended at the end; an End-of-Track turn has stored an End-of-Track event |
| TrackParsing.ReadLoopEnds | Assets/LDG/SoundReactor/Scripts/MIDI/Track.cs:253-286 | a finished read extends the event list, and stops only at `trackEndPos` or after storing End of Track |
| TrackParsing.StepShape | Assets/LDG/SoundReactor/Scripts/MIDI/Track.cs:263-301 | each turn stores at most its event; it ends the loop exactly when that event is End of Track; a stored meta event is numbered with the incoming counter and appended to the meta list |
| TrackParsing.OnlyLastEndsTrack | Assets/LDG/SoundReactor/Scripts/MIDI/Track.cs:277-286 | no event before the last one read is an End-of-Track event |
| TrackParsing.StoredStatuses | Assets/LDG/SoundReactor/Scripts/MIDI/Track.cs:263-301 | every stored event is channel voice, meta or running status; no SysEx event is ever stored |
| TrackParsing.MetaIndicesConsecutive | Assets/LDG/SoundReactor/Scripts/MIDI/Track.cs:95-116 | the stored meta events carry consecutive 16-bit indices from the incoming counter, their messages are appended in order to the shared list, and the counter ends advanced by their number |
| TrackParsing.StepKeepsNumbering | Assets/LDG/SoundReactor/Scripts/MIDI/Track.cs:114 | one turn keeps the consecutive meta numbering |
| TrackParsing.NumberingAppends | Assets/LDG/SoundReactor/Scripts/MIDI/Track.cs:113-114 | appending one event whose meta message takes the current counter keeps the shared list, the ushort counter and the consecutive numbering in step |
| TrackEvents.TicksAccumulate | Assets/LDG/SoundReactor/Scripts/MIDI/Track.cs:118-129 | each event's Ticks is the wrapped running total of DeltaTicks up to and including it; HoldTicks is 0 and every other field is kept |
| TrackEvents.TicksArePrefixSums | Assets/LDG/SoundReactor/Scripts/MIDI/Track.cs:118-129 | with non-negative deltas and no overflow, Ticks[i] = DeltaTicks[0] + … + DeltaTicks[i], and Ticks never decreases |
| TrackEvents.DeltaSumMonotone | Assets/LDG/SoundReactor/Scripts/MIDI/Track.cs:125 | with non-negative deltas, a longer prefix has a larger sum |
| TrackEvents.NoteOnCountIsCardinality | Assets/LDG/SoundReactor/Scripts/MIDI/Track.cs:311-328 | the note count is the number of positions holding a NoteOn with non-zero velocity |
| TrackEvents.NoteOnCountAppend | Assets/LDG/SoundReactor/Scripts/MIDI/Track.cs:412-418 | note counts add up over consecutive runs, so the sequencer's counter accumulates across calls |
| TrackEvents.FirstRelease | Assets/LDG/SoundReactor/Scripts/MIDI/Track.cs:344-356 | finds the first later NoteOff, or zero-velocity NoteOn, of the same note, or reports that there is none |
| TrackEvents.FirstReleaseOfSuffix | Assets/LDG/SoundReactor/Scripts/MIDI/Track.cs:335-357 | the search depends only on the event and those after it, so holds already stored at earlier positions do not change later searches |
| TrackEvents.HoldTimesPaired | Assets/LDG/SoundReactor/Scripts/MIDI/Track.cs:330-360 | each sounding NoteOn gets HoldTicks and HoldTime from its first release. Events that are not sounding NoteOns, and NoteOns with no release, are unchanged. Nothing but the two hold fields changes |
| TrackEvents.HoldTicksNonNegative | Assets/LDG/SoundReactor/Scripts/MIDI/Track.cs:351 | with non-decreasing ticks, hold ticks are never negative |
| TrackEvents.Filter | Assets/LDG/SoundReactor/Scripts/MIDI/Track.cs:143-163 | the kept events are exactly the events that pass the test |
| TrackEvents.GroupEnd | Assets/LDG/SoundReactor/Scripts/MIDI/Track.cs:438-440 | a group runs from its first event through the following zero-delta events, up to the next non-zero delta or the end |
| TrackEvents.ScanEnd | Assets/LDG/SoundReactor/Scripts/MIDI/Track.cs:392 | the scan stops at the end or at an event later than the time |
| TrackEvents.ScanConsumesDue | Assets/LDG/SoundReactor/Scripts/MIDI/Track.cs:392-446 | when times follow deltas, every event the scan passes is due (time ≤ t) |
| TrackEvents.GroupShareTime | Assets/LDG/SoundReactor/Scripts/MIDI/Track.cs:440 | the events of a group share the time of its first event |
| TrackEvents.TempoAfterIsLastTempo | Assets/LDG/SoundReactor/Scripts/MIDI/Track.cs:403-408 | the tempo after dispatching a run is that of its last tempo meta event, or the old tempo if there is none |
| TrackEvents.StampedEvents | Assets/LDG/SoundReactor/Scripts/MIDI/Track.cs:421-429 | each dispatched event carries its meta message (or none), the sequencer's track index and the tempo in force after it; no other field changes |
| TrackEvents.Divide | Assets/LDG/SoundReactor/Scripts/MIDI/Track.cs:505 | `HoldTime / PlaybackSpeed` is a finite value exactly when the speed is non-zero |
| TrackEvents.GridWritesInRange | Assets/LDG/SoundReactor/Scripts/MIDI/Track.cs:483-510 | the note grid is written only at this track's keys with 0 ≤ note + offset < 128, and no key is removed |
| TrackEvents.GridNoteOn | Assets/LDG/SoundReactor/Scripts/MIDI/Track.cs:495-508 | a sounding NoteOn in range leaves its key with its velocity and its hold time divided by the playback speed |
| Sequencing.Sequencer.constructor | Assets/LDG/SoundReactor/Scripts/MIDI/Track.cs:452 | a fresh sequencer has no cursors, so every track's current event index reads as 0 |
| Tracks.Track.constructor | Assets/LDG/SoundReactor/Scripts/MIDI/Track.cs:52-56 | a new track has the given index and name, no events and no notes or tempo |
| Tracks.Track.Read | Assets/LDG/SoundReactor/Scripts/MIDI/Track.cs:242-309 | on success the event array is a fresh array holding `WithTicks` of the events the read loop stored, the list is cleared, and position, meta list, meta counter, name and flags are those the loop ends with; on failure the array is unchanged |
| Tracks.Track.ReadEvent | Assets/LDG/SoundReactor/Scripts/MIDI/Track.cs:255-302 | one turn of the loop follows `ReadStep` |
| Tracks.Track.ReadStatus | Assets/LDG/SoundReactor/Scripts/MIDI/Track.cs:263-301 | the status dispatch follows `StatusStep`, and a failure keeps the remembered event |
| Tracks.Track.ReadRunningStatus | Assets/LDG/SoundReactor/Scripts/MIDI/Track.cs:263-274 | the running-status branch follows `RunningStep` |
| Tracks.Track.ReadMetaMessage | Assets/LDG/SoundReactor/Scripts/MIDI/Track.cs:95-116 | the meta branch follows `MetaStep`, keeping the status |
| Tracks.Track.ReadPastData | Assets/LDG/SoundReactor/Scripts/MIDI/Track.cs:63-78 | skipping SysEx follows `SkipStep` |
| Tracks.Track.ReadChannelVoiceMessage | Assets/LDG/SoundReactor/Scripts/MIDI/Track.cs:85-93 | the channel-voice branch follows `ChannelStep` |
| Tracks.Track.CalculateTicks | Assets/LDG/SoundReactor/Scripts/MIDI/Track.cs:118-129 | the array becomes `WithTicks` of its old contents (prefix sums, hold ticks 0) |
| Tracks.Track.CountNotes | Assets/LDG/SoundReactor/Scripts/MIDI/Track.cs:311-328 | returns the number of NoteOn events with non-zero velocity |
| Tracks.Track.CalculateHoldTime | Assets/LDG/SoundReactor/Scripts/MIDI/Track.cs:330-360 | the array becomes `WithHoldTimes` of its old contents |
| Tracks.Track.FindRelease | Assets/LDG/SoundReactor/Scripts/MIDI/Track.cs:341-357 | the inner search returns exactly `FirstRelease` from the next position: the first later release of the note, or none |
| Tracks.Track.GetMaxTicks | Assets/LDG/SoundReactor/Scripts/MIDI/Track.cs:362-370 | returns max(ticks, every event's Ticks): an upper bound that is attained |
| Tracks.Track.GetMaxLength | Assets/LDG/SoundReactor/Scripts/MIDI/Track.cs:372-380 | returns max(length, every event's Time): an upper bound that is attained |
| Tracks.Track.AppendMatching | Assets/LDG/SoundReactor/Scripts/MIDI/Track.cs:143-163 | appends to the list, in order, the events that pass the test |
| Tracks.Track.GetChannelVoiceMessages | Assets/LDG/SoundReactor/Scripts/MIDI/Track.cs:143-152 | returns the list followed by the channel-voice events of the array, in array order and with repeats kept |
| Tracks.Track.GetMetaMessages | Assets/LDG/SoundReactor/Scripts/MIDI/Track.cs:154-163 | returns the list followed by the meta events of the array, in array order and with repeats kept |
| Tracks.Track.GetMidiEvents | Assets/LDG/SoundReactor/Scripts/MIDI/Track.cs:165-171 | appends every event in order |
| Tracks.Track.ChannelVoiceMessages | Assets/LDG/SoundReactor/Scripts/MIDI/Track.cs:173-187 | yields exactly the channel-voice events |
| Tracks.Track.MetaMessages | Assets/LDG/SoundReactor/Scripts/MIDI/Track.cs:189-203 | yields exactly the meta events that hold a meta message |
| Tracks.Track.SeekDispatch | Assets/LDG/SoundReactor/Scripts/MIDI/Track.cs:396-433 | one event of `Seek` updates the tempo on a tempo meta event, counts a sounding NoteOn, and hands a stamped copy to the handler if there is one |
| Tracks.Track.Seek | Assets/LDG/SoundReactor/Scripts/MIDI/Track.cs:385-448 | a negative time is a no-op and an empty track fails at index 0. Otherwise it scans from index 0 whatever the cursor, and dispatches every due group. Tempo, note counter and handled events are the folds of that run; the cursor moves past it if anything was due. The stored events are not written |
| Tracks.Track.SeekGroup | Assets/LDG/SoundReactor/Scripts/MIDI/Track.cs:395-443 | one group of `Seek`: dispatched through its end, and the cursor is set to that end |
| Tracks.Track.SeekStep | Assets/LDG/SoundReactor/Scripts/MIDI/Track.cs:397-438 | one event of `Seek` extends the dispatched run by that event: tempo, note count and handled events follow the run |
| Tracks.Track.UpdateDispatch | Assets/LDG/SoundReactor/Scripts/MIDI/Track.cs:466-522 | one event of `Update` updates the tempo and note grid, stamps the stored event and raises it |
| Tracks.Track.Update | Assets/LDG/SoundReactor/Scripts/MIDI/Track.cs:450-536 | with every event consumed it returns false and changes nothing. Otherwise it dispatches in order every due group from the stored cursor: events stamped, tempo and note grid folded, events raised. The cursor moves forward to the end of that run if anything was due; it returns false exactly when all events have been consumed |
| Tracks.Track.UpdateGroup | Assets/LDG/SoundReactor/Scripts/MIDI/Track.cs:464-528 | one group of `Update`: dispatched through its end, and the cursor is set to that end |
| Tracks.Track.UpdateStep | Assets/LDG/SoundReactor/Scripts/MIDI/Track.cs:466-524 | one event of `Update` extends the dispatched run by that event |
| AudioSync.AdjustedDelayScales | Assets/LDG/SoundReactor/Scripts/MIDI/AudioMidiSync.cs:313 | audioDelay + audioDelay·(speed − 1) equals audioDelay·speed |
| AudioSync.IdleUpdate | Assets/LDG/SoundReactor/Scripts/MIDI/AudioMidiSync.cs:307 | with a source or clip missing, while syncing, or when not playing, `Update` changes nothing and sends nothing |
| AudioSync.EndFlagsLatch | Assets/LDG/SoundReactor/Scripts/MIDI/AudioMidiSync.cs:339-345 | audioEnded becomes set exactly when it was set, or timeSamples ≥ clip samples, or the samples went backwards; midiEnded exactly when it was set or MIDI time ≥ clip length |
| AudioSync.EndFlagsNeverCleared | Assets/LDG/SoundReactor/Scripts/MIDI/AudioMidiSync.cs:339-345 | unless the end replays a looping sequence, `Update` never clears an end flag |
| AudioSync.AudioTimeInBand | Assets/LDG/SoundReactor/Scripts/MIDI/AudioMidiSync.cs:363-372 | after tracking, the integrated audio time is the source time or within syncThreshold·speed of it |
| AudioSync.DriftCorrection | Assets/LDG/SoundReactor/Scripts/MIDI/AudioMidiSync.cs:389-423 | MIDI behind by more than the band (and not ended) is set to the sync time; MIDI ahead by more than the band ends the frame at speed 0; inside the band its time is not set and it runs at the playback speed |
| AudioSync.ControlSpeed | Assets/LDG/SoundReactor/Scripts/MIDI/AudioMidiSync.cs:320-334 | taking control sets the MIDI speed to the playback speed and never sets its time |
| AudioSync.NoCorrectionUntilAudioRuns | Assets/LDG/SoundReactor/Scripts/MIDI/AudioMidiSync.cs:363 | before the audio has started, or after it has ended, `Update` only takes control of the sources |
| AudioSync.EndReplaysWhenLooping | Assets/LDG/SoundReactor/Scripts/MIDI/AudioMidiSync.cs:428-435 | once both ends are reached, `Update` replays through `Play` when looping and does nothing otherwise |
| AudioSync.PlayStartsOneSync | Assets/LDG/SoundReactor/Scripts/MIDI/AudioMidiSync.cs:472-501 | `Play` sets isPlaying. A `Play` while syncing starts no new sync. Otherwise a sync starts exactly when the MIDI source exists and is not paused, and the audio source and clip exist. A missing MIDI source throws |
| AudioSync.StopClears | Assets/LDG/SoundReactor/Scripts/MIDI/AudioMidiSync.cs:503-514 | after `Stop` neither flag is set, no end is reached and the controller is not playing |
| AudioSync.UnPauseRestartsDelayedAudio | Assets/LDG/SoundReactor/Scripts/MIDI/AudioMidiSync.cs:449-470 | outside a sync with a MIDI source, `UnPause` keeps the state and throws nothing; the audio source gets Stop then PlayDelayed of the remaining delay when that delay is negative, and UnPause otherwise; then each MIDI source is unpaused |
| AudioSync.SyncingIgnoresPause | Assets/LDG/SoundReactor/Scripts/MIDI/AudioMidiSync.cs:440-451 | while syncing, `Pause` and `UnPause` change nothing and send nothing |
| AudioSync.AudioMidiSync.constructor | Assets/LDG/SoundReactor/Scripts/MIDI/AudioMidiSync.cs:20-25 | a new controller has every flag cleared and the given settings |
| AudioSync.AudioMidiSync.SetAudioDelay | Assets/LDG/SoundReactor/Scripts/MIDI/AudioMidiSync.cs:217-232 | the setter stores the delay, and requests an immediate sync exactly when the value changes (or one was already pending) |
| AudioSync.AudioMidiSync.Pause | Assets/LDG/SoundReactor/Scripts/MIDI/AudioMidiSync.cs:440-447 | sends the pauses `PauseStep` gives and changes no state |
| AudioSync.AudioMidiSync.UnPause | Assets/LDG/SoundReactor/Scripts/MIDI/AudioMidiSync.cs:449-470 | follows `UnPauseStep`, including the throw when the audio source exists and the MIDI source does not |
| AudioSync.AudioMidiSync.Play | Assets/LDG/SoundReactor/Scripts/MIDI/AudioMidiSync.cs:472-501 | follows `PlayStep` |
| AudioSync.AudioMidiSync.Stop | Assets/LDG/SoundReactor/Scripts/MIDI/AudioMidiSync.cs:503-514 | follows `StopStep` |
| AudioSync.AudioMidiSync.Update | Assets/LDG/SoundReactor/Scripts/MIDI/AudioMidiSync.cs:305-436 | follows `UpdateStep`: state and sent commands |
| AudioSync.AudioMidiSync.SyncFrame | Assets/LDG/SoundReactor/Scripts/MIDI/AudioMidiSync.cs:312-426 | the synchronising branch follows `SyncStep` |
| AudioSync.AudioMidiSync.TakeControlOf | Assets/LDG/SoundReactor/Scripts/MIDI/AudioMidiSync.cs:320-334 | sends the speed, loop and mute commands of `TakeControl` and changes no state |
| AudioSync.AudioMidiSync.LatchEnds | Assets/LDG/SoundReactor/Scripts/MIDI/AudioMidiSync.cs:339-360 | updates the end flags, the started flag and the ended audio time as `Latched` says |
| AudioSync.AudioMidiSync.Correct | Assets/LDG/SoundReactor/Scripts/MIDI/AudioMidiSync.cs:363-424 | tracks the audio time, performs a pending immediate seek unless MIDI has ended, and sends the jump and freeze commands |
| AudioSync.AudioMidiSync.SeekIfAsked | Assets/LDG/SoundReactor/Scripts/MIDI/AudioMidiSync.cs:374-387 | a pending immediate sync seeks the MIDI source (and the delayed one) to the sync time unless the MIDI has ended, and is cleared; nothing else changes |
| AudioSync.AudioMidiSync.TrackAudioTime | Assets/LDG/SoundReactor/Scripts/MIDI/AudioMidiSync.cs:366-372 | integrates deltaTime·speed and snaps to the source time outside the band |
| AudioSync.AudioMidiSync.CorrectDrift | Assets/LDG/SoundReactor/Scripts/MIDI/AudioMidiSync.cs:391-423 | sends the jump (MIDI behind) and freeze (MIDI ahead) commands and changes no state |
| Scoring.MissResets | Assets/Source/Scripts/ScoreSystem/ScoreCounter.cs:43-46 | a miss sets the combo to 0 and the multiplier to 1 and keeps the score |
| Scoring.HitScores | Assets/Source/Scripts/ScoreSystem/ScoreCounter.cs:47-63 | a hit adds its grade score times the multiplier in force before it and adds 1 to the combo; the multiplier grows by the increment exactly when the new combo is a multiple of the upgrade step |
| Scoring.ScoreNeverDecreases | Assets/Source/Scripts/ScoreSystem/ScoreCounter.cs:47-55 | with non-negative grade scores and multiplier, the score never decreases |
| Scoring.MultiplesStep | Assets/Source/Scripts/ScoreSystem/ScoreCounter.cs:60-61 | adding one to a non-negative combo adds one to combo div k exactly when the new combo is a multiple of k |
| Scoring.TouchedKeepsMultiplier | Assets/Source/Scripts/ScoreSystem/ScoreCounter.cs:18-20 | the invariant multiplier = 1 + increment·(combo div upgrade step), which holds initially, is kept by every grade |
| Scoring.ScoreCounter.constructor | Assets/Source/Scripts/ScoreSystem/ScoreCounter.cs:27-37 | copies the five settings from the configuration and starts at score 0, combo 0, multiplier 1 |
| Scoring.ScoreCounter.NoteTouched | Assets/Source/Scripts/ScoreSystem/ScoreCounter.cs:39-68 | the new state is `Touched` of the old one. When the remainder throws (a zero upgrade step, or int.MinValue % −1), nothing is raised. Otherwise ScoreUpdated, ComboUpdated and GotGrade are raised once each, in that order |
| Receptors.GradeMonotone | Assets/Source/Scripts/ReceptorSystem/Receptor.cs:51-56 | a nearer press never gets a worse grade |
| Receptors.GradeBands | Assets/Source/Scripts/ReceptorSystem/Receptor.cs:51-56 | with ordered distances: Perfect ⇔ distance ≤ perfect; Great ⇔ perfect < distance ≤ great; Good ⇔ great < distance ≤ good; Miss ⇔ good < distance |
| Receptors.FirstOfTrack | Assets/Source/Scripts/ReceptorSystem/Receptor.cs:45 | `FirstOrDefault` returns the first note of the track, or nothing when no note has that track |
| Receptors.RemoveFirst | Assets/Source/Scripts/ReceptorSystem/Receptor.cs:58 | `List.Remove` leaves a list without the note unchanged and shortens one that has it by one |
| Receptors.RemoveFirstAt | Assets/Source/Scripts/ReceptorSystem/Receptor.cs:58 | removing a note whose first occurrence is at i removes exactly position i and keeps the order of the rest |
| Receptors.RemoveFirstOfTrack | Assets/Source/Scripts/ReceptorSystem/Receptor.cs:45-58 | removing the found note removes exactly the first note of that track |
| Receptors.Receptor.constructor | Assets/Source/Scripts/ReceptorSystem/Receptor.cs:27-37 | copies the three grade distances from the configuration and starts with no notes |
| Receptors.Receptor.OnNotePressed | Assets/Source/Scripts/ReceptorSystem/Receptor.cs:39-64 | with no note of the track, the list is unchanged and Miss is raised. Otherwise exactly the first such note is removed, the rest keep their order, and its grade by distance is raised. Either way exactly one grade is raised |
| Receptors.Receptor.AddNote | Assets/Source/Scripts/ReceptorSystem/Receptor.cs:66-69 | appends the note at the end |
| Receptors.Receptor.RemoveFirstNote | Assets/Source/Scripts/ReceptorSystem/Receptor.cs:71-75 | an empty list throws and raises nothing; otherwise the head is removed and Miss is raised |
| GameConfiguration.Validated | Assets/Source/Scripts/GameConfig.cs:44-53 | the clamped distances are non-negative and ordered (perfect ≤ great ≤ good); already valid distances are unchanged; no distance exceeds max(old, 0) |
| GameConfiguration.ValidatedIdempotent | Assets/Source/Scripts/GameConfig.cs:44-53 | validating twice is validating once |
| GameConfiguration.GameConfig.constructor | Assets/Source/Scripts/GameConfig.cs:12-42 | holds the given scores, combo settings and distances |
| GameConfiguration.GameConfig.OnValidate | Assets/Source/Scripts/GameConfig.cs:44-53 | the distances become `Validated` of the old ones, and the scores and combo settings are untouched |

## Left out

- `MidiReader`, `MetaMessage`, `MidiClip`, `SequencerInternal` and `TempoUtil` are not part of this model. The reader is modelled as a byte sequence and a position. The variable-length read accepts at most four bytes, as in Standard MIDI Files 1.0, and fails otherwise. A meta message is a type byte, a length and a payload, as in Standard MIDI Files 1.0.
- Tempo-map conversion (`CreateTempoRegions`, `RemapTicksToTime`) is left out because it delegates to `TempoUtil`. Event times are inputs. `TimesConsistent` asks that times never decrease and that a zero delta means the time of the event before. Only `TrackEvents.ScanConsumesDue` and `TrackEvents.GroupShareTime` require it; `Seek` and `Update` do not.
- `Track.Draw` (GL drawing), `AssignCustomData` (a foreign callback) and `AssignMetaMessages` are left out.
- `MidiWriter.Write(float)` is left out: it reinterprets float bits.
- `MidiEvent` fields `CustomData`, `HoldProgress` and `NormalizedVelocity` are left out. `HoldProgress` and `NormalizedVelocity` are floats derived from times and velocities; `CustomData` is an object set by a foreign callback. The core never reads them. The model does not compute `Seek`'s `HoldProgress`.
- Floating-point arithmetic is modelled with `real`: no rounding, no NaN. The two divisions that can produce an infinity are modelled explicitly: the tempo rate `1000000.0 / tempo` (`MidiEvents.RateOf`) and the grid's `HoldTime / PlaybackSpeed` at a zero speed (`TrackEvents.Divide`).
- `MidiWriting.Write16InRequestedOrder`: the requested byte order is proved for a little-endian host only. On a big-endian host the bytes come out reversed, as `MidiWriting.Write16OnBigEndianHost` states.
- `MidiWriting.Write32InRequestedOrder`: the same restriction to a little-endian host, with `MidiWriting.Write32OnBigEndianHost` for the big-endian case. It also stops at the little-endian reading of the value's four bytes. That this reading equals the 32-bit value is not proved, because converting a 32-bit vector to an integer is beyond what the solver finishes within its limits. The 16-bit case is proved in full by `MidiWriting.Le16Value`.
- `MidiWriting.MidiWriter.WriteMeta`: `MetaMessage` is not part of this model, so the layout is assumed. A payload too long for a variable-length quantity is taken to fail after the type byte has been written.
- `Tracks.Track.Seek`: it requires every meta event's index to lie inside the meta array. The source would throw an `IndexOutOfRangeException` otherwise, and the model does not cover that error.
- `Tracks.Track.Update`: it requires the same meta-index coverage as `Seek`. It also reads a missing cursor as 0, as `GetCurrentEventIndex` is assumed to do.
- `Tracks.Track.Read`: on a failed read (stream too short), the track's scratch fields are left unspecified; only the event array is stated to be unchanged. The declared track size overflowing the stream only logs, so it is not modelled.
- Before `Read`, the C# event array is null; the model starts with an empty array.
- `Debug.Log` calls and the editor-only debug fields are left out.
- `AudioSync.AudioMidiSync`: the coroutines `PrimeAudio` and `SyncMidiWithAudio`, `InitSources`, `GetComponent` and `playOnAwake` are left out; `Play` records that a sync was started (`StartSync`). Transport calls are commands in a log. `Time.deltaTime`, the source readings and MIDI time are per-frame inputs. How `MidiSource.Seek` and `time` act inside the transport is not modelled.
- Unity object existence (the implicit bool on `AudioSource`/`MidiSource`/clips) is modelled as flags. A dereference of a missing MIDI source in `Play` and `UnPause` is a `thrown` result.
- `Receptors.Receptor.OnNotePressed`: deactivating the removed note's game object (`SetActive(false)`) is left out. Note positions come from a function parameter.
- Event subscription and `Dispose` in the gameplay classes are left out; raised events are logs.
- The `GameConfig` level-generation fields and prefabs are left out.
- `Scoring.TouchedKeepsMultiplier`: it requires a combo below 2^31 − 1, because at the wrap the invariant does not hold.
- `Scoring.HitScores`: it requires a combo whose successor fits in 32 bits. `Touched` itself models the wrap.

## Findings

| source | as written | input that shows it | evidently intended | confidence | as-written member | corrected member |
|---|---|---|---|---|---|---|
| Assets/LDG/SoundReactor/Scripts/MIDI/MidiEvent.cs:331-345 | `Write` emits no data bytes for PitchWheelChange, while `Read` (lines 288-292) consumes two | a pitch-wheel event (status 0xE0, data 0x00 0x40, delta 0) followed by the bytes 0x00 0x90 0x3C 0x64 of a NoteOn with delta 0: reading back takes that event's delta and status as Data1 = 0x00 and Data2 = 0x90 | write Data1 and Data2 for PitchWheelChange, like the other two-byte messages | high; not executed | MidiEvents.PitchWheelCounterexample | MidiEvents.WriteReadRoundTrip |
| Assets/LDG/SoundReactor/Scripts/MIDI/MidiEvent.cs:162-165 | the Channel setter stores `value & 0x0F` as the whole status byte, clearing the message nibble, although its documentation (lines 152-154) says it sets the channel of a Channel Voice Message | a note-on (status 0x90) given channel 3: the status becomes 0x03, a running-status byte, instead of 0x93 | keep `Status & 0xF0` and replace only the low nibble with `value & 0x0F` | high; not executed | MidiEvents.ChannelSetterCounterexample | MidiEvents.WithChannelKeepingMessage |
