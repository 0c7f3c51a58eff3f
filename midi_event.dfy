/** The MIDI event record of Sound Reactor: a value type (a C# struct) holding a status
    byte, two data bytes, delta and absolute ticks, times and per-dispatch scratch fields.
    Its mutating members become functions from the old value to the new one. */
module MidiEvents {
  import opened Bytes
  import Vlq

  // The channel-voice messages: the high nibble of the status byte.
  const NOTE_OFF: Byte := 0x80
  const NOTE_ON: Byte := 0x90
  const POLYPHONIC_PRESSURE: Byte := 0xA0
  const CONTROL_CHANGE: Byte := 0xB0
  const PROGRAM_CHANGE: Byte := 0xC0
  const CHANNEL_PRESSURE: Byte := 0xD0
  const PITCH_WHEEL_CHANGE: Byte := 0xE0

  const META_STATUS: Byte := 0xFF

  // Meta-event type bytes of the Standard MIDI File 1.0 format.
  const META_TRACK_NAME: Byte := 0x03
  const META_END_OF_TRACK: Byte := 0x2F
  const META_TEMPO: Byte := 0x51

  datatype MetaType = TrackName | Tempo | EndOfTrack | OtherMeta

  /** A meta message: its type byte and its payload. */
  datatype MetaMessage = MetaMessage(typeByte: Byte, data: seq<Byte>)

  function MetaTypeOf(m: MetaMessage): MetaType
  {
    if m.typeByte == META_TRACK_NAME then TrackName
    else if m.typeByte == META_TEMPO then Tempo
    else if m.typeByte == META_END_OF_TRACK then EndOfTrack
    else OtherMeta
  }

  function BigEndianValue(s: seq<Byte>): nat
  {
    if s == [] then 0 else BigEndianValue(s[..|s| - 1]) * 0x100 + s[|s| - 1]
  }

  /** Microseconds per quarter note: the payload of a tempo message read big-endian. */
  function TempoOf(m: MetaMessage): nat
  {
    BigEndianValue(m.data)
  }

  function TrackNameOf(m: MetaMessage): string
  {
    seq(|m.data|, k requires 0 <= k < |m.data| => m.data[k] as char)
  }

  /** A double produced by a division: a finite value, or the infinity that dividing
      a positive number by zero gives. */
  datatype Rate = Finite(value: real) | PositiveInfinity

  /** `1000000.0 / (double)tempo`: quarter notes per second for a tempo in microseconds
      per quarter note. */
  function RateOf(microsPerQuarter: nat): (r: Rate)
    ensures r.PositiveInfinity? <==> microsPerQuarter == 0
    ensures r.Finite? ==> r.value * (microsPerQuarter as real) == 1000000.0
  {
    if microsPerQuarter == 0 then PositiveInfinity else Finite(1000000.0 / microsPerQuarter as real)
  }

  /** The fields of MidiEvent. `tempo` is the tempo in force when the event was
      dispatched; `meta` is the MetaMessage reference (None for null). */
  datatype MidiEvent = MidiEvent(
    active: bool,
    trackIndex: int,
    tempo: Rate,
    meta: Option<MetaMessage>,
    deltaTicks: int,
    ticks: int,
    holdTicks: int,
    time: real,
    holdTime: real,
    metaMessageIndex: UInt16,
    status: Byte,
    data1: Byte,
    data2: Byte)

  /** `MidiEvent.Empty`, the all-zero struct. */
  const Empty: MidiEvent := MidiEvent(false, 0, Finite(0.0), None, 0, 0, 0, 0.0, 0.0, 0, 0, 0, 0)

  // ---------------------------------------------------------------------------
  // Status classification

  predicate IsRunningStatus(e: MidiEvent) { e.status < 0x80 }

  predicate IsChannelModeMessage(e: MidiEvent) { 0x79 <= e.status <= 0x7F }

  predicate IsChannelVoiceMessage(e: MidiEvent) { 0x80 <= e.status <= 0xEF }

  predicate IsSystemExclusiveMessage(e: MidiEvent) { 0xF0 <= e.status <= 0xF7 }

  predicate IsMetaMessage(e: MidiEvent) { e.status == META_STATUS }

  /** `Status & 0xF0`. */
  function Message(e: MidiEvent): Byte
  {
    e.status - e.status % 0x10
  }

  /** `Status & 0x0F`. */
  function Channel(e: MidiEvent): int
  {
    e.status % 0x10
  }

  /** The Channel setter: `Status = (byte)(value & 0x0F)`. For an int, `value & 0x0F`
      is the Euclidean remainder by 16, also for negative values. */
  function WithChannel(e: MidiEvent, value: int): (r: MidiEvent)
    ensures Channel(r) == value % 0x10
    ensures Message(r) == 0
    ensures r.(status := e.status) == e
  {
    e.(status := value % 0x10)
  }

  /** The Channel setter as its documentation describes it, setting the channel of a
      Channel Voice Message: `Status = (byte)((Status & 0xF0) | (value & 0x0F))`, which
      replaces the channel nibble and keeps the message nibble. */
  function WithChannelKeepingMessage(e: MidiEvent, value: int): (r: MidiEvent)
    ensures Channel(r) == value % 0x10
    ensures Message(r) == Message(e)
    ensures IsChannelVoiceMessage(r) <==> IsChannelVoiceMessage(e)
    ensures r.(status := e.status) == e
  {
    e.(status := Message(e) + value % 0x10)
  }

  /** As written, the setter turns every channel-voice event into a running-status byte
      with a different message; the two setters agree exactly on a zero message nibble. */
  lemma ChannelSetterDropsMessage(e: MidiEvent, value: int)
    ensures IsChannelVoiceMessage(e) ==> IsRunningStatus(WithChannel(e, value))
    ensures IsChannelVoiceMessage(e) ==> Message(WithChannel(e, value)) != Message(e)
    ensures WithChannel(e, value) == WithChannelKeepingMessage(e, value) <==> Message(e) == 0
  {
    if WithChannel(e, value) == WithChannelKeepingMessage(e, value) {
      assert Message(e) == Message(WithChannelKeepingMessage(e, value));
    }
  }

  /** A note-on on channel 0 moved to channel 3: the setter as written yields status
      0x03, where the documented behaviour yields 0x93. */
  lemma ChannelSetterCounterexample(e: MidiEvent)
    requires e.status == NOTE_ON
    ensures WithChannel(e, 3).status == 0x03
    ensures WithChannelKeepingMessage(e, 3).status == 0x93
  {
    assert Message(e) == 0x90;
  }

  function Note(e: MidiEvent): Byte { e.data1 }

  function Velocity(e: MidiEvent): Byte { e.data2 }

  /** The four status classes are pairwise disjoint, and 0xF8-0xFE is in none of them. */
  lemma StatusClassesDisjoint(e: MidiEvent)
    ensures !(IsRunningStatus(e) && IsChannelVoiceMessage(e))
    ensures !(IsRunningStatus(e) && IsSystemExclusiveMessage(e))
    ensures !(IsRunningStatus(e) && IsMetaMessage(e))
    ensures !(IsChannelVoiceMessage(e) && IsSystemExclusiveMessage(e))
    ensures !(IsChannelVoiceMessage(e) && IsMetaMessage(e))
    ensures !(IsSystemExclusiveMessage(e) && IsMetaMessage(e))
    ensures (!IsRunningStatus(e) && !IsChannelVoiceMessage(e) && !IsSystemExclusiveMessage(e)
             && !IsMetaMessage(e)) <==> 0xF8 <= e.status <= 0xFE
  {
  }

  /** The status byte splits into message and channel: Status = message | channel. */
  lemma StatusSplits(e: MidiEvent)
    ensures e.status == Message(e) + Channel(e)
    ensures Message(e) % 0x10 == 0 && 0 <= Channel(e) < 0x10
    ensures IsChannelVoiceMessage(e) <==>
      Message(e) in {NOTE_OFF, NOTE_ON, POLYPHONIC_PRESSURE, CONTROL_CHANGE,
                     PROGRAM_CHANGE, CHANNEL_PRESSURE, PITCH_WHEEL_CHANGE}
  {
  }

  // ---------------------------------------------------------------------------
  // Mutators

  /** ClearData: zeros DeltaTicks, Data1 and Data2 and keeps every other field. */
  function ClearData(e: MidiEvent): (r: MidiEvent)
    ensures r.deltaTicks == 0 && r.data1 == 0 && r.data2 == 0
    ensures r.(deltaTicks := e.deltaTicks, data1 := e.data1, data2 := e.data2) == e
  {
    e.(deltaTicks := 0, data1 := 0, data2 := 0)
  }

  function SetNoteOnMessage(e: MidiEvent, note: Byte, velocity: Byte, ticks: int): (r: MidiEvent)
    ensures IsChannelVoiceMessage(r) && Message(r) == NOTE_ON && Channel(r) == 0
    ensures Note(r) == note && Velocity(r) == velocity && r.ticks == ticks
    ensures r.(status := e.status, data1 := e.data1, data2 := e.data2, ticks := e.ticks) == e
  {
    e.(status := NOTE_ON, data1 := note, data2 := velocity, ticks := ticks)
  }

  function SetNoteOffMessage(e: MidiEvent, note: Byte, velocity: Byte, ticks: int): (r: MidiEvent)
    ensures IsChannelVoiceMessage(r) && Message(r) == NOTE_OFF && Channel(r) == 0
    ensures Note(r) == note && Velocity(r) == velocity && r.ticks == ticks
    ensures r.(status := e.status, data1 := e.data1, data2 := e.data2, ticks := e.ticks) == e
  {
    e.(status := NOTE_OFF, data1 := note, data2 := velocity, ticks := ticks)
  }

  function SetEvent(e: MidiEvent, status: Byte, note: Byte, velocity: Byte, ticks: int): (r: MidiEvent)
    ensures r.status == status && Note(r) == note && Velocity(r) == velocity && r.ticks == ticks
    ensures r.(status := e.status, data1 := e.data1, data2 := e.data2, ticks := e.ticks) == e
  {
    e.(status := status, data1 := note, data2 := velocity, ticks := ticks)
  }

  function SetMetaMessage(e: MidiEvent, m: MetaMessage, ticks: int): (r: MidiEvent)
    ensures IsMetaMessage(r) && r.meta == Some(m) && r.ticks == ticks
    ensures r.(status := e.status, meta := e.meta, ticks := e.ticks) == e
  {
    e.(status := META_STATUS, meta := Some(m), ticks := ticks)
  }

  // ---------------------------------------------------------------------------
  // Equality

  /** `Equals(MidiEvent)` and `==`: Ticks, Status, Data1 and Data2 only. */
  predicate EventEquals(a: MidiEvent, b: MidiEvent)
  {
    b.ticks == a.ticks && b.status == a.status && b.data1 == a.data1 && b.data2 == a.data2
  }

  /** `!=`. */
  predicate EventNotEquals(a: MidiEvent, b: MidiEvent)
  {
    !EventEquals(a, b)
  }

  /** Equality is an equivalence relation. */
  lemma EventEqualsIsEquivalence(a: MidiEvent, b: MidiEvent, c: MidiEvent)
    ensures EventEquals(a, a)
    ensures EventEquals(a, b) ==> EventEquals(b, a)
    ensures EventEquals(a, b) && EventEquals(b, c) ==> EventEquals(a, c)
    ensures EventNotEquals(a, b) <==> !EventEquals(a, b)
  {
  }

  /** Equality is exactly agreement on the four compared fields: it ignores DeltaTicks,
      Time, the hold fields, the meta reference and the scratch fields. */
  lemma EventEqualsExactly(a: MidiEvent, b: MidiEvent)
    ensures EventEquals(a, b) <==>
      a.(active := b.active, trackIndex := b.trackIndex, tempo := b.tempo, meta := b.meta,
         deltaTicks := b.deltaTicks, holdTicks := b.holdTicks, time := b.time,
         holdTime := b.holdTime, metaMessageIndex := b.metaMessageIndex) == b
  {
  }

  // ---------------------------------------------------------------------------
  // Reading (MidiReader is a stream of bytes and a position)

  /** `reader.ReadByte()` at `pos`. */
  function ReadByte(input: seq<Byte>, pos: int): Result<(Byte, int)>
  {
    if 0 <= pos < |input| then Ok((input[pos], pos + 1)) else Err(EndOfStream)
  }

  /** `reader.ReadVLQ()` at `pos`. */
  function ReadVlq(input: seq<Byte>, pos: int): (r: Result<(nat, int)>)
    ensures r.Ok? ==> pos < r.value.1 <= |input| && r.value.0 <= Vlq.MAX_VLQ
  {
    if !(0 <= pos < |input|) then Err(EndOfStream)
    else
      match Vlq.Decode(input[pos..])
      case Err(err) => Err(err)
      case Ok((v, n)) =>
        DecodeBounds(input[pos..]);
        Ok((v, pos + n))
  }

  /** A decoded quantity consumes between one and four bytes of the input and is at most MAX_VLQ. */
  lemma DecodeBounds(s: seq<Byte>)
    ensures Vlq.Decode(s).Ok? ==>
      1 <= Vlq.Decode(s).value.1 <= |s| && Vlq.Decode(s).value.1 <= 4 && Vlq.Decode(s).value.0 <= Vlq.MAX_VLQ
  {
    if s != [] && s[0] >= 0x80 {
      var a0: int := s[0] - 0x80;
      if |s| > 1 && s[1] >= 0x80 {
        var a1: int := a0 * 0x80 + (s[1] - 0x80);
        if |s| > 2 && s[2] >= 0x80 {
          assert a1 * 0x80 + (s[2] - 0x80) < 0x20_0000;
        }
      }
    }
  }

  /** The number of data bytes `Read` consumes for a status byte. */
  function DataArity(status: Byte): nat
  {
    var m := status - status % 0x10;
    if m in {NOTE_OFF, NOTE_ON, POLYPHONIC_PRESSURE, PITCH_WHEEL_CHANGE, CONTROL_CHANGE} then 2
    else if m in {PROGRAM_CHANGE, CHANNEL_PRESSURE} then 1
    else 0
  }

  /** `MidiEvent.Read`: reads the data bytes of the message selected by the status. */
  function ReadData(e: MidiEvent, input: seq<Byte>, pos: int): (r: Result<(MidiEvent, int)>)
    requires 0 <= pos <= |input|
    ensures r.Err? <==> pos + DataArity(e.status) > |input|
    ensures r.Ok? ==> r.value.1 == pos + DataArity(e.status)
    ensures r.Ok? && DataArity(e.status) >= 1 ==> r.value.0.data1 == input[pos]
    ensures r.Ok? && DataArity(e.status) == 2 ==> r.value.0.data2 == input[pos + 1]
    ensures r.Ok? ==> r.value.0.(data1 := e.data1, data2 := e.data2) == e
    ensures r.Ok? && DataArity(e.status) < 2 ==> r.value.0.data2 == e.data2
    ensures r.Ok? && DataArity(e.status) == 0 ==> r.value.0 == e
  {
    var n := DataArity(e.status);
    if n == 0 then Ok((e, pos))
    else if n == 1 then
      match ReadByte(input, pos)
      case Err(err) => Err(err)
      case Ok((d1, p)) => Ok((e.(data1 := d1), p))
    else
      match ReadByte(input, pos)
      case Err(err) => Err(err)
      case Ok((d1, p)) =>
        match ReadByte(input, p)
        case Err(err) => Err(err)
        case Ok((d2, p')) => Ok((e.(data1 := d1, data2 := d2), p'))
  }

  /** `MetaMessage.Read`: a type byte, a VLQ length and that many payload bytes, as the
      Standard MIDI File 1.0 format lays out a meta event after its 0xFF status. */
  function ReadMeta(input: seq<Byte>, pos: int): (r: Result<(MetaMessage, int)>)
    ensures r.Ok? ==> pos < r.value.1
  {
    match ReadByte(input, pos)
    case Err(err) => Err(err)
    case Ok((t, p)) =>
      match ReadVlq(input, p)
      case Err(err) => Err(err)
      case Ok((len, q)) =>
        if q + len <= |input| then Ok((MetaMessage(t, input[q..q + len]), q + len))
        else Err(EndOfStream)
  }

  // ---------------------------------------------------------------------------
  // Writing

  /** What a write emits: the bytes written before it finished or threw, and how it ended. */
  datatype Written = Written(bytes: seq<Byte>, outcome: Outcome)

  /** `MetaMessage.Write`: type byte, VLQ length, payload. */
  function MetaBytes(m: MetaMessage): (w: Written)
    ensures w.outcome.Pass? <==> |m.data| <= Vlq.MAX_VLQ
    ensures |w.bytes| >= 1 && w.bytes[0] == m.typeByte
    ensures w.outcome.Fail? ==> w.bytes == [m.typeByte]
  {
    if |m.data| > Vlq.MAX_VLQ then Written([m.typeByte], Fail(VlqTooLarge(|m.data|)))
    else Written([m.typeByte] + Vlq.Encode(|m.data|) + m.data, Pass)
  }

  /** The data bytes `Write` emits after the status, as the source writes them: two for
      note-off, note-on, polyphonic pressure and control change, one for program change
      and channel pressure, none for anything else, pitch wheel change included. */
  function ChannelDataAsWritten(e: MidiEvent): seq<Byte>
  {
    var m := Message(e);
    if m in {NOTE_OFF, NOTE_ON, POLYPHONIC_PRESSURE, CONTROL_CHANGE} then [e.data1, e.data2]
    else if m in {PROGRAM_CHANGE, CHANNEL_PRESSURE} then [e.data1]
    else []
  }

  /** The data bytes with the arity `Read` uses: pitch wheel change gets its two bytes. */
  function ChannelData(e: MidiEvent): (r: seq<Byte>)
    ensures |r| == DataArity(e.status)
    ensures |r| >= 1 ==> r[0] == e.data1
    ensures |r| == 2 ==> r[1] == e.data2
  {
    if Message(e) == PITCH_WHEEL_CHANGE then [e.data1, e.data2] else ChannelDataAsWritten(e)
  }

  /** `MidiEvent.Write` with a given choice of channel-voice data bytes: VLQ(DeltaTicks)
      (which throws, writing nothing, when `(uint)DeltaTicks` exceeds MAX_VLQ), the
      status byte, then the meta message (a null one throws) or the data bytes; any other
      status is reported and nothing more is written. */
  function EmitEvent(e: MidiEvent, cvData: seq<Byte>): Written
  {
    var d := ToUInt32(e.deltaTicks);
    if d > Vlq.MAX_VLQ then Written([], Fail(VlqTooLarge(d)))
    else
      var body := EmitPayload(e, cvData);
      Written(Vlq.Encode(d) + [e.status] + body.bytes, body.outcome)
  }

  /** What `MidiEvent.Write` writes after the status byte: the meta message (a null one
      throws, writing nothing), the data bytes of a channel-voice message, or nothing. */
  function EmitPayload(e: MidiEvent, cvData: seq<Byte>): Written
  {
    if IsMetaMessage(e) then
      match e.meta
      case None => Written([], Fail(MissingMetaMessage))
      case Some(m) => MetaBytes(m)
    else if IsChannelVoiceMessage(e) then Written(cvData, Pass)
    else Written([], Pass)
  }

  /** `MidiEvent.Write` exactly as the source writes it. */
  function EventBytesAsWritten(e: MidiEvent): Written
  {
    EmitEvent(e, ChannelDataAsWritten(e))
  }

  /** `MidiEvent.Write` with the pitch-wheel data bytes it evidently intends. */
  function EventBytes(e: MidiEvent): Written
  {
    EmitEvent(e, ChannelData(e))
  }

  /** Reading an event's bytes back the way Track.Read does for an explicit status:
      delta-ticks, status byte, then `Read`'s data bytes, into a cleared event. */
  function ReadBack(s: seq<Byte>): Result<(MidiEvent, int)>
  {
    match ReadVlq(s, 0)
    case Err(err) => Err(err)
    case Ok((d, p)) =>
      match ReadByte(s, p)
      case Err(err) => Err(err)
      case Ok((status, q)) => ReadData(Empty.(deltaTicks := d, status := status), s, q)
  }

  /** Write arity equals Read arity for every channel-voice message except pitch wheel
      change, for which the source writes no data byte. */
  lemma WriteArityAsWritten(e: MidiEvent)
    requires IsChannelVoiceMessage(e)
    ensures |ChannelDataAsWritten(e)| ==
      if Message(e) == PITCH_WHEEL_CHANGE then 0 else DataArity(e.status)
  {
  }

  /** Write-then-read round trip: for every channel-voice event with a writable delta,
      reading the written bytes back, whatever follows them, gives the same delta-ticks,
      status and data bytes (those the message carries) and ends where the event ends. */
  lemma {:induction false} WriteReadRoundTrip(e: MidiEvent, rest: seq<Byte>)
    requires IsChannelVoiceMessage(e)
    requires 0 <= e.deltaTicks <= Vlq.MAX_VLQ
    ensures EventBytes(e).outcome == Pass
    ensures ReadBack(EventBytes(e).bytes + rest) ==
      Ok((Empty.(deltaTicks := e.deltaTicks, status := e.status,
                 data1 := if DataArity(e.status) >= 1 then e.data1 else 0,
                 data2 := if DataArity(e.status) == 2 then e.data2 else 0),
          |EventBytes(e).bytes|))
  {
    var enc := Vlq.Encode(e.deltaTicks);
    var s := EventBytes(e).bytes + rest;
    assert EventBytes(e).bytes == enc + [e.status] + ChannelData(e);
    assert s == enc + ([e.status] + ChannelData(e) + rest);
    Vlq.DecodeEncode(e.deltaTicks, [e.status] + ChannelData(e) + rest);
    assert s[|enc|..] == [e.status] + ChannelData(e) + rest;
    assert ReadVlq(s, 0) == Ok((e.deltaTicks, |enc|));
    assert ReadByte(s, |enc|) == Ok((e.status, |enc| + 1));
    var n := DataArity(e.status);
    assert n >= 1 ==> s[|enc| + 1] == e.data1;
    assert n == 2 ==> s[|enc| + 2] == e.data2;
  }

  /** As written, a pitch wheel change loses its data: the writer emits only the delta
      and the status, while reading it back consumes the two bytes that follow, which
      belong to the next event. */
  lemma {:induction false} PitchWheelWriteLosesData(e: MidiEvent, rest: seq<Byte>)
    requires Message(e) == PITCH_WHEEL_CHANGE
    requires 0 <= e.deltaTicks <= Vlq.MAX_VLQ
    requires |rest| >= 2
    ensures EventBytesAsWritten(e).bytes == Vlq.Encode(e.deltaTicks) + [e.status]
    ensures ReadBack(EventBytesAsWritten(e).bytes + rest).Ok?
    ensures ReadBack(EventBytesAsWritten(e).bytes + rest).value.1
         == |EventBytesAsWritten(e).bytes| + 2
    ensures ReadBack(EventBytesAsWritten(e).bytes + rest).value.0.data1 == rest[0]
    ensures ReadBack(EventBytesAsWritten(e).bytes + rest).value.0.data2 == rest[1]
  {
    var enc := Vlq.Encode(e.deltaTicks);
    var s := EventBytesAsWritten(e).bytes + rest;
    assert s == enc + ([e.status] + rest);
    Vlq.DecodeEncode(e.deltaTicks, [e.status] + rest);
    assert s[|enc|..] == [e.status] + rest;
    assert ReadVlq(s, 0) == Ok((e.deltaTicks, |enc|));
    assert ReadByte(s, |enc|) == Ok((e.status, |enc| + 1));
    assert DataArity(e.status) == 2;
    assert s[|enc| + 1] == rest[0] && s[|enc| + 2] == rest[1];
  }

  /** A concrete instance: pitch wheel change (status 0xE0) with data 0x00 0x40 followed
      by a note-on; reading back takes the note-on's delta and status as the data. */
  lemma PitchWheelCounterexample()
    ensures var e := Empty.(status := PITCH_WHEEL_CHANGE, data1 := 0x00, data2 := 0x40);
      var back := ReadBack(EventBytesAsWritten(e).bytes + [0x00, 0x90, 0x3C, 0x64]);
      back.Ok? && back.value.0.data2 == 0x90 && back.value.0.data2 != e.data2
  {
    var e := Empty.(status := PITCH_WHEEL_CHANGE, data1 := 0x00, data2 := 0x40);
    PitchWheelWriteLosesData(e, [0x00, 0x90, 0x3C, 0x64]);
  }
}
