/** A track of a MIDI clip: its name, its events, the two scratch events of the parser,
    the content flags and its index. Reading fills the event array from a track chunk;
    the passes over the array compute absolute ticks, note counts and hold times; Seek
    and Update dispatch the events that are due to the sequencer. */
module Tracks {
  import opened Bytes
  import opened MidiEvents
  import opened TrackParsing
  import opened TrackEvents
  import opened Sequencing

  class Track {
    var name: string
    /** `midiEventList`, the events of a read in progress. */
    var eventList: seq<MidiEvent>
    var midiEvents: array<MidiEvent>
    /** `midiEvent`, the parser's scratch event. */
    var cur: MidiEvent
    /** `midiEventPrev`, the last channel-voice event read: the running status. */
    var prev: MidiEvent
    var containsNotes: bool
    var containsTempo: bool
    var trackIndex: int

    /** The running status is never a system status (it starts as the zero struct and is
        only replaced by channel-voice events). */
    ghost predicate Valid()
      reads this
    {
      SaneRunningStatus(prev)
    }

    constructor(trackIndex: int, name: string)
      ensures Valid()
      ensures this.trackIndex == trackIndex && this.name == name
      ensures eventList == [] && midiEvents.Length == 0
      ensures cur == Empty && prev == Empty && !containsNotes && !containsTempo
    {
      this.trackIndex := trackIndex;
      this.name := name;
      eventList := [];
      midiEvents := new MidiEvent[0];
      cur := Empty;
      prev := Empty;
      containsNotes := false;
      containsTempo := false;
    }

    /** `IsValid`: the track holds a NoteOn or a tempo change. */
    function IsValid(): bool
      reads this
    {
      containsNotes || containsTempo
    }

    /** The parser state of this track with a reader position and the shared meta-message
        list and counter. */
    function ParseState(pos: int, metas: seq<MetaMessage>, metaIndex: UInt16): Parse
      reads this
    {
      Parse(pos, cur, prev, eventList, metas, metaIndex, name, containsNotes, containsTempo)
    }

    /** Reads a track chunk from `input` at `pos0` up to `trackEndPos`, appending meta
        messages to the shared list `metas0` under the shared counter `metaIndex0`. On
        success the event array holds the events read, with absolute ticks; a read past
        the end of the input fails with the reader's error and leaves the array alone. */
    method Read(input: seq<Byte>, pos0: nat, metas0: seq<MetaMessage>, metaIndex0: UInt16, trackEndPos: int)
      returns (outcome: Outcome, pos: int, metas: seq<MetaMessage>, metaIndex: UInt16)
      requires Valid()
      modifies this
      ensures Valid() && trackIndex == old(trackIndex)
      ensures var start := Parse(pos0, old(cur).(ticks := 0, deltaTicks := 0), old(prev), old(eventList),
                                 metas0, metaIndex0, old(name), old(containsNotes), old(containsTempo));
        match ReadLoop(input, trackEndPos, start)
        case Ok(p) =>
          && outcome == Pass && fresh(midiEvents)
          && midiEvents[..] == WithTicks(p.events) && eventList == []
          && pos == p.pos && metas == p.metas && metaIndex == p.metaIndex
          && cur == p.cur && prev == p.prev && name == p.name
          && containsNotes == p.containsNotes && containsTempo == p.containsTempo
        case Err(e) =>
          outcome == Fail(e) && midiEvents == old(midiEvents)
    {
      cur := cur.(ticks := 0, deltaTicks := 0);
      pos, metas, metaIndex := pos0, metas0, metaIndex0;
      ghost var start := ParseState(pos, metas, metaIndex);
      while pos < trackEndPos
        invariant 0 <= pos && Valid()
        invariant midiEvents == old(midiEvents) && trackIndex == old(trackIndex)
        invariant ReadLoop(input, trackEndPos, ParseState(pos, metas, metaIndex)) == ReadLoop(input, trackEndPos, start)
        decreases trackEndPos - pos
      {
        ghost var p := ParseState(pos, metas, metaIndex);
        var endOfTrack: bool;
        outcome, endOfTrack, pos, metas, metaIndex := ReadEvent(input, pos, metas, metaIndex);
        ReadLoopTurn(input, trackEndPos, p);
        if outcome.Fail? {
          return;
        }
        if endOfTrack {
          break;
        }
      }
      assert ReadLoop(input, trackEndPos, start) == Ok(ParseState(pos, metas, metaIndex));
      outcome := Pass;
      var list := eventList;
      midiEvents := new MidiEvent[|list|](i requires 0 <= i < |list| => list[i]);
      assert midiEvents[..] == list;
      eventList := [];
      CalculateTicks();
    }

    /** The outputs of a part of a read turn agree with its specification `r`: the
        reader's error, or the parser state and the end-of-track signal of the step. */
    ghost predicate Follows(r: Result<Step>, outcome: Outcome, endOfTrack: bool, pos: int,
                            metas: seq<MetaMessage>, metaIndex: UInt16)
      reads this
    {
      && (r.Err? ==> outcome == Fail(r.error))
      && (r.Ok? ==> outcome == Pass && endOfTrack == r.value.endOfTrack &&
                    ParseState(pos, metas, metaIndex) == r.value.next)
    }

    /** One turn of the read loop: clear the scratch event, read the delta-ticks and the
        status byte, then handle the event by its status. */
    method ReadEvent(input: seq<Byte>, pos0: nat, metas0: seq<MetaMessage>, metaIndex0: UInt16)
      returns (outcome: Outcome, endOfTrack: bool, pos: int, metas: seq<MetaMessage>, metaIndex: UInt16)
      requires Valid()
      modifies this
      ensures Valid() && trackIndex == old(trackIndex) && midiEvents == old(midiEvents)
      ensures Follows(ReadStep(input, old(ParseState(pos0, metas0, metaIndex0))), outcome, endOfTrack, pos, metas, metaIndex)
    {
      ghost var p := ParseState(pos0, metas0, metaIndex0);
      pos, metas, metaIndex := pos0, metas0, metaIndex0;
      cur := ClearData(cur);
      var delta := ReadVlq(input, pos);
      if delta.Err? {
        return Fail(delta.error), false, pos, metas, metaIndex;
      }
      cur := cur.(deltaTicks := delta.value.0);
      pos := delta.value.1;
      var status := ReadByte(input, pos);
      if status.Err? {
        return Fail(status.error), false, pos, metas, metaIndex;
      }
      cur := cur.(status := status.value.0);
      pos := status.value.1;
      assert ReadStep(input, p) == StatusStep(input, ParseState(pos, metas, metaIndex));
      outcome, endOfTrack, pos, metas, metaIndex := ReadStatus(input, pos, metas, metaIndex);
      if outcome.Pass? {
        StepShape(input, p);
      }
    }

    /** The branch on the status byte of the scratch event. The meta, SysEx and
        channel-voice tests are made one after the other, as the status is unchanged by
        the earlier branches. */
    method ReadStatus(input: seq<Byte>, pos0: nat, metas0: seq<MetaMessage>, metaIndex0: UInt16)
      returns (outcome: Outcome, endOfTrack: bool, pos: int, metas: seq<MetaMessage>, metaIndex: UInt16)
      requires 1 <= pos0 <= |input|
      modifies this
      ensures trackIndex == old(trackIndex) && midiEvents == old(midiEvents)
      ensures outcome.Fail? ==> prev == old(prev)
      ensures Follows(StatusStep(input, old(ParseState(pos0, metas0, metaIndex0))), outcome, endOfTrack, pos, metas, metaIndex)
    {
      if IsRunningStatus(cur) {
        outcome, pos := ReadRunningStatus(input, pos0, metas0, metaIndex0);
        return outcome, false, pos, metas0, metaIndex0;
      }
      ghost var h := ParseState(pos0, metas0, metaIndex0);
      outcome, endOfTrack, pos, metas, metaIndex := Pass, false, pos0, metas0, metaIndex0;
      if IsMetaMessage(cur) {
        assert StatusStep(input, h) == MetaStep(input, h);
        outcome, endOfTrack, pos, metas, metaIndex := ReadMetaMessage(input, pos0, metas0, metaIndex0);
        if outcome.Fail? {
          return;
        }
      }
      if IsSystemExclusiveMessage(cur) {
        assert StatusStep(input, h) == SkipStep(input, h);
        outcome, pos := ReadPastData(input, pos0, metas0, metaIndex0);
        if outcome.Fail? {
          return;
        }
      }
      if IsChannelVoiceMessage(cur) {
        assert StatusStep(input, h) == ChannelStep(input, h);
        outcome, pos := ReadChannelVoiceMessage(input, pos0, metas0, metaIndex0);
      }
      if !IsMetaMessage(old(cur)) && !IsSystemExclusiveMessage(old(cur)) && !IsChannelVoiceMessage(old(cur)) {
        assert StatusStep(input, h) == Ok(Step(h, false));
      }
    }

    /** Running status: step back onto the data byte, reuse the last channel-voice status,
        read the data bytes and store the event. */
    method ReadRunningStatus(input: seq<Byte>, pos0: nat, ghost metas: seq<MetaMessage>, ghost metaIndex: UInt16) returns (outcome: Outcome, pos: int)
      requires 1 <= pos0 <= |input|
      requires IsRunningStatus(cur)
      modifies this
      ensures trackIndex == old(trackIndex) && midiEvents == old(midiEvents) && prev == old(prev)
      ensures Follows(RunningStep(input, old(ParseState(pos0, metas, metaIndex))), outcome, false, pos, metas, metaIndex)
    {
      pos := pos0 - 1;
      cur := cur.(status := prev.status);
      var data := ReadData(cur, input, pos);
      if data.Err? {
        return Fail(data.error), pos;
      }
      cur, pos := data.value.0, data.value.1;
      if Message(cur) == NOTE_ON {
        containsNotes := true;
      }
      eventList := eventList + [cur];
      outcome := Pass;
    }

    /** A meta event: read the message, add it to the shared list, rename the track on a
        non-empty track name, note a tempo, number the event, store it, and report an
        End-of-Track. */
    method ReadMetaMessage(input: seq<Byte>, pos0: nat, metas0: seq<MetaMessage>, metaIndex0: UInt16)
      returns (outcome: Outcome, endOfTrack: bool, pos: int, metas: seq<MetaMessage>, metaIndex: UInt16)
      requires IsMetaMessage(cur)
      modifies this
      ensures trackIndex == old(trackIndex) && midiEvents == old(midiEvents) && prev == old(prev)
      ensures cur.status == old(cur.status)
      ensures Follows(MetaStep(input, old(ParseState(pos0, metas0, metaIndex0))), outcome, endOfTrack, pos, metas, metaIndex)
    {
      pos, metas, metaIndex, endOfTrack := pos0, metas0, metaIndex0, false;
      var meta := ReadMeta(input, pos);
      if meta.Err? {
        return Fail(meta.error), false, pos, metas, metaIndex;
      }
      var m := meta.value.0;
      pos := meta.value.1;
      metas := metas + [m];
      if MetaTypeOf(m) == TrackName {
        name := if TrackNameOf(m) != "" then TrackNameOf(m) else name;
      }
      if MetaTypeOf(m) == Tempo {
        containsTempo := true;
      }
      cur := cur.(metaMessageIndex := metaIndex, meta := Some(m));
      metaIndex := IncUInt16(metaIndex);
      eventList := eventList + [cur];
      endOfTrack := MetaTypeOf(m) == EndOfTrack;
      outcome := Pass;
    }

    /** A SysEx event: skip its VLQ length and that many payload bytes. */
    method ReadPastData(input: seq<Byte>, pos0: nat, ghost metas: seq<MetaMessage>, ghost metaIndex: UInt16) returns (outcome: Outcome, pos: int)
      requires IsSystemExclusiveMessage(cur)
      ensures Follows(SkipStep(input, ParseState(pos0, metas, metaIndex)), outcome, false, pos, metas, metaIndex)
    {
      var length := ReadVlq(input, pos0);
      if length.Err? {
        return Fail(length.error), pos0;
      }
      pos := length.value.1 + length.value.0;
      outcome := Pass;
    }

    /** A channel-voice event: read its data bytes, note a NoteOn, store it and make it
        the running status. */
    method ReadChannelVoiceMessage(input: seq<Byte>, pos0: nat, ghost metas: seq<MetaMessage>, ghost metaIndex: UInt16) returns (outcome: Outcome, pos: int)
      requires pos0 <= |input|
      requires IsChannelVoiceMessage(cur)
      modifies this
      ensures trackIndex == old(trackIndex) && midiEvents == old(midiEvents)
      ensures outcome.Fail? ==> prev == old(prev)
      ensures Follows(ChannelStep(input, old(ParseState(pos0, metas, metaIndex))), outcome, false, pos, metas, metaIndex)
    {
      pos := pos0;
      var data := ReadData(cur, input, pos);
      if data.Err? {
        return Fail(data.error), pos;
      }
      cur, pos := data.value.0, data.value.1;
      if Message(cur) == NOTE_ON {
        containsNotes := true;
      }
      eventList := eventList + [cur];
      prev := cur;
      outcome := Pass;
    }

    /** Fills in absolute ticks: each event's Ticks becomes the running total of the
        delta-ticks so far, and its HoldTicks 0. */
    method CalculateTicks()
      modifies midiEvents
      ensures midiEvents[..] == WithTicks(old(midiEvents[..]))
    {
      ghost var s := midiEvents[..];
      var ticks := 0;
      for i := 0 to midiEvents.Length
        invariant forall k | 0 <= k < i :: midiEvents[k] == TickedAt(s, k)
        invariant forall k | i <= k < midiEvents.Length :: midiEvents[k] == s[k]
        invariant ticks == ToInt32(DeltaSum(s[..i]))
      {
        DeltaSumSnoc(s, i);
        ToInt32Add(DeltaSum(s[..i]), s[i].deltaTicks);
        ticks := ToInt32(ticks + midiEvents[i].deltaTicks);
        midiEvents[i] := midiEvents[i].(ticks := ticks, holdTicks := 0);
      }
      WithTicksPointwise(s, midiEvents[..]);
    }

    /** The number of NoteOn events with a non-zero velocity. */
    method CountNotes() returns (noteCount: int)
      ensures noteCount == NoteOnCount(midiEvents[..])
    {
      noteCount := 0;
      for i := 0 to midiEvents.Length
        invariant noteCount == NoteOnCount(midiEvents[..i])
      {
        assert midiEvents[..i + 1][..i] == midiEvents[..i];
        if IsChannelVoiceMessage(midiEvents[i]) && Message(midiEvents[i]) == NOTE_ON {
          if Velocity(midiEvents[i]) != 0 {
            noteCount := noteCount + 1;
          }
        }
      }
      assert midiEvents[..midiEvents.Length] == midiEvents[..];
    }

    /** The inner loop of `CalculateHoldTime`: the first position after `i` whose event
        releases the note of event `i`. */
    method FindRelease(i: nat) returns (r: Option<nat>)
      requires i < midiEvents.Length
      ensures r == FirstRelease(midiEvents[..], i, i + 1)
    {
      var note := Note(midiEvents[i]);
      var j := i + 1;
      while j < midiEvents.Length
        invariant i + 1 <= j <= midiEvents.Length
        invariant FirstRelease(midiEvents[..], i, j) == FirstRelease(midiEvents[..], i, i + 1)
      {
        if Note(midiEvents[j]) == note {
          if Message(midiEvents[j]) == NOTE_OFF || (Message(midiEvents[j]) == NOTE_ON && Velocity(midiEvents[j]) == 0) {
            return Some(j);
          }
        }
        j := j + 1;
      }
      return None;
    }

    /** Pairs every sounding NoteOn with the first later release of its note number and
        stores the tick and time distance as its hold. */
    method CalculateHoldTime()
      modifies midiEvents
      ensures midiEvents[..] == WithHoldTimes(old(midiEvents[..]))
    {
      ghost var s := midiEvents[..];
      for i := 0 to midiEvents.Length
        invariant forall k | 0 <= k < i :: midiEvents[k] == HoldAt(s, k)
        invariant forall k | i <= k < midiEvents.Length :: midiEvents[k] == s[k]
      {
        if IsChannelVoiceMessage(midiEvents[i]) && Message(midiEvents[i]) == NOTE_ON && Velocity(midiEvents[i]) != 0 {
          var r := FindRelease(i);
          assert midiEvents[..][i..] == s[i..];
          FirstReleaseOfSuffix(midiEvents[..], s, i, i + 1);
          if r.Some? {
            var j := r.value;
            midiEvents[i] := midiEvents[i].(holdTicks := ToInt32(midiEvents[j].ticks - midiEvents[i].ticks),
                                            holdTime := midiEvents[j].time - midiEvents[i].time);
          }
        }
        assert midiEvents[i] == HoldAt(s, i);
      }
      assert midiEvents[..] == WithHoldTimes(s);
    }

    /** `GetMaxTicks`: the largest of `ticks` and every event's Ticks. */
    method GetMaxTicks(ticks: int) returns (r: int)
      ensures r >= ticks && forall k | 0 <= k < midiEvents.Length :: r >= midiEvents[k].ticks
      ensures r == ticks || exists k | 0 <= k < midiEvents.Length :: r == midiEvents[k].ticks
    {
      r := ticks;
      for i := 0 to midiEvents.Length
        invariant r >= ticks && forall k | 0 <= k < i :: r >= midiEvents[k].ticks
        invariant r == ticks || exists k | 0 <= k < i :: r == midiEvents[k].ticks
      {
        r := if r >= midiEvents[i].ticks then r else midiEvents[i].ticks;
      }
    }

    /** `GetMaxLength`: the largest of `length` and every event's Time. */
    method GetMaxLength(length: real) returns (r: real)
      ensures r >= length && forall k | 0 <= k < midiEvents.Length :: r >= midiEvents[k].time
      ensures r == length || exists k | 0 <= k < midiEvents.Length :: r == midiEvents[k].time
    {
      r := length;
      for i := 0 to midiEvents.Length
        invariant r >= length && forall k | 0 <= k < i :: r >= midiEvents[k].time
        invariant r == length || exists k | 0 <= k < i :: r == midiEvents[k].time
      {
        r := if r >= midiEvents[i].time then r else midiEvents[i].time;
      }
    }

    /** Appends the events of the array passing `keep` to `list`, in array order. */
    method AppendMatching(list: seq<MidiEvent>, keep: MidiEvent -> bool) returns (r: seq<MidiEvent>)
      ensures r == list + Filter(midiEvents[..], keep)
    {
      r := list;
      for i := 0 to midiEvents.Length
        invariant r == list + Filter(midiEvents[..i], keep)
      {
        assert midiEvents[..i + 1] == midiEvents[..i] + [midiEvents[i]];
        FilterSnoc(midiEvents[..i], midiEvents[i], keep);
        if keep(midiEvents[i]) {
          r := r + [midiEvents[i]];
        }
      }
      assert midiEvents[..midiEvents.Length] == midiEvents[..];
    }

    /** `GetChannelVoiceMessages`: appends the channel-voice events to `list`. */
    method GetChannelVoiceMessages(list: seq<MidiEvent>) returns (r: seq<MidiEvent>)
      ensures r == list + Filter(midiEvents[..], IsChannelVoiceMessage)
      ensures forall x :: x in r[|list|..] <==> x in midiEvents[..] && IsChannelVoiceMessage(x)
    {
      r := AppendMatching(list, IsChannelVoiceMessage);
      assert r[|list|..] == Filter(midiEvents[..], IsChannelVoiceMessage);
    }

    /** `GetMetaMessages`: appends the meta events to `list` (whether or not they carry a
        message). */
    method GetMetaMessages(list: seq<MidiEvent>) returns (r: seq<MidiEvent>)
      ensures r == list + Filter(midiEvents[..], IsMetaMessage)
      ensures forall x :: x in r[|list|..] <==> x in midiEvents[..] && IsMetaMessage(x)
    {
      r := AppendMatching(list, IsMetaMessage);
      assert r[|list|..] == Filter(midiEvents[..], IsMetaMessage);
    }

    /** `GetMidiEvents`: appends every event to `list`. */
    method GetMidiEvents(list: seq<MidiEvent>) returns (r: seq<MidiEvent>)
      ensures r == list + midiEvents[..]
    {
      r := list;
      for i := 0 to midiEvents.Length
        invariant r == list + midiEvents[..i]
      {
        assert midiEvents[..i + 1] == midiEvents[..i] + [midiEvents[i]];
        r := r + [midiEvents[i]];
      }
      assert midiEvents[..midiEvents.Length] == midiEvents[..];
    }

    /** The `ChannelVoiceMessages` enumeration. */
    function ChannelVoiceMessages(): (r: seq<MidiEvent>)
      reads this, midiEvents
      ensures forall x :: x in r <==> x in midiEvents[..] && IsChannelVoiceMessage(x)
    {
      Filter(midiEvents[..], IsChannelVoiceMessage)
    }

    /** The `MetaMessages` enumeration: meta events that carry their message. */
    function MetaMessages(): (r: seq<MidiEvent>)
      reads this, midiEvents
      ensures forall x :: x in r <==> x in midiEvents[..] && IsMetaMessage(x) && x.meta.Some?
    {
      Filter(midiEvents[..], IsMetaWithMessage)
    }

    // -------------------------------------------------------------------------
    // Dispatch

    /** Dispatches one event during Seek: a tempo meta event sets the sequencer tempo, a
        sounding NoteOn counts a note, and with a handler the event, stamped with its
        message, the sequencer's track index and the tempo, is handed to it. */
    static method SeekDispatch(sq: Sequencer, metas: seq<MetaMessage>, e: MidiEvent, hasHandler: bool,
                               handled: seq<MidiEvent>) returns (handled': seq<MidiEvent>)
      requires IsMetaMessage(e) ==> e.metaMessageIndex < |metas|
      modifies sq
      ensures sq.tempo == TempoStep(old(sq.tempo), e, metas)
      ensures sq.noteCounter == old(sq.noteCounter) + (if IsSoundingNoteOn(e) then 1 else 0)
      ensures handled' == handled + (if hasHandler then [Stamp(e, metas, sq.trackIndex, sq.tempo)] else [])
      ensures sq.cursors == old(sq.cursors) && sq.time == old(sq.time) && sq.trackIndex == old(sq.trackIndex)
      ensures sq.playbackSpeed == old(sq.playbackSpeed) && sq.noteGrid == old(sq.noteGrid)
      ensures sq.raised == old(sq.raised)
    {
      var metaMessage: Option<MetaMessage> := None;
      if IsMetaMessage(e) {
        metaMessage := Some(metas[e.metaMessageIndex]);
        if MetaTypeOf(metas[e.metaMessageIndex]) == Tempo {
          sq.tempo := RateOf(TempoOf(metas[e.metaMessageIndex]));
        }
      }
      if IsChannelVoiceMessage(e) && Message(e) == NOTE_ON {
        if Velocity(e) != 0 {
          sq.noteCounter := sq.noteCounter + 1;
        }
      }
      handled' := handled;
      if hasHandler {
        var c := e.(meta := metaMessage);
        c := c.(trackIndex := sq.trackIndex);
        c := c.(tempo := sq.tempo);
        handled' := handled + [c];
      }
    }

    /** Seeks to `time`: from the first event, dispatches every group of events (an
        event and the zero-delta events after it) whose first event is due, setting this
        track's cursor after each group. A negative time does nothing; an empty track
        fails on its first element. The event array is not written; the events handed to
        the handler are returned. */
    method Seek(sq: Sequencer, time: real, metas: seq<MetaMessage>, hasHandler: bool)
      returns (outcome: Outcome, handled: seq<MidiEvent>)
      requires MetasCovered(midiEvents[..], metas)
      modifies sq
      ensures time < 0.0 ==> outcome == Pass && handled == [] && unchanged(sq)
      ensures time >= 0.0 && midiEvents.Length == 0 ==>
        outcome == Fail(IndexOutOfRange) && handled == [] && unchanged(sq)
      ensures time >= 0.0 && midiEvents.Length > 0 ==>
        var s := midiEvents[..];
        var e := ScanEnd(s, 0, time);
        && outcome == Pass
        && SeekedUpTo(sq, metas, hasHandler, handled, s, e, old(sq.tempo), old(sq.noteCounter))
        && sq.cursors == (if s[0].time <= time then old(sq.cursors)[trackIndex := e] else old(sq.cursors))
        && sq.time == old(sq.time) && sq.trackIndex == old(sq.trackIndex)
        && sq.playbackSpeed == old(sq.playbackSpeed) && sq.noteGrid == old(sq.noteGrid)
        && sq.raised == old(sq.raised)
    {
      var eventIndex := 0;
      handled := [];
      if time < 0.0 {
        return Pass, [];
      }
      if midiEvents.Length == 0 {
        return Fail(IndexOutOfRange), [];
      }
      ghost var s := midiEvents[..];
      ghost var tempo0, counter0, cursors0 := sq.tempo, sq.noteCounter, sq.cursors;
      ghost var ti := trackIndex;
      assert s[0..0] == [];
      while eventIndex < midiEvents.Length && midiEvents[eventIndex].time <= time
        invariant 0 <= eventIndex <= midiEvents.Length
        invariant ScanEnd(s, eventIndex, time) == ScanEnd(s, 0, time)
        invariant SeekedUpTo(sq, metas, hasHandler, handled, s, eventIndex, tempo0, counter0)
        invariant eventIndex == 0 ==> sq.cursors == cursors0
        invariant eventIndex > 0 ==> sq.cursors == cursors0[ti := eventIndex] && s[0].time <= time
        invariant sq.time == old(sq.time) && sq.trackIndex == old(sq.trackIndex)
        invariant sq.playbackSpeed == old(sq.playbackSpeed) && sq.noteGrid == old(sq.noteGrid)
        invariant sq.raised == old(sq.raised)
        decreases midiEvents.Length - eventIndex
      {
        ghost var groupStart := eventIndex;
        eventIndex, handled := SeekGroup(sq, metas, hasHandler, eventIndex, handled, tempo0, counter0);
        MapOverwrite(cursors0, ti, groupStart, eventIndex);
      }
      outcome := Pass;
    }

    /** Seek has dispatched `s[0..k]`: the tempo and the note counter are those after the
        run, and the handler has received the run's events stamped. */
    ghost predicate SeekedUpTo(sq: Sequencer, metas: seq<MetaMessage>, hasHandler: bool, handled: seq<MidiEvent>,
                               s: seq<MidiEvent>, k: nat, tempo0: Rate, counter0: int)
      reads sq
    {
      && k <= |s| && MetasCovered(s[0..k], metas)
      && sq.tempo == TempoAfter(tempo0, s[0..k], metas)
      && sq.noteCounter == counter0 + NoteOnCount(s[0..k])
      && handled == (if hasHandler then Stamped(tempo0, s[0..k], metas, sq.trackIndex) else [])
    }

    /** Dispatches one group of Seek (the event at `groupStart` and the zero-delta events
        after it), then moves this track's cursor after the group. */
    method SeekGroup(sq: Sequencer, metas: seq<MetaMessage>, hasHandler: bool, groupStart: nat,
                     handled: seq<MidiEvent>, ghost tempo0: Rate, ghost counter0: int)
      returns (end: nat, handled': seq<MidiEvent>)
      requires groupStart < midiEvents.Length && MetasCovered(midiEvents[..], metas)
      requires SeekedUpTo(sq, metas, hasHandler, handled, midiEvents[..], groupStart, tempo0, counter0)
      modifies sq
      ensures end == GroupEnd(midiEvents[..], groupStart)
      ensures SeekedUpTo(sq, metas, hasHandler, handled', midiEvents[..], end, tempo0, counter0)
      ensures sq.cursors == old(sq.cursors)[trackIndex := end]
      ensures sq.time == old(sq.time) && sq.trackIndex == old(sq.trackIndex)
      ensures sq.playbackSpeed == old(sq.playbackSpeed) && sq.noteGrid == old(sq.noteGrid)
      ensures sq.raised == old(sq.raised)
    {
      ghost var s := midiEvents[..];
      end, handled' := SeekStep(sq, metas, hasHandler, groupStart, handled, tempo0, counter0);
      while end < midiEvents.Length && midiEvents[end].deltaTicks == 0
        invariant groupStart < end <= midiEvents.Length
        invariant GroupEndFrom(s, end) == GroupEnd(s, groupStart)
        invariant SeekedUpTo(sq, metas, hasHandler, handled', s, end, tempo0, counter0)
        invariant sq.cursors == old(sq.cursors)
        invariant sq.time == old(sq.time) && sq.trackIndex == old(sq.trackIndex)
        invariant sq.playbackSpeed == old(sq.playbackSpeed) && sq.noteGrid == old(sq.noteGrid)
        invariant sq.raised == old(sq.raised)
        decreases midiEvents.Length - end
      {
        end, handled' := SeekStep(sq, metas, hasHandler, end, handled', tempo0, counter0);
      }
      sq.cursors := sq.cursors[trackIndex := end];
    }

    /** One dispatch of Seek, extending the dispatched run by one event. */
    method SeekStep(sq: Sequencer, metas: seq<MetaMessage>, hasHandler: bool, k: nat,
                    handled: seq<MidiEvent>, ghost tempo0: Rate, ghost counter0: int)
      returns (next: nat, handled': seq<MidiEvent>)
      requires k < midiEvents.Length && MetasCovered(midiEvents[..], metas)
      requires SeekedUpTo(sq, metas, hasHandler, handled, midiEvents[..], k, tempo0, counter0)
      modifies sq
      ensures next == k + 1
      ensures SeekedUpTo(sq, metas, hasHandler, handled', midiEvents[..], next, tempo0, counter0)
      ensures sq.cursors == old(sq.cursors) && sq.time == old(sq.time) && sq.trackIndex == old(sq.trackIndex)
      ensures sq.playbackSpeed == old(sq.playbackSpeed) && sq.noteGrid == old(sq.noteGrid)
      ensures sq.raised == old(sq.raised)
    {
      RunSnoc(tempo0, midiEvents[..], 0, k, metas, sq.trackIndex, map[], 0, 0.0);
      handled' := SeekDispatch(sq, metas, midiEvents[k], hasHandler, handled);
      next := k + 1;
    }

    /** Dispatches one event during Update: a tempo meta event sets the sequencer tempo;
        a NoteOff clears and a NoteOn fills its note-grid cell when the note index is in
        [0, 128); the array slot is stamped with its message, the sequencer's track index
        and the tempo, and raised to the application. */
    method UpdateDispatch(sq: Sequencer, metas: seq<MetaMessage>, noteOffset: int, k: nat)
      requires k < midiEvents.Length
      requires IsMetaMessage(midiEvents[k]) ==> midiEvents[k].metaMessageIndex < |metas|
      modifies sq, midiEvents
      ensures sq.tempo == TempoStep(old(sq.tempo), old(midiEvents[k]), metas)
      ensures sq.noteGrid == GridStep(old(sq.noteGrid), old(midiEvents[k]), sq.trackIndex, noteOffset, sq.playbackSpeed)
      ensures midiEvents[..] == old(midiEvents[..])[k := Stamp(old(midiEvents[k]), metas, sq.trackIndex, sq.tempo)]
      ensures sq.raised == old(sq.raised) + [midiEvents[k]]
      ensures sq.cursors == old(sq.cursors) && sq.time == old(sq.time) && sq.trackIndex == old(sq.trackIndex)
      ensures sq.playbackSpeed == old(sq.playbackSpeed) && sq.noteCounter == old(sq.noteCounter)
    {
      var e := midiEvents[k];
      var metaMessage: Option<MetaMessage> := None;
      if IsMetaMessage(e) {
        metaMessage := Some(metas[e.metaMessageIndex]);
        if MetaTypeOf(metas[e.metaMessageIndex]) == Tempo {
          sq.tempo := RateOf(TempoOf(metas[e.metaMessageIndex]));
        }
      }
      if IsChannelVoiceMessage(e) {
        if Message(e) == NOTE_OFF {
          var noteIndex := ToInt16(Note(e) + noteOffset);
          if 0 <= noteIndex < 128 {
            sq.noteGrid := sq.noteGrid[(sq.trackIndex, noteIndex) := NoteData(0, 0.0, Seconds(0.0))];
          }
        } else if Message(e) == NOTE_ON {
          var noteIndex := ToInt16(Note(e) + noteOffset);
          if 0 <= noteIndex < 128 {
            sq.noteGrid := sq.noteGrid[(sq.trackIndex, noteIndex) :=
              NoteData(Velocity(e), Velocity(e) as real / 127.0, Divide(e.holdTime, sq.playbackSpeed))];
          }
        }
      }
      midiEvents[k] := midiEvents[k].(meta := metaMessage);
      midiEvents[k] := midiEvents[k].(trackIndex := sq.trackIndex);
      midiEvents[k] := midiEvents[k].(tempo := sq.tempo);
      sq.raised := sq.raised + [midiEvents[k]];
    }

    /** Update has dispatched `s[start..k]`: the array holds those events stamped, the
        rest as they were, and the raised events, tempo and note grid are those of the
        run. */
    ghost predicate UpdatedUpTo(sq: Sequencer, metas: seq<MetaMessage>, noteOffset: int, s: seq<MidiEvent>,
                                start: nat, k: nat, tempo0: Rate, grid0: NoteGrid, raised0: seq<MidiEvent>)
      reads this, midiEvents, sq
    {
      && start <= k <= |s| && MetasCovered(s[start..k], metas)
      && midiEvents[..] == s[..start] + Stamped(tempo0, s[start..k], metas, sq.trackIndex) + s[k..]
      && sq.raised == raised0 + Stamped(tempo0, s[start..k], metas, sq.trackIndex)
      && sq.tempo == TempoAfter(tempo0, s[start..k], metas)
      && sq.noteGrid == GridAfter(grid0, s[start..k], sq.trackIndex, noteOffset, sq.playbackSpeed)
    }

    /** Plays the events that are due: from this track's cursor, dispatches every group
        whose first event's Time is at or before the sequencer time, in array order,
        setting the cursor after each group. Returns false once every event has been
        consumed. */
    method Update(sq: Sequencer, metas: seq<MetaMessage>, noteOffset: int) returns (more: bool)
      requires MetasCovered(midiEvents[..], metas)
      modifies sq, midiEvents
      ensures var s := old(midiEvents[..]);
        var start := old(sq.CurrentEventIndex(trackIndex));
        if start >= |s| then
          !more && midiEvents[..] == s && unchanged(sq)
        else
          var e := ScanEnd(s, start, old(sq.time));
          && more == (e < |s|)
          && UpdatedUpTo(sq, metas, noteOffset, s, start, e, old(sq.tempo), old(sq.noteGrid), old(sq.raised))
          && sq.cursors == (if s[start].time <= old(sq.time) then old(sq.cursors)[trackIndex := e] else old(sq.cursors))
          && sq.time == old(sq.time) && sq.trackIndex == old(sq.trackIndex)
          && sq.playbackSpeed == old(sq.playbackSpeed) && sq.noteCounter == old(sq.noteCounter)
    {
      var eventIndex := sq.CurrentEventIndex(trackIndex);
      if eventIndex >= midiEvents.Length {
        return false;
      }
      ghost var s := midiEvents[..];
      ghost var start := eventIndex;
      ghost var tempo0, grid0, raised0, cursors0 := sq.tempo, sq.noteGrid, sq.raised, sq.cursors;
      ghost var t, ti := sq.time, trackIndex;
      assert s[start..start] == [];
      assert midiEvents[eventIndex] == s[eventIndex];
      while eventIndex < midiEvents.Length && midiEvents[eventIndex].time <= sq.time
        invariant start <= eventIndex <= midiEvents.Length == |s|
        invariant ScanEnd(s, eventIndex, t) == ScanEnd(s, start, t)
        invariant UpdatedUpTo(sq, metas, noteOffset, s, start, eventIndex, tempo0, grid0, raised0)
        invariant eventIndex < |s| ==> midiEvents[eventIndex] == s[eventIndex]
        invariant eventIndex == start ==> sq.cursors == cursors0
        invariant eventIndex > start ==> sq.cursors == cursors0[ti := eventIndex] && s[start].time <= t
        invariant sq.time == t && sq.trackIndex == old(sq.trackIndex)
        invariant sq.playbackSpeed == old(sq.playbackSpeed) && sq.noteCounter == old(sq.noteCounter)
        decreases midiEvents.Length - eventIndex
      {
        ghost var groupStart := eventIndex;
        eventIndex := UpdateGroup(sq, metas, noteOffset, eventIndex, s, start, tempo0, grid0, raised0);
        MapOverwrite(cursors0, ti, groupStart, eventIndex);
      }
      more := eventIndex < midiEvents.Length;
    }

    /** Dispatches one group of Update: the event at `groupStart` and the zero-delta
        events after it, then moves this track's cursor after the group. Returns the
        index after the group. */
    method UpdateGroup(sq: Sequencer, metas: seq<MetaMessage>, noteOffset: int, groupStart: nat,
                       ghost s: seq<MidiEvent>, ghost start: nat, ghost tempo0: Rate,
                       ghost grid0: NoteGrid, ghost raised0: seq<MidiEvent>) returns (end: nat)
      requires groupStart < |s| == midiEvents.Length && MetasCovered(s, metas)
      requires UpdatedUpTo(sq, metas, noteOffset, s, start, groupStart, tempo0, grid0, raised0)
      modifies sq, midiEvents
      ensures end == GroupEnd(s, groupStart)
      ensures UpdatedUpTo(sq, metas, noteOffset, s, start, end, tempo0, grid0, raised0)
      ensures end < |s| ==> midiEvents[end] == s[end]
      ensures sq.cursors == old(sq.cursors)[trackIndex := end] && sq.time == old(sq.time) && sq.trackIndex == old(sq.trackIndex)
      ensures sq.playbackSpeed == old(sq.playbackSpeed) && sq.noteCounter == old(sq.noteCounter)
    {
      end := UpdateStep(sq, metas, noteOffset, groupStart, s, start, tempo0, grid0, raised0);
      while end < midiEvents.Length && midiEvents[end].deltaTicks == 0
        invariant groupStart < end <= midiEvents.Length == |s|
        invariant GroupEndFrom(s, end) == GroupEnd(s, groupStart)
        invariant UpdatedUpTo(sq, metas, noteOffset, s, start, end, tempo0, grid0, raised0)
        invariant end < |s| ==> midiEvents[end] == s[end]
        invariant sq.cursors == old(sq.cursors) && sq.time == old(sq.time) && sq.trackIndex == old(sq.trackIndex)
        invariant sq.playbackSpeed == old(sq.playbackSpeed) && sq.noteCounter == old(sq.noteCounter)
        decreases midiEvents.Length - end
      {
        end := UpdateStep(sq, metas, noteOffset, end, s, start, tempo0, grid0, raised0);
      }
      sq.cursors := sq.cursors[trackIndex := end];
    }

    /** One dispatch of Update, extending the dispatched run by one event. */
    method UpdateStep(sq: Sequencer, metas: seq<MetaMessage>, noteOffset: int, k: nat,
                      ghost s: seq<MidiEvent>, ghost start: nat, ghost tempo0: Rate,
                      ghost grid0: NoteGrid, ghost raised0: seq<MidiEvent>) returns (next: nat)
      requires k < |s| == midiEvents.Length && MetasCovered(s, metas)
      requires UpdatedUpTo(sq, metas, noteOffset, s, start, k, tempo0, grid0, raised0)
      modifies sq, midiEvents
      ensures next == k + 1
      ensures UpdatedUpTo(sq, metas, noteOffset, s, start, next, tempo0, grid0, raised0)
      ensures next < |s| ==> midiEvents[next] == s[next]
      ensures sq.cursors == old(sq.cursors) && sq.time == old(sq.time) && sq.trackIndex == old(sq.trackIndex)
      ensures sq.playbackSpeed == old(sq.playbackSpeed) && sq.noteCounter == old(sq.noteCounter)
    {
      RunSnoc(tempo0, s, start, k, metas, sq.trackIndex, grid0, noteOffset, sq.playbackSpeed);
      ghost var prefix := s[..start] + Stamped(tempo0, s[start..k], metas, sq.trackIndex);
      assert midiEvents[k] == s[k];
      UpdateDispatch(sq, metas, noteOffset, k);
      SpliceNext(prefix, s, k, midiEvents[k]);
      next := k + 1;
    }
  }

  /** Setting a key twice keeps the second value. */
  lemma MapOverwrite(m: map<int, nat>, k: int, a: nat, b: nat)
    ensures m[k := a][k := b] == m[k := b]
  {
  }
}
