/** The event-stream parser of a track chunk (Track.Read), stated as a step function over
    the parser's state: the reader position, the two scratch events (`midiEvent` and
    `midiEventPrev`), the pending event list, the shared meta-message list and counter,
    the track name and the two content flags. The imperative loop of Track.Read is proved
    against this specification. */
module TrackParsing {
  import opened Bytes
  import Vlq
  import opened MidiEvents

  datatype Parse = Parse(
    pos: int,
    cur: MidiEvent,
    prev: MidiEvent,
    events: seq<MidiEvent>,
    metas: seq<MetaMessage>,
    metaIndex: UInt16,
    name: string,
    containsNotes: bool,
    containsTempo: bool)

  /** One turn of the read loop: the state after it, and whether it appended an
      End-of-Track meta event (which ends the loop). */
  datatype Step = Step(next: Parse, endOfTrack: bool)

  predicate IsEndOfTrack(e: MidiEvent)
  {
    IsMetaMessage(e) && e.meta.Some? && MetaTypeOf(e.meta.value) == EndOfTrack
  }

  /** One turn of the loop of Track.Read: clear the scratch event, read delta-ticks and
      a status byte into it, then handle the event by its status (StatusStep). */
  function ReadStep(input: seq<Byte>, p: Parse): (r: Result<Step>)
    requires 0 <= p.pos
    ensures r.Ok? ==> r.value.next.pos > p.pos
  {
    match ReadVlq(input, p.pos)
    case Err(err) => Err(err)
    case Ok((delta, q)) =>
      match ReadByte(input, q)
      case Err(err) => Err(err)
      case Ok((status, q1)) =>
        StatusStep(input, p.(pos := q1, cur := ClearData(p.cur).(deltaTicks := delta, status := status)))
  }

  /** The rest of a turn once the scratch event `h.cur` holds the delta-ticks and the
      status byte, and `h.pos` is just past the status byte:
      - a status below 0x80 is running status (RunningStep);
      - a meta event is recorded (MetaStep);
      - a SysEx event is skipped (SkipStep);
      - a channel-voice event is read (ChannelStep);
      - any other status is dropped. */
  function StatusStep(input: seq<Byte>, h: Parse): (r: Result<Step>)
    requires 1 <= h.pos <= |input|
    ensures r.Ok? ==> r.value.next.pos >= h.pos - 1
  {
    if IsRunningStatus(h.cur) then RunningStep(input, h)
    else if IsMetaMessage(h.cur) then MetaStep(input, h)
    else if IsSystemExclusiveMessage(h.cur) then SkipStep(input, h)
    else if IsChannelVoiceMessage(h.cur) then ChannelStep(input, h)
    else Ok(Step(h, false))
  }

  /** Running status: step back onto the data byte, take the status of the last
      explicit channel-voice event, read its data bytes and store the event. */
  function RunningStep(input: seq<Byte>, h: Parse): (r: Result<Step>)
    requires 1 <= h.pos <= |input|
    ensures r.Ok? ==> r.value.next.pos >= h.pos - 1
  {
    match ReadData(h.cur.(status := h.prev.status), input, h.pos - 1)
    case Err(err) => Err(err)
    case Ok((c2, q2)) =>
      Ok(Step(h.(pos := q2, cur := c2, events := h.events + [c2],
                 containsNotes := h.containsNotes || Message(c2) == NOTE_ON), false))
  }

  /** A meta event: read its message, record it in the shared list under the current
      counter, rename the track on a non-empty track name, note a tempo, store the event,
      and end the loop on End-of-Track. */
  function MetaStep(input: seq<Byte>, h: Parse): (r: Result<Step>)
    requires 0 <= h.pos
    ensures r.Ok? ==> r.value.next.pos > h.pos
  {
    match ReadMeta(input, h.pos)
    case Err(err) => Err(err)
    case Ok((m, q2)) =>
      var c2 := h.cur.(metaMessageIndex := h.metaIndex, meta := Some(m));
      var name := if MetaTypeOf(m) == TrackName && TrackNameOf(m) != "" then TrackNameOf(m) else h.name;
      Ok(Step(h.(pos := q2, cur := c2, events := h.events + [c2], metas := h.metas + [m],
                 metaIndex := IncUInt16(h.metaIndex), name := name,
                 containsTempo := h.containsTempo || MetaTypeOf(m) == Tempo),
              MetaTypeOf(m) == EndOfTrack))
  }

  /** A SysEx event: skip its VLQ length and that many payload bytes; nothing is stored. */
  function SkipStep(input: seq<Byte>, h: Parse): (r: Result<Step>)
    requires 0 <= h.pos
    ensures r.Ok? ==> r.value.next.pos > h.pos
  {
    match ReadVlq(input, h.pos)
    case Err(err) => Err(err)
    case Ok((len, q2)) => Ok(Step(h.(pos := q2 + len), false))
  }

  /** A channel-voice event: read its data bytes, store it, and make it the running
      status. */
  function ChannelStep(input: seq<Byte>, h: Parse): (r: Result<Step>)
    requires 0 <= h.pos <= |input|
    ensures r.Ok? ==> r.value.next.pos >= h.pos
  {
    match ReadData(h.cur, input, h.pos)
    case Err(err) => Err(err)
    case Ok((c2, q2)) =>
      Ok(Step(h.(pos := q2, cur := c2, prev := c2, events := h.events + [c2],
                 containsNotes := h.containsNotes || Message(c2) == NOTE_ON), false))
  }

  /** The read loop: turns while the position is before `trackEndPos`, until an
      End-of-Track meta event or a read that throws. */
  function ReadLoop(input: seq<Byte>, trackEndPos: int, p: Parse): Result<Parse>
    requires 0 <= p.pos
    decreases trackEndPos - p.pos
  {
    if p.pos >= trackEndPos then Ok(p)
    else
      match ReadStep(input, p)
      case Err(err) => Err(err)
      case Ok(step) =>
        if step.endOfTrack then Ok(step.next) else ReadLoop(input, trackEndPos, step.next)
  }

  /** One turn of the loop, as the loop of Track.Read takes it. */
  lemma ReadLoopTurn(input: seq<Byte>, trackEndPos: int, p: Parse)
    requires 0 <= p.pos < trackEndPos
    ensures ReadStep(input, p).Err? ==> ReadLoop(input, trackEndPos, p) == Err(ReadStep(input, p).error)
    ensures ReadStep(input, p).Ok? && ReadStep(input, p).value.endOfTrack ==>
      ReadLoop(input, trackEndPos, p) == Ok(ReadStep(input, p).value.next)
    ensures ReadStep(input, p).Ok? && !ReadStep(input, p).value.endOfTrack ==>
      ReadLoop(input, trackEndPos, p) == ReadLoop(input, trackEndPos, ReadStep(input, p).value.next)
  {
  }

  // ---------------------------------------------------------------------------
  // Properties of one step

  /** Running status: when the byte after the delta-ticks is below 0x80, the stored
      event takes the previous explicit status and its data bytes start at that byte;
      the running status itself is not replaced. */
  lemma RunningStatusStep(input: seq<Byte>, p: Parse)
    requires 0 <= p.pos
    requires ReadVlq(input, p.pos).Ok?
    requires var q := ReadVlq(input, p.pos).value.1; q < |input| && input[q] < 0x80
    requires ReadStep(input, p).Ok?
    ensures var q := ReadVlq(input, p.pos).value.1;
      var n := ReadStep(input, p).value.next;
      && n.events == p.events + [n.cur]
      && n.cur.status == p.prev.status
      && n.cur.deltaTicks == ReadVlq(input, p.pos).value.0
      && n.pos == q + DataArity(p.prev.status)
      && (DataArity(p.prev.status) >= 1 ==> n.cur.data1 == input[q])
      && n.prev == p.prev
  {
  }

  /** A SysEx event is skipped: nothing is stored, and the position moves past its
      length and payload. */
  lemma SysExSkipped(input: seq<Byte>, p: Parse)
    requires 0 <= p.pos
    requires ReadVlq(input, p.pos).Ok?
    requires var q := ReadVlq(input, p.pos).value.1; q < |input| && 0xF0 <= input[q] <= 0xF7
    requires ReadStep(input, p).Ok?
    ensures var q := ReadVlq(input, p.pos).value.1;
      var n := ReadStep(input, p).value.next;
      && ReadVlq(input, q + 1).Ok?
      && n.events == p.events && n.metas == p.metas && n.prev == p.prev
      && n.pos == ReadVlq(input, q + 1).value.1 + ReadVlq(input, q + 1).value.0
      && !ReadStep(input, p).value.endOfTrack
  {
  }

  // ---------------------------------------------------------------------------
  // Properties of the whole loop

  /** A step stores at most its scratch event, and ends the loop only after storing an
      End-of-Track meta event. */
  lemma StepGrows(input: seq<Byte>, p: Parse)
    requires 0 <= p.pos
    requires ReadStep(input, p).Ok?
    ensures var st := ReadStep(input, p).value;
      && (st.next.events == p.events || st.next.events == p.events + [st.next.cur])
      && (st.endOfTrack ==> st.next.events == p.events + [st.next.cur] && IsEndOfTrack(st.next.cur))
  {
  }

  /** The stored events only grow, and the loop ends at `trackEndPos` or right after
      appending an End-of-Track event. */
  lemma {:induction false} ReadLoopEnds(input: seq<Byte>, trackEndPos: int, p: Parse)
    requires 0 <= p.pos
    requires ReadLoop(input, trackEndPos, p).Ok?
    ensures var r := ReadLoop(input, trackEndPos, p).value;
      && |p.events| <= |r.events| && r.events[..|p.events|] == p.events
      && (r.pos >= trackEndPos || (|r.events| > |p.events| && IsEndOfTrack(r.events[|r.events| - 1])))
    decreases trackEndPos - p.pos
  {
    if p.pos < trackEndPos {
      var step := ReadStep(input, p).value;
      StepGrows(input, p);
      if !step.endOfTrack {
        ReadLoopEnds(input, trackEndPos, step.next);
        assert step.next.events[..|p.events|] == p.events;
        var r := ReadLoop(input, trackEndPos, p).value;
        assert r.events[..|step.next.events|][..|p.events|] == r.events[..|p.events|];
      } else {
        assert step.next.events[|step.next.events| - 1] == step.next.cur;
      }
    }
  }

  /** The running status the loop keeps: an explicit channel-voice status, or a byte
      below 0x80 (the zeroed struct before any channel-voice event). */
  predicate SaneRunningStatus(e: MidiEvent)
  {
    e.status < 0xF0
  }

  /** What one step does to the stored lists: it appends at most the scratch event, which
      is then a channel-voice event, a meta event recorded in the shared list under the
      current counter, or a running-status event whose status came from a below-0x80
      running status; it ends the loop exactly when it appends an End-of-Track event;
      and the running status stays sane. */
  predicate Shaped(p: Parse, st: Step)
  {
    var n := st.next;
    && SaneRunningStatus(n.prev)
    && (n.events == p.events || n.events == p.events + [n.cur])
    && (n.events != p.events ==>
          IsChannelVoiceMessage(n.cur) || IsMetaMessage(n.cur) || IsRunningStatus(n.cur))
    && (st.endOfTrack <==> n.events != p.events && IsEndOfTrack(n.cur))
    && (n.events != p.events && IsMetaMessage(n.cur) ==>
          && n.cur.meta.Some? && n.metas == p.metas + [n.cur.meta.value]
          && n.cur.metaMessageIndex == p.metaIndex
          && n.metaIndex == IncUInt16(p.metaIndex))
    && (!(n.events != p.events && IsMetaMessage(n.cur)) ==>
          n.metas == p.metas && n.metaIndex == p.metaIndex)
  }

  lemma StepShape(input: seq<Byte>, p: Parse)
    requires 0 <= p.pos
    requires SaneRunningStatus(p.prev)
    requires ReadStep(input, p).Ok?
    ensures Shaped(p, ReadStep(input, p).value)
  {
  }

  /** Reading stops at the first End-of-Track: no event stored before the last one
      of this read is an End-of-Track meta event. */
  lemma {:induction false} OnlyLastEndsTrack(input: seq<Byte>, trackEndPos: int, p: Parse)
    requires 0 <= p.pos
    requires SaneRunningStatus(p.prev)
    requires ReadLoop(input, trackEndPos, p).Ok?
    ensures var r := ReadLoop(input, trackEndPos, p).value;
      forall k | |p.events| <= k < |r.events| - 1 :: !IsEndOfTrack(r.events[k])
    decreases trackEndPos - p.pos
  {
    if p.pos < trackEndPos {
      var step := ReadStep(input, p).value;
      StepShape(input, p);
      if !step.endOfTrack {
        OnlyLastEndsTrack(input, trackEndPos, step.next);
        ReadLoopEnds(input, trackEndPos, step.next);
        var r := ReadLoop(input, trackEndPos, p).value;
        if |step.next.events| > |p.events| {
          assert r.events[|p.events|] == r.events[..|step.next.events|][|p.events|];
        }
      }
    }
  }

  /** The statuses a stored event can have: channel voice, meta, or a running status
      inherited from the zeroed struct; never SysEx. */
  predicate StorableStatus(e: MidiEvent)
  {
    (IsChannelVoiceMessage(e) || IsMetaMessage(e) || IsRunningStatus(e)) && !IsSystemExclusiveMessage(e)
  }

  /** Every stored event is a channel-voice event, a meta event, or a running-status
      event inheriting a status below 0x80; in particular no SysEx event (and no
      0xF8-0xFE status) is ever stored. */
  lemma {:induction false} StoredStatuses(input: seq<Byte>, trackEndPos: int, p: Parse)
    requires 0 <= p.pos
    requires SaneRunningStatus(p.prev)
    requires ReadLoop(input, trackEndPos, p).Ok?
    ensures var r := ReadLoop(input, trackEndPos, p).value;
      && |p.events| <= |r.events|
      && forall k | |p.events| <= k < |r.events| :: StorableStatus(r.events[k])
    decreases trackEndPos - p.pos
  {
    ReadLoopEnds(input, trackEndPos, p);
    if p.pos < trackEndPos {
      var step := ReadStep(input, p).value;
      StepShape(input, p);
      if !step.endOfTrack {
        StoredStatuses(input, trackEndPos, step.next);
        ReadLoopEnds(input, trackEndPos, step.next);
        StorableExtension(p.events, step.next.events, ReadLoop(input, trackEndPos, p).value.events);
      }
    }
  }

  lemma StorableExtension(a: seq<MidiEvent>, b: seq<MidiEvent>, c: seq<MidiEvent>)
    requires b == a || (|b| == |a| + 1 && b[..|a|] == a && StorableStatus(b[|a|]))
    requires |b| <= |c| && c[..|b|] == b
    requires forall k | |b| <= k < |c| :: StorableStatus(c[k])
    ensures forall k | |a| <= k < |c| :: StorableStatus(c[k])
  {
    if b != a {
      assert c[|a|] == b[|a|];
    }
  }

  /** The number of meta events in a list. */
  function CountMeta(s: seq<MidiEvent>): (r: nat)
    ensures r <= |s|
  {
    if s == [] then 0 else CountMeta(s[..|s| - 1]) + (if IsMetaMessage(s[|s| - 1]) then 1 else 0)
  }

  /** The messages of the meta events of a list, in order. */
  function MetasOf(s: seq<MidiEvent>): (r: seq<MetaMessage>)
    ensures |r| <= CountMeta(s)
  {
    if s == [] then []
    else
      var x := s[|s| - 1];
      MetasOf(s[..|s| - 1]) + (if IsMetaMessage(x) && x.meta.Some? then [x.meta.value] else [])
  }

  /** Every meta event of `s` carries a message, and the i-th one (counting from 0)
      carries the index `base + i`, modulo 65536 (the counter is a ushort). */
  predicate IndexedFrom(s: seq<MidiEvent>, base: UInt16)
  {
    s == [] ||
    (IndexedFrom(s[..|s| - 1], base) &&
     (IsMetaMessage(s[|s| - 1]) ==>
        s[|s| - 1].meta.Some? &&
        s[|s| - 1].metaMessageIndex == (base + CountMeta(s[..|s| - 1])) % 0x1_0000))
  }

  /** The meta-message numbering the read loop keeps, relative to the state `p0` a read
      started from: the events added since are an extension of the earlier ones, the
      shared list grew by exactly their meta messages in order, the counter advanced by
      their number, and they are numbered consecutively from the incoming counter. */
  ghost predicate MetaNumbered(p0: Parse, p: Parse)
  {
    |p0.events| <= |p.events| && p.events[..|p0.events|] == p0.events &&
    var added := p.events[|p0.events|..];
    && p.metas == p0.metas + MetasOf(added)
    && p.metaIndex == (p0.metaIndex + CountMeta(added)) % 0x1_0000
    && IndexedFrom(added, p0.metaIndex)
  }

  lemma StepKeepsNumbering(input: seq<Byte>, p0: Parse, p: Parse)
    requires 0 <= p.pos
    requires SaneRunningStatus(p.prev)
    requires MetaNumbered(p0, p)
    requires ReadStep(input, p).Ok?
    ensures MetaNumbered(p0, ReadStep(input, p).value.next)
  {
    StepShape(input, p);
    ShapedKeepsNumbering(p0, p, ReadStep(input, p).value);
  }

  lemma ShapedKeepsNumbering(p0: Parse, p: Parse, st: Step)
    requires MetaNumbered(p0, p)
    requires Shaped(p, st)
    ensures MetaNumbered(p0, st.next)
  {
    var n := st.next;
    var k := |p0.events|;
    var added := p.events[k..];
    if n.events == p.events {
      assert n.events[k..] == added;
    } else {
      assert n.events == p.events + [n.cur];
      assert n.events[k..] == added + [n.cur];
      assert n.events[..k] == p0.events;
      NumberingAppends(added, n.cur, p0.metas, p.metas, n.metas, p0.metaIndex, p.metaIndex, n.metaIndex);
    }
  }

  /** The numbering facts about `added` carry over to `added + [x]` when the shared list
      and the counter move as one step moves them. */
  lemma NumberingAppends(added: seq<MidiEvent>, x: MidiEvent, metas0: seq<MetaMessage>,
                         metas: seq<MetaMessage>, metas': seq<MetaMessage>,
                         base: UInt16, idx: UInt16, idx': UInt16)
    requires metas == metas0 + MetasOf(added)
    requires idx == (base + CountMeta(added)) % 0x1_0000
    requires IndexedFrom(added, base)
    requires IsMetaMessage(x) ==>
      x.meta.Some? && metas' == metas + [x.meta.value] && x.metaMessageIndex == idx && idx' == IncUInt16(idx)
    requires !IsMetaMessage(x) ==> metas' == metas && idx' == idx
    ensures metas' == metas0 + MetasOf(added + [x])
    ensures idx' == (base + CountMeta(added + [x])) % 0x1_0000
    ensures IndexedFrom(added + [x], base)
  {
    AppendKeepsNumbering(added, x, base);
    if IsMetaMessage(x) {
      ModIncrement(base, CountMeta(added));
    }
  }

  /** Appending one event extends the meta count, the meta list and the numbering by
      that event alone. */
  lemma AppendKeepsNumbering(added: seq<MidiEvent>, x: MidiEvent, base: UInt16)
    ensures CountMeta(added + [x]) == CountMeta(added) + (if IsMetaMessage(x) then 1 else 0)
    ensures MetasOf(added + [x]) == MetasOf(added) + (if IsMetaMessage(x) && x.meta.Some? then [x.meta.value] else [])
    ensures IndexedFrom(added, base) &&
            (IsMetaMessage(x) ==> x.meta.Some? && x.metaMessageIndex == (base + CountMeta(added)) % 0x1_0000)
            ==> IndexedFrom(added + [x], base)
  {
    assert (added + [x])[..|added|] == added;
  }

  /** Adding one to a counter kept modulo 65536. */
  lemma ModIncrement(base: int, c: nat)
    ensures ((base + c) % 0x1_0000 + 1) % 0x1_0000 == (base + (c + 1)) % 0x1_0000
  {
  }

  /** Every state numbers its own meta events trivially (nothing new yet). */
  lemma NumberedFromItself(p: Parse)
    ensures MetaNumbered(p, p)
  {
    assert p.events[|p.events|..] == [];
    assert p.events[..|p.events|] == p.events;
    assert p.metas + [] == p.metas;
  }

  /** Meta events receive consecutive MetaMessageIndex values, starting from the
      incoming counter, and each index names that event's message in the shared list. */
  lemma {:induction false} MetaIndicesConsecutive(input: seq<Byte>, trackEndPos: int, p0: Parse, p: Parse)
    requires 0 <= p.pos
    requires SaneRunningStatus(p.prev)
    requires MetaNumbered(p0, p)
    requires ReadLoop(input, trackEndPos, p).Ok?
    ensures MetaNumbered(p0, ReadLoop(input, trackEndPos, p).value)
    decreases trackEndPos - p.pos
  {
    if p.pos < trackEndPos {
      StepKeepsNumbering(input, p0, p);
      StepShape(input, p);
      var step := ReadStep(input, p).value;
      if !step.endOfTrack {
        MetaIndicesConsecutive(input, trackEndPos, p0, step.next);
      }
    }
  }

}
