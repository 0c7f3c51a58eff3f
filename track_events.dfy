/** Specification functions over a track's event array: the absolute ticks CalculateTicks
    fills in, the note count of CountNotes, the hold times of CalculateHoldTime, the
    message filters, and what Seek and Update do to a run of events (the event groups they
    consume, the tempo in force, the stamped events they dispatch and the note grid they
    write). The methods of Track are proved against these. */
module TrackEvents {
  import opened Bytes
  import opened MidiEvents

  // ---------------------------------------------------------------------------
  // Absolute ticks

  /** The exact sum of the delta-ticks of a list. */
  function DeltaSum(s: seq<MidiEvent>): int
  {
    if s == [] then 0 else DeltaSum(s[..|s| - 1]) + s[|s| - 1].deltaTicks
  }

  /** What CalculateTicks leaves at position i: Ticks is the running `int` total of the
      delta-ticks up to and including the event, HoldTicks is 0, and nothing else changes. */
  function TickedAt(s: seq<MidiEvent>, i: nat): MidiEvent
    requires i < |s|
  {
    s[i].(ticks := ToInt32(DeltaSum(s[..i + 1])), holdTicks := 0)
  }

  function WithTicks(s: seq<MidiEvent>): (r: seq<MidiEvent>)
    ensures |r| == |s|
  {
    seq(|s|, i requires 0 <= i < |s| => TickedAt(s, i))
  }

  /** The next prefix sum. */
  lemma DeltaSumSnoc(s: seq<MidiEvent>, i: nat)
    requires i < |s|
    ensures DeltaSum(s[..i + 1]) == DeltaSum(s[..i]) + s[i].deltaTicks
  {
    assert s[..i + 1][..i] == s[..i];
  }

  /** A list that agrees with TickedAt everywhere is WithTicks. */
  lemma WithTicksPointwise(s: seq<MidiEvent>, t: seq<MidiEvent>)
    requires |t| == |s|
    requires forall k | 0 <= k < |s| :: t[k] == TickedAt(s, k)
    ensures t == WithTicks(s)
  {
  }

  /** The first event's Ticks is its own delta; every later event's Ticks is the previous
      event's Ticks plus its own delta, in 32-bit arithmetic. */
  lemma TicksAccumulate(s: seq<MidiEvent>, i: nat)
    requires i < |s|
    ensures i == 0 ==> WithTicks(s)[i].ticks == ToInt32(s[0].deltaTicks)
    ensures i > 0 ==> WithTicks(s)[i].ticks == ToInt32(WithTicks(s)[i - 1].ticks + s[i].deltaTicks)
    ensures WithTicks(s)[i].holdTicks == 0
    ensures WithTicks(s)[i].(ticks := s[i].ticks, holdTicks := s[i].holdTicks) == s[i]
  {
    if i == 0 {
      assert s[..1][..0] == [];
    } else {
      assert s[..i + 1][..i] == s[..i];
      ToInt32Add(DeltaSum(s[..i]), s[i].deltaTicks);
    }
  }

  /** With non-negative deltas, the prefix sums grow with the prefix. */
  lemma {:induction false} DeltaSumMonotone(s: seq<MidiEvent>, i: nat, j: nat)
    requires i <= j <= |s|
    requires forall k | 0 <= k < |s| :: s[k].deltaTicks >= 0
    ensures 0 <= DeltaSum(s[..i]) <= DeltaSum(s[..j])
    decreases j
  {
    if j == 0 {
    } else {
      assert s[..j][..j - 1] == s[..j - 1];
      if i < j {
        DeltaSumMonotone(s, i, j - 1);
      } else {
        DeltaSumMonotone(s, j - 1, j - 1);
      }
    }
  }

  /** When the deltas are non-negative and their total fits in an `int`, Ticks is exactly
      the prefix sum of the deltas and never decreases along the array. */
  lemma TicksArePrefixSums(s: seq<MidiEvent>)
    requires forall k | 0 <= k < |s| :: s[k].deltaTicks >= 0
    requires DeltaSum(s) < 0x8000_0000
    ensures forall i | 0 <= i < |s| :: WithTicks(s)[i].ticks == DeltaSum(s[..i + 1])
    ensures forall i, j | 0 <= i <= j < |s| :: WithTicks(s)[i].ticks <= WithTicks(s)[j].ticks
  {
    assert s[..|s|] == s;
    forall i | 0 <= i < |s|
      ensures WithTicks(s)[i].ticks == DeltaSum(s[..i + 1])
    {
      DeltaSumMonotone(s, i + 1, |s|);
    }
    forall i, j | 0 <= i <= j < |s|
      ensures WithTicks(s)[i].ticks <= WithTicks(s)[j].ticks
    {
      DeltaSumMonotone(s, i + 1, j + 1);
    }
  }

  // ---------------------------------------------------------------------------
  // Counting notes

  /** A NoteOn event that sounds: channel voice, NoteOn, non-zero velocity. */
  predicate IsSoundingNoteOn(e: MidiEvent)
  {
    IsChannelVoiceMessage(e) && Message(e) == NOTE_ON && Velocity(e) != 0
  }

  function NoteOnCount(s: seq<MidiEvent>): (r: nat)
    ensures r <= |s|
  {
    if s == [] then 0
    else NoteOnCount(s[..|s| - 1]) + (if IsSoundingNoteOn(s[|s| - 1]) then 1 else 0)
  }

  /** The positions of the sounding NoteOn events. */
  ghost function NoteOnIndices(s: seq<MidiEvent>): set<int>
  {
    set i | 0 <= i < |s| && IsSoundingNoteOn(s[i])
  }

  /** The count is the number of positions holding a sounding NoteOn. */
  lemma {:induction false} NoteOnCountIsCardinality(s: seq<MidiEvent>)
    ensures NoteOnCount(s) == |NoteOnIndices(s)|
  {
    if s != [] {
      var t := s[..|s| - 1];
      NoteOnCountIsCardinality(t);
      assert |s| - 1 !in NoteOnIndices(t);
      if IsSoundingNoteOn(s[|s| - 1]) {
        assert NoteOnIndices(s) == NoteOnIndices(t) + {|s| - 1};
      } else {
        assert NoteOnIndices(s) == NoteOnIndices(t);
      }
    }
  }

  /** Counting a concatenation counts each part. */
  lemma {:induction false} NoteOnCountAppend(a: seq<MidiEvent>, b: seq<MidiEvent>)
    ensures NoteOnCount(a + b) == NoteOnCount(a) + NoteOnCount(b)
    decreases |b|
  {
    if b == [] {
      assert a + b == a;
    } else {
      assert (a + b)[..|a + b| - 1] == a + b[..|b| - 1];
      NoteOnCountAppend(a, b[..|b| - 1]);
    }
  }

  // ---------------------------------------------------------------------------
  // Hold times

  /** `e` releases the note of `on`: same note number, and a NoteOff or a NoteOn of
      velocity 0 (the channel is not compared). */
  predicate Releases(on: MidiEvent, e: MidiEvent)
  {
    Note(e) == Note(on) && (Message(e) == NOTE_OFF || (Message(e) == NOTE_ON && Velocity(e) == 0))
  }

  /** The first position at or after `j` releasing the note of `s[i]`. */
  function FirstRelease(s: seq<MidiEvent>, i: nat, j: nat): (r: Option<nat>)
    requires i < |s| && j <= |s|
    ensures r.Some? ==>
      j <= r.value < |s| && Releases(s[i], s[r.value]) &&
      forall k | j <= k < r.value :: !Releases(s[i], s[k])
    ensures r.None? ==> forall k | j <= k < |s| :: !Releases(s[i], s[k])
    decreases |s| - j
  {
    if j == |s| then None
    else if Releases(s[i], s[j]) then Some(j)
    else FirstRelease(s, i, j + 1)
  }

  /** What CalculateHoldTime leaves at position i: a sounding NoteOn with a later
      release gets the tick and time distances to its first release; every other event
      is left as it is. */
  function HoldAt(s: seq<MidiEvent>, i: nat): MidiEvent
    requires i < |s|
  {
    if IsSoundingNoteOn(s[i]) && FirstRelease(s, i, i + 1).Some? then
      var j := FirstRelease(s, i, i + 1).value;
      s[i].(holdTicks := ToInt32(s[j].ticks - s[i].ticks), holdTime := s[j].time - s[i].time)
    else s[i]
  }

  function WithHoldTimes(s: seq<MidiEvent>): (r: seq<MidiEvent>)
    ensures |r| == |s|
  {
    seq(|s|, i requires 0 <= i < |s| => HoldAt(s, i))
  }

  /** The search for a release only looks at the event itself and the ones after it. */
  lemma {:induction false} FirstReleaseOfSuffix(a: seq<MidiEvent>, b: seq<MidiEvent>, i: nat, j: nat)
    requires i < |a| && j <= |a| && |a| == |b| && a[i..] == b[i..] && i <= j
    ensures FirstRelease(a, i, j) == FirstRelease(b, i, j)
    decreases |a| - j
  {
    assert a[i] == a[i..][0] == b[i];
    if j < |a| {
      assert a[j] == a[i..][j - i] == b[j];
      FirstReleaseOfSuffix(a, b, i, j + 1);
    }
  }

  /** CalculateHoldTime changes only HoldTicks and HoldTime, only of sounding NoteOn
      events, and only of those that are released later; a released note's hold is the
      distance to the first later release of the same note number. */
  lemma HoldTimesPaired(s: seq<MidiEvent>, i: nat)
    requires i < |s|
    ensures WithHoldTimes(s)[i].(holdTicks := s[i].holdTicks, holdTime := s[i].holdTime) == s[i]
    ensures !IsSoundingNoteOn(s[i]) ==> WithHoldTimes(s)[i] == s[i]
    ensures (forall k | i < k < |s| :: !Releases(s[i], s[k])) ==> WithHoldTimes(s)[i] == s[i]
    ensures forall j | i < j < |s| ::
      IsSoundingNoteOn(s[i]) && Releases(s[i], s[j]) && (forall k | i < k < j :: !Releases(s[i], s[k])) ==>
        WithHoldTimes(s)[i].holdTicks == ToInt32(s[j].ticks - s[i].ticks) &&
        WithHoldTimes(s)[i].holdTime == s[j].time - s[i].time
  {
  }

  /** With non-decreasing 32-bit Ticks, no sounding NoteOn gets a negative hold. */
  lemma HoldTicksNonNegative(s: seq<MidiEvent>, i: nat)
    requires i < |s|
    requires forall k | 0 <= k < |s| :: 0 <= s[k].ticks < 0x8000_0000
    requires forall a, b | 0 <= a <= b < |s| :: s[a].ticks <= s[b].ticks
    requires IsSoundingNoteOn(s[i]) && s[i].holdTicks >= 0
    ensures WithHoldTimes(s)[i].holdTicks >= 0
  {
  }

  // ---------------------------------------------------------------------------
  // Filters

  /** The events of `s` satisfying `keep`, in their order. */
  function Filter(s: seq<MidiEvent>, keep: MidiEvent -> bool): (r: seq<MidiEvent>)
    ensures |r| <= |s|
    ensures forall x :: x in r <==> x in s && keep(x)
  {
    if s == [] then []
    else Filter(s[..|s| - 1], keep) + (if keep(s[|s| - 1]) then [s[|s| - 1]] else [])
  }

  /** Filtering one more event: it is appended when it passes. */
  lemma FilterSnoc(s: seq<MidiEvent>, x: MidiEvent, keep: MidiEvent -> bool)
    ensures Filter(s + [x], keep) == Filter(s, keep) + (if keep(x) then [x] else [])
  {
    assert (s + [x])[..|s|] == s;
  }

  predicate IsMetaWithMessage(e: MidiEvent)
  {
    IsMetaMessage(e) && e.meta.Some?
  }

  // ---------------------------------------------------------------------------
  // Event groups consumed by Seek and Update

  /** The end of the group starting at `i`: the event at `i` and the zero-delta events
      right after it. */
  function GroupEnd(s: seq<MidiEvent>, i: nat): (r: nat)
    requires i < |s|
    ensures i < r <= |s|
    ensures forall k | i < k < r :: s[k].deltaTicks == 0
    ensures r < |s| ==> s[r].deltaTicks != 0
  {
    GroupEndFrom(s, i + 1)
  }

  function GroupEndFrom(s: seq<MidiEvent>, k: nat): (r: nat)
    requires k <= |s|
    ensures k <= r <= |s|
    ensures forall m | k <= m < r :: s[m].deltaTicks == 0
    ensures r < |s| ==> s[r].deltaTicks != 0
    decreases |s| - k
  {
    if k < |s| && s[k].deltaTicks == 0 then GroupEndFrom(s, k + 1) else k
  }

  /** Where a scan from `i` stops: it consumes whole groups while the first event of the
      next group is due (Time <= t). */
  function ScanEnd(s: seq<MidiEvent>, i: nat, t: real): (r: nat)
    requires i <= |s|
    ensures i <= r <= |s|
    ensures r < |s| ==> s[r].time > t
    decreases |s| - i
  {
    if i == |s| || s[i].time > t then i else ScanEnd(s, GroupEnd(s, i), t)
  }

  /** Times as a tempo map produces them: non-decreasing, and a zero-delta event at the
      time of the event before it. */
  predicate TimesConsistent(s: seq<MidiEvent>)
  {
    && (forall a, b | 0 <= a <= b < |s| :: s[a].time <= s[b].time)
    && (forall k | 0 < k < |s| :: s[k].deltaTicks == 0 ==> s[k].time == s[k - 1].time)
  }

  /** With consistent times, a scan consumes exactly the events that are due: it stops
      at the first event after `i` whose Time is past `t`. */
  lemma {:induction false} ScanConsumesDue(s: seq<MidiEvent>, i: nat, t: real)
    requires i <= |s|
    requires TimesConsistent(s)
    ensures forall k | i <= k < ScanEnd(s, i, t) :: s[k].time <= t
    decreases |s| - i
  {
    if i < |s| && s[i].time <= t {
      var g := GroupEnd(s, i);
      forall k | i <= k < g
        ensures s[k].time <= t
      {
        GroupShareTime(s, i, k);
      }
      ScanConsumesDue(s, g, t);
    }
  }

  lemma {:induction false} GroupShareTime(s: seq<MidiEvent>, i: nat, k: nat)
    requires i < |s|
    requires TimesConsistent(s)
    requires i <= k < GroupEnd(s, i)
    ensures s[k].time == s[i].time
    decreases k
  {
    if k > i {
      GroupShareTime(s, i, k - 1);
    }
  }

  // ---------------------------------------------------------------------------
  // Dispatching events

  /** Every meta event's MetaMessageIndex names an entry of the clip's meta messages. */
  predicate MetasCovered(s: seq<MidiEvent>, metas: seq<MetaMessage>)
  {
    forall k | 0 <= k < |s| :: IsMetaMessage(s[k]) ==> s[k].metaMessageIndex < |metas|
  }

  predicate IsTempoEvent(e: MidiEvent, metas: seq<MetaMessage>)
  {
    IsMetaMessage(e) && e.metaMessageIndex < |metas| && MetaTypeOf(metas[e.metaMessageIndex]) == Tempo
  }

  /** The sequencer tempo after dispatching `e`: a tempo meta event sets it to
      `1000000.0 / tempo`, anything else leaves it. */
  function TempoStep(tempo: Rate, e: MidiEvent, metas: seq<MetaMessage>): Rate
  {
    if IsTempoEvent(e, metas) then RateOf(TempoOf(metas[e.metaMessageIndex])) else tempo
  }

  function TempoAfter(tempo: Rate, s: seq<MidiEvent>, metas: seq<MetaMessage>): Rate
  {
    if s == [] then tempo else TempoStep(TempoAfter(tempo, s[..|s| - 1], metas), s[|s| - 1], metas)
  }

  /** Without tempo events a run leaves the tempo alone. */
  lemma {:induction false} TempoAfterNoTempo(tempo: Rate, s: seq<MidiEvent>, metas: seq<MetaMessage>)
    requires forall k | 0 <= k < |s| :: !IsTempoEvent(s[k], metas)
    ensures TempoAfter(tempo, s, metas) == tempo
    decreases |s|
  {
    if s != [] {
      var t := s[..|s| - 1];
      assert forall k | 0 <= k < |t| :: t[k] == s[k];
      TempoAfterNoTempo(tempo, t, metas);
    }
  }

  /** A run whose last tempo event is at `k` ends with that event's tempo. */
  lemma {:induction false} TempoAfterFrom(tempo: Rate, s: seq<MidiEvent>, metas: seq<MetaMessage>, k: nat)
    requires k < |s| && IsTempoEvent(s[k], metas)
    requires forall m | k < m < |s| :: !IsTempoEvent(s[m], metas)
    ensures TempoAfter(tempo, s, metas) == RateOf(TempoOf(metas[s[k].metaMessageIndex]))
    decreases |s|
  {
    var t := s[..|s| - 1];
    if k < |s| - 1 {
      assert t[k] == s[k];
      assert forall m | k < m < |t| :: t[m] == s[m];
      TempoAfterFrom(tempo, t, metas, k);
      assert !IsTempoEvent(s[|s| - 1], metas);
    }
  }

  /** The tempo after a run of events is that of its last tempo event, or the incoming
      tempo when it has none. */
  lemma TempoAfterIsLastTempo(tempo: Rate, s: seq<MidiEvent>, metas: seq<MetaMessage>)
    ensures (forall k | 0 <= k < |s| :: !IsTempoEvent(s[k], metas)) ==> TempoAfter(tempo, s, metas) == tempo
    ensures forall k | 0 <= k < |s| && IsTempoEvent(s[k], metas) &&
                       (forall m | k < m < |s| :: !IsTempoEvent(s[m], metas)) ::
      TempoAfter(tempo, s, metas) == RateOf(TempoOf(metas[s[k].metaMessageIndex]))
  {
    if forall k | 0 <= k < |s| :: !IsTempoEvent(s[k], metas) {
      TempoAfterNoTempo(tempo, s, metas);
    }
    forall k | 0 <= k < |s| && IsTempoEvent(s[k], metas) &&
               (forall m | k < m < |s| :: !IsTempoEvent(s[m], metas))
      ensures TempoAfter(tempo, s, metas) == RateOf(TempoOf(metas[s[k].metaMessageIndex]))
    {
      TempoAfterFrom(tempo, s, metas, k);
    }
  }

  /** What dispatch writes into an event: its MetaMessage (null unless it is a meta
      event), the sequencer's track index, and the tempo in force. */
  function Stamp(e: MidiEvent, metas: seq<MetaMessage>, trackIndex: int, tempo: Rate): MidiEvent
    requires IsMetaMessage(e) ==> e.metaMessageIndex < |metas|
  {
    e.(meta := if IsMetaMessage(e) then Some(metas[e.metaMessageIndex]) else None,
       trackIndex := trackIndex, tempo := tempo)
  }

  /** A run of events as dispatched, each stamped with the tempo in force after it. */
  function Stamped(tempo: Rate, s: seq<MidiEvent>, metas: seq<MetaMessage>, trackIndex: int): (r: seq<MidiEvent>)
    requires MetasCovered(s, metas)
    ensures |r| == |s|
  {
    if s == [] then []
    else
      assert MetasCovered(s[..|s| - 1], metas);
      Stamped(tempo, s[..|s| - 1], metas, trackIndex) +
        [Stamp(s[|s| - 1], metas, trackIndex, TempoAfter(tempo, s, metas))]
  }

  /** The dispatched events are the events themselves in the same order, differing only
      in MetaMessage, TrackIndex and Tempo; a meta event carries its message, and each
      carries the tempo in force once it has been dispatched. */
  lemma {:induction false} StampedEvents(tempo: Rate, s: seq<MidiEvent>, metas: seq<MetaMessage>, trackIndex: int, k: nat)
    requires MetasCovered(s, metas)
    requires k < |s|
    ensures var e := Stamped(tempo, s, metas, trackIndex)[k];
      && e.(meta := s[k].meta, trackIndex := s[k].trackIndex, tempo := s[k].tempo) == s[k]
      && e.trackIndex == trackIndex
      && e.tempo == TempoAfter(tempo, s[..k + 1], metas)
      && (IsMetaMessage(s[k]) ==> e.meta == Some(metas[s[k].metaMessageIndex]))
      && (!IsMetaMessage(s[k]) ==> e.meta.None?)
    decreases |s|
  {
    if k < |s| - 1 {
      var t := s[..|s| - 1];
      assert MetasCovered(t, metas);
      StampedEvents(tempo, t, metas, trackIndex, k);
      assert t[..k + 1] == s[..k + 1];
    } else {
      assert s[..k + 1] == s;
    }
  }

  /** Extending a dispatched run by one event. */
  lemma StampedSnoc(tempo: Rate, s: seq<MidiEvent>, x: MidiEvent, metas: seq<MetaMessage>, trackIndex: int)
    requires MetasCovered(s + [x], metas)
    ensures MetasCovered(s, metas)
    ensures Stamped(tempo, s + [x], metas, trackIndex) ==
      Stamped(tempo, s, metas, trackIndex) + [Stamp(x, metas, trackIndex, TempoAfter(tempo, s + [x], metas))]
    ensures TempoAfter(tempo, s + [x], metas) == TempoStep(TempoAfter(tempo, s, metas), x, metas)
  {
    assert (s + [x])[..|s|] == s;
    assert forall k | 0 <= k < |s| :: s[k] == (s + [x])[k];
  }

  // ---------------------------------------------------------------------------
  // The note grid

  /** A double quotient: its value, or the infinity or NaN a division by zero gives
      (kept as its numerator). */
  datatype Seconds = Seconds(value: real) | DividedByZero(numerator: real)

  function Divide(x: real, y: real): (r: Seconds)
    ensures r.Seconds? <==> y != 0.0
    ensures r.Seconds? ==> r.value * y == x
  {
    if y == 0.0 then DividedByZero(x) else Seconds(x / y)
  }

  /** What SetMidiNoteData records for a note: velocity, velocity / 127 and the hold time
      divided by the playback speed. */
  datatype NoteData = NoteData(velocity: int, normalizedVelocity: real, holdTime: Seconds)

  /** The note grid, keyed by (track index, note index). */
  type NoteGrid = map<(int, int), NoteData>

  /** The note index of a NoteOn or NoteOff: `(short)(note + noteOffset)`. */
  function NoteIndex(e: MidiEvent, noteOffset: int): int
  {
    ToInt16(Note(e) + noteOffset)
  }

  /** The note grid after dispatching `e` in Update: a NoteOff clears its cell, a NoteOn
      fills it, but only for a note index in [0, 128). */
  function GridStep(grid: NoteGrid, e: MidiEvent, trackIndex: int, noteOffset: int, speed: real): NoteGrid
  {
    if IsChannelVoiceMessage(e) && (Message(e) == NOTE_OFF || Message(e) == NOTE_ON) then
      var n := NoteIndex(e, noteOffset);
      if 0 <= n < 128 then
        if Message(e) == NOTE_OFF then grid[(trackIndex, n) := NoteData(0, 0.0, Seconds(0.0))]
        else grid[(trackIndex, n) := NoteData(Velocity(e), Velocity(e) as real / 127.0, Divide(e.holdTime, speed))]
      else grid
    else grid
  }

  function GridAfter(grid: NoteGrid, s: seq<MidiEvent>, trackIndex: int, noteOffset: int, speed: real): NoteGrid
  {
    if s == [] then grid
    else GridStep(GridAfter(grid, s[..|s| - 1], trackIndex, noteOffset, speed), s[|s| - 1], trackIndex, noteOffset, speed)
  }

  /** Dispatch writes the note grid only in the sequencer's track and only at note indices
      in [0, 128); every other cell keeps its value. */
  lemma {:induction false} GridWritesInRange(grid: NoteGrid, s: seq<MidiEvent>, trackIndex: int, noteOffset: int, speed: real)
    ensures var g := GridAfter(grid, s, trackIndex, noteOffset, speed);
      forall key | key in g && !(key.0 == trackIndex && 0 <= key.1 < 128) ::
        key in grid && g[key] == grid[key]
    ensures var g := GridAfter(grid, s, trackIndex, noteOffset, speed);
      forall key | key in grid :: key in g
  {
    if s != [] {
      GridWritesInRange(grid, s[..|s| - 1], trackIndex, noteOffset, speed);
    }
  }

  /** A sounding NoteOn in range leaves its cell holding its velocity, unless a later
      event of the run overwrites that cell. */
  lemma GridNoteOn(grid: NoteGrid, s: seq<MidiEvent>, x: MidiEvent, trackIndex: int, noteOffset: int, speed: real)
    requires IsSoundingNoteOn(x) && 0 <= NoteIndex(x, noteOffset) < 128
    ensures var g := GridAfter(grid, s + [x], trackIndex, noteOffset, speed);
      && (trackIndex, NoteIndex(x, noteOffset)) in g
      && g[(trackIndex, NoteIndex(x, noteOffset))].velocity == Velocity(x) > 0
      && g[(trackIndex, NoteIndex(x, noteOffset))].holdTime == Divide(x.holdTime, speed)
  {
    assert (s + [x])[..|s|] == s;
  }

  // ---------------------------------------------------------------------------
  // Runs of an event array

  /** A run of the array inherits the coverage of meta indices. */
  lemma CoveredRun(s: seq<MidiEvent>, a: nat, b: nat, metas: seq<MetaMessage>)
    requires a <= b <= |s| && MetasCovered(s, metas)
    ensures MetasCovered(s[a..b], metas)
  {
    assert forall k | 0 <= k < b - a :: s[a..b][k] == s[a + k];
  }

  /** Growing a run of the array by one event grows each of the dispatch folds by one
      step. */
  lemma RunSnoc(tempo: Rate, s: seq<MidiEvent>, a: nat, b: nat, metas: seq<MetaMessage>, trackIndex: int,
                grid: NoteGrid, noteOffset: int, speed: real)
    requires a <= b < |s| && MetasCovered(s, metas)
    ensures MetasCovered(s[a..b], metas) && MetasCovered(s[a..b + 1], metas)
    ensures TempoAfter(tempo, s[a..b + 1], metas) == TempoStep(TempoAfter(tempo, s[a..b], metas), s[b], metas)
    ensures Stamped(tempo, s[a..b + 1], metas, trackIndex) ==
      Stamped(tempo, s[a..b], metas, trackIndex) + [Stamp(s[b], metas, trackIndex, TempoAfter(tempo, s[a..b + 1], metas))]
    ensures NoteOnCount(s[a..b + 1]) == NoteOnCount(s[a..b]) + (if IsSoundingNoteOn(s[b]) then 1 else 0)
    ensures GridAfter(grid, s[a..b + 1], trackIndex, noteOffset, speed) ==
      GridStep(GridAfter(grid, s[a..b], trackIndex, noteOffset, speed), s[b], trackIndex, noteOffset, speed)
  {
    CoveredRun(s, a, b, metas);
    CoveredRun(s, a, b + 1, metas);
    assert s[a..b + 1] == s[a..b] + [s[b]];
    assert s[a..b + 1][..b - a] == s[a..b];
    StampedSnoc(tempo, s[a..b], s[b], metas, trackIndex);
  }

  /** Writing the next slot of an array made of a processed prefix and an untouched
      suffix. */
  lemma SpliceNext(prefix: seq<MidiEvent>, s: seq<MidiEvent>, e: nat, x: MidiEvent)
    requires |prefix| == e < |s|
    ensures (prefix + s[e..])[e := x] == (prefix + [x]) + s[e + 1..]
  {
  }
}
