/** The part of the sequencer's internal state that a track reads and writes while it
    dispatches events: the tempo, the note counter, one event cursor per track, the
    current time, the index of the track being played, the playback speed, the note grid,
    and the events raised to the application so far. */
module Sequencing {
  import opened MidiEvents
  import opened TrackEvents

  class Sequencer {
    /** Quarter notes per second (`Tempo`). */
    var tempo: Rate
    var noteCounter: int
    /** The event index of each track (`GetCurrentEventIndex` / `SetCurrentEventIndex`). */
    var cursors: map<int, nat>
    var time: real
    /** The index of the track being dispatched (`TrackIndex`). */
    var trackIndex: int
    var playbackSpeed: real
    var noteGrid: NoteGrid
    /** The events passed to `RaiseMidiEvent`, oldest first. */
    var raised: seq<MidiEvent>

    constructor(tempo: Rate, time: real, trackIndex: int, playbackSpeed: real)
      ensures this.tempo == tempo && this.time == time && this.trackIndex == trackIndex
      ensures this.playbackSpeed == playbackSpeed
      ensures noteCounter == 0 && cursors == map[] && noteGrid == map[] && raised == []
    {
      this.tempo := tempo;
      this.time := time;
      this.trackIndex := trackIndex;
      this.playbackSpeed := playbackSpeed;
      noteCounter := 0;
      cursors := map[];
      noteGrid := map[];
      raised := [];
    }

    /** The cursor of a track: the index of its next event, 0 before it has been set. */
    function CurrentEventIndex(track: int): nat
      reads this
    {
      if track in cursors then cursors[track] else 0
    }
  }
}
