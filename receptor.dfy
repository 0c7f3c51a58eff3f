/** The receptor: the queue of notes travelling towards the player, graded by their
    distance from the receptor when the player presses a key. */
module Receptors {
  import opened Bytes
  import opened GameConfiguration

  /** `NoteTouchGrade`, worst first. */
  datatype Grade = Miss | Good | Great | Perfect

  function Rank(g: Grade): nat
  {
    match g
    case Miss => 0
    case Good => 1
    case Great => 2
    case Perfect => 3
  }

  /** A note game object; `id` stands for its object identity. */
  datatype GameNote = GameNote(id: nat, trackId: int)

  /** The grade of a note at `distance`: Perfect within the perfect distance, else Great
      within the great distance, else Good within the good distance, else Miss. */
  function GradeFor(distance: real, d: Distances): Grade
  {
    if distance <= d.perfect then Perfect
    else if distance <= d.great then Great
    else if distance <= d.good then Good
    else Miss
  }

  /** A closer note never gets a worse grade, whatever the distances. */
  lemma GradeMonotone(near: real, far: real, d: Distances)
    requires near <= far
    ensures Rank(GradeFor(near, d)) >= Rank(GradeFor(far, d))
  {
  }

  /** With validated distances the grades are consecutive distance bands. */
  lemma GradeBands(distance: real, d: Distances)
    requires Ordered(d)
    ensures GradeFor(distance, d) == Perfect <==> distance <= d.perfect
    ensures GradeFor(distance, d) == Great <==> d.perfect < distance <= d.great
    ensures GradeFor(distance, d) == Good <==> d.great < distance <= d.good
    ensures GradeFor(distance, d) == Miss <==> d.good < distance
  {
  }

  /** `FirstOrDefault(note => note.TrackId == trackId)`: the index of the first note of
      that track, if any. */
  function FirstOfTrack(notes: seq<GameNote>, trackId: int): (r: Option<nat>)
    ensures r.None? ==> forall j | 0 <= j < |notes| :: notes[j].trackId != trackId
    ensures r.Some? ==> r.value < |notes| && notes[r.value].trackId == trackId
    ensures r.Some? ==> forall j | 0 <= j < r.value :: notes[j].trackId != trackId
  {
    if notes == [] then None
    else if notes[0].trackId == trackId then Some(0)
    else match FirstOfTrack(notes[1..], trackId)
      case None => None
      case Some(i) => Some(i + 1)
  }

  /** `List.Remove`: drops the first occurrence of `n`, keeping the others in order. */
  function RemoveFirst(notes: seq<GameNote>, n: GameNote): (r: seq<GameNote>)
    ensures n !in notes ==> r == notes
    ensures n in notes ==> |r| == |notes| - 1
  {
    if notes == [] then []
    else if notes[0] == n then notes[1..]
    else [notes[0]] + RemoveFirst(notes[1..], n)
  }

  /** Removing the element at `i` by value removes that position when no earlier element
      equals it. */
  lemma {:induction false} RemoveFirstAt(notes: seq<GameNote>, i: nat)
    requires i < |notes|
    requires forall j | 0 <= j < i :: notes[j] != notes[i]
    ensures RemoveFirst(notes, notes[i]) == notes[..i] + notes[i + 1..]
  {
    if i > 0 {
      RemoveFirstAt(notes[1..], i - 1);
      assert notes[1..][..i - 1] == notes[1..i];
      assert notes[1..][i..] == notes[i + 1..];
      assert [notes[0]] + notes[1..i] == notes[..i];
    }
  }

  /** Removing the first note of a track by value removes exactly its position: an
      earlier occurrence of the same object would have been found first. */
  lemma RemoveFirstOfTrack(notes: seq<GameNote>, trackId: int)
    requires FirstOfTrack(notes, trackId).Some?
    ensures var i := FirstOfTrack(notes, trackId).value;
      RemoveFirst(notes, notes[i]) == notes[..i] + notes[i + 1..]
  {
    RemoveFirstAt(notes, FirstOfTrack(notes, trackId).value);
  }

  class Receptor {
    const goodGradeDistance: real
    const greatGradeDistance: real
    const perfectGradeDistance: real
    /** `_notesInProcess`, oldest first. */
    var notesInProcess: seq<GameNote>
    /** The grades passed to `NoteTouched`, oldest first. */
    var touched: seq<Grade>

    constructor(config: GameConfig)
      ensures Distances(perfectGradeDistance, greatGradeDistance, goodGradeDistance) == config.GradeDistances()
      ensures notesInProcess == [] && touched == []
    {
      goodGradeDistance := config.goodGradeDistance;
      greatGradeDistance := config.greatGradeDistance;
      perfectGradeDistance := config.perfectGradeDistance;
      notesInProcess := [];
      touched := [];
    }

    function GradeDistances(): Distances
    {
      Distances(perfectGradeDistance, greatGradeDistance, goodGradeDistance)
    }

    /** A key of track `noteId` is pressed while the receptor is at `receptorX` and each
        note at `x(note)`: the first note of that track, if any, is graded by its distance
        and removed; the grade (Miss when there is no such note) is raised once. */
    method OnNotePressed(noteId: int, receptorX: real, x: GameNote -> real)
      modifies this
      ensures match FirstOfTrack(old(notesInProcess), noteId)
        case None =>
          notesInProcess == old(notesInProcess) && touched == old(touched) + [Miss]
        case Some(i) =>
          var n := old(notesInProcess)[i];
          && notesInProcess == old(notesInProcess)[..i] + old(notesInProcess)[i + 1..]
          && touched == old(touched) + [GradeFor(Abs(receptorX - x(n)), GradeDistances())]
    {
      var grade := Miss;
      if |notesInProcess| > 0 {
        var first := FirstOfTrack(notesInProcess, noteId);
        if first.Some? {
          var firstNote := notesInProcess[first.value];
          var distance := Abs(receptorX - x(firstNote));
          if distance <= perfectGradeDistance {
            grade := Perfect;
          } else if distance <= greatGradeDistance {
            grade := Great;
          } else if distance <= goodGradeDistance {
            grade := Good;
          }
          RemoveFirstOfTrack(notesInProcess, noteId);
          notesInProcess := RemoveFirst(notesInProcess, firstNote);
        }
      }
      touched := touched + [grade];
    }

    method AddNote(gameNote: GameNote)
      modifies this
      ensures notesInProcess == old(notesInProcess) + [gameNote] && touched == old(touched)
    {
      notesInProcess := notesInProcess + [gameNote];
    }

    /** Drops the oldest note as missed; `RemoveAt(0)` throws on an empty list before
        anything is raised. */
    method RemoveFirstNote() returns (outcome: Outcome)
      modifies this
      ensures old(notesInProcess) == [] ==>
        outcome == Fail(ArgumentOutOfRange) && notesInProcess == [] && touched == old(touched)
      ensures old(notesInProcess) != [] ==>
        outcome == Pass && notesInProcess == old(notesInProcess)[1..] && touched == old(touched) + [Miss]
    {
      if |notesInProcess| == 0 {
        return Fail(ArgumentOutOfRange);
      }
      notesInProcess := notesInProcess[1..];
      touched := touched + [Miss];
      outcome := Pass;
    }
  }
}
