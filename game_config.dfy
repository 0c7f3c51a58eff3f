/** The game's tuning asset: the score of each grade, the combo rules and the three
    grade distances, which the editor hook `OnValidate` keeps non-negative and ordered
    (perfect within great within good). */
module GameConfiguration {

  /** The three grade distances: how far from the receptor a note may be for each grade. */
  datatype Distances = Distances(perfect: real, great: real, good: real)

  predicate NonNegative(d: Distances)
  {
    d.perfect >= 0.0 && d.great >= 0.0 && d.good >= 0.0
  }

  predicate Ordered(d: Distances)
  {
    d.perfect <= d.great <= d.good
  }

  function Max0(x: real): real
  {
    if x < 0.0 then 0.0 else x
  }

  function Min(x: real, y: real): real
  {
    if x <= y then x else y
  }

  /** The distances after `OnValidate`: first each negative distance is raised to 0,
      then perfect is capped by great, great by good, and perfect by good, in that
      order. The result is the closed form good' = max(good, 0),
      great' = min(max(great, 0), good') and perfect' = min(max(perfect, 0), great'). */
  function Validated(d: Distances): (r: Distances)
    ensures NonNegative(r) && Ordered(r)
    ensures r.good == Max0(d.good)
    ensures r.great == Min(Max0(d.great), r.good)
    ensures r.perfect == Min(Max0(d.perfect), r.great)
    ensures NonNegative(d) && Ordered(d) ==> r == d
    ensures r.perfect <= Max0(d.perfect) && r.great <= Max0(d.great) && r.good <= Max0(d.good)
  {
    var p := if d.perfect < 0.0 then 0.0 else d.perfect;
    var gr := if d.great < 0.0 then 0.0 else d.great;
    var go := if d.good < 0.0 then 0.0 else d.good;
    var p := if p > gr then gr else p;
    var gr := if gr > go then go else gr;
    var p := if p > go then go else p;
    Distances(p, gr, go)
  }

  /** Validating twice is validating once. */
  lemma ValidatedIdempotent(d: Distances)
    ensures Validated(Validated(d)) == Validated(d)
  {
  }

  class GameConfig {
    var perfectGradeScore: real
    var greatGradeScore: real
    var goodGradeScore: real
    var comboToUpgradeMultiplier: int
    var comboMultiplierIncrement: real
    var goodGradeDistance: real
    var greatGradeDistance: real
    var perfectGradeDistance: real

    constructor(scores: (real, real, real), comboToUpgradeMultiplier: int, comboMultiplierIncrement: real,
                distances: Distances)
      ensures (perfectGradeScore, greatGradeScore, goodGradeScore) == scores
      ensures this.comboToUpgradeMultiplier == comboToUpgradeMultiplier
      ensures this.comboMultiplierIncrement == comboMultiplierIncrement
      ensures GradeDistances() == distances
    {
      perfectGradeScore, greatGradeScore, goodGradeScore := scores.0, scores.1, scores.2;
      this.comboToUpgradeMultiplier := comboToUpgradeMultiplier;
      this.comboMultiplierIncrement := comboMultiplierIncrement;
      perfectGradeDistance := distances.perfect;
      greatGradeDistance := distances.great;
      goodGradeDistance := distances.good;
    }

    function GradeDistances(): Distances
      reads this
    {
      Distances(perfectGradeDistance, greatGradeDistance, goodGradeDistance)
    }

    /** The editor hook: clamps the three distances and touches no other field. */
    method OnValidate()
      modifies this
      ensures GradeDistances() == Validated(old(GradeDistances()))
      ensures perfectGradeScore == old(perfectGradeScore) && greatGradeScore == old(greatGradeScore)
      ensures goodGradeScore == old(goodGradeScore)
      ensures comboToUpgradeMultiplier == old(comboToUpgradeMultiplier)
      ensures comboMultiplierIncrement == old(comboMultiplierIncrement)
    {
      if perfectGradeDistance < 0.0 { perfectGradeDistance := 0.0; }
      if greatGradeDistance < 0.0 { greatGradeDistance := 0.0; }
      if goodGradeDistance < 0.0 { goodGradeDistance := 0.0; }

      if perfectGradeDistance > greatGradeDistance { perfectGradeDistance := greatGradeDistance; }
      if greatGradeDistance > goodGradeDistance { greatGradeDistance := goodGradeDistance; }
      if perfectGradeDistance > goodGradeDistance { perfectGradeDistance := goodGradeDistance; }
    }
  }
}
