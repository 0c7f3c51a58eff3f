/** The score counter: listens to the receptor's grades and keeps the score, the combo
    (consecutive hits) and the combo multiplier. */
module Scoring {
  import opened Bytes
  import opened GameConfiguration
  import opened Receptors

  /** The counter's state. */
  datatype Tally = Tally(score: real, combo: int, multiplier: real)

  /** The constants the counter copies from the configuration. */
  datatype Rules = Rules(perfect: real, great: real, good: real, comboToUpgrade: int, increment: real)

  /** The events of the counter, in the order they are raised. */
  datatype ScoreEvent = ScoreUpdated(score: real) | ComboUpdated(combo: int) | GotGrade(grade: Grade)

  function GradeScore(rules: Rules, g: Grade): real
  {
    match g
    case Miss => 0.0
    case Good => rules.good
    case Great => rules.great
    case Perfect => rules.perfect
  }

  /** A hit whose remainder `_combo % _comboToUpgradeMultiplier` throws: a divisor of zero
      (DivideByZeroException), or the combo wrapped to int.MinValue with a divisor of -1
      (OverflowException, as C# specifies for that remainder). */
  predicate Throws(rules: Rules, t: Tally, g: Grade)
  {
    g != Miss &&
    (rules.comboToUpgrade == 0 || (rules.comboToUpgrade == -1 && ToInt32(t.combo + 1) == -0x8000_0000))
  }

  /** The exception a throwing hit raises. */
  function Thrown(rules: Rules): Error
  {
    if rules.comboToUpgrade == 0 then DivideByZero else Overflow
  }

  /** The state after `NoteTouched(g)`; when it throws, the score and combo have already
      been updated and the multiplier has not. `_combo += 1` wraps at 32 bits; a zero
      remainder is the same whether it is truncated or Euclidean. */
  function Touched(rules: Rules, t: Tally, g: Grade): (r: Tally)
  {
    if g == Miss then
      Tally(t.score, 0, 1.0)
    else
      var combo := ToInt32(t.combo + 1);
      var upgrade := !Throws(rules, t, g) && combo % rules.comboToUpgrade == 0;
      Tally(t.score + GradeScore(rules, g) * t.multiplier, combo,
            if upgrade then t.multiplier + rules.increment else t.multiplier)
  }

  /** A miss resets the combo and the multiplier and keeps the score. */
  lemma MissResets(rules: Rules, t: Tally)
    ensures Touched(rules, t, Miss) == Tally(t.score, 0, 1.0)
  {
  }

  /** A hit adds its grade's score times the multiplier in force before it, extends the
      combo by one (below the 32-bit limit), and raises the multiplier by the increment
      exactly when the new combo is a multiple of the upgrade step. */
  lemma HitScores(rules: Rules, t: Tally, g: Grade)
    requires g != Miss && !Throws(rules, t, g) && -0x8000_0001 < t.combo < 0x7FFF_FFFF
    ensures Touched(rules, t, g).score == t.score + GradeScore(rules, g) * t.multiplier
    ensures Touched(rules, t, g).combo == t.combo + 1
    ensures (t.combo + 1) % rules.comboToUpgrade == 0 ==>
      Touched(rules, t, g).multiplier == t.multiplier + rules.increment
    ensures (t.combo + 1) % rules.comboToUpgrade != 0 ==>
      Touched(rules, t, g).multiplier == t.multiplier
  {
  }

  /** With non-negative grade scores and multiplier, the score never decreases. */
  lemma ScoreNeverDecreases(rules: Rules, t: Tally, g: Grade)
    requires rules.perfect >= 0.0 && rules.great >= 0.0 && rules.good >= 0.0 && t.multiplier >= 0.0
    ensures Touched(rules, t, g).score >= t.score
  {
    if g != Miss {
      var s := GradeScore(rules, g);
      assert s >= 0.0;
      assert s * t.multiplier >= 0.0;
    }
  }

  function AbsInt(x: int): nat
  {
    if x < 0 then -x else x
  }

  /** The multiplier as a function of the combo: one increment for every multiple of the
      upgrade step reached since the last miss. */
  predicate MultiplierMatchesCombo(rules: Rules, t: Tally)
    requires rules.comboToUpgrade != 0
  {
    0 <= t.combo && t.multiplier == 1.0 + rules.increment * (t.combo / AbsInt(rules.comboToUpgrade)) as real
  }

  /** A product of a non-zero integer and m is at least |m| away from zero. */
  lemma {:induction false} ProductAwayFromZero(a: int, m: int)
    requires a != 0
    ensures AbsInt(a * m) >= AbsInt(m)
    decreases AbsInt(a), if a < 0 then 1 else 0
  {
    if a > 0 {
      assert a * m == (a - 1) * m + m;
      if a > 1 { ProductAwayFromZero(a - 1, m); }
    } else {
      assert a * m == -((-a) * m);
      ProductAwayFromZero(-a, m);
    }
  }

  /** Quotient and remainder are determined by x = q * m + r with 0 <= r < |m|. */
  lemma DivModUnique(x: int, m: int, q: int, r: int)
    requires m != 0 && x == q * m + r && 0 <= r < AbsInt(m)
    ensures x / m == q && x % m == r
  {
    var q0, r0 := x / m, x % m;
    assert (q0 - q) * m == r - r0;
    if q0 != q {
      ProductAwayFromZero(q0 - q, m);
    }
  }

  /** Counting multiples: going from c to c + 1 passes one more multiple of k exactly when
      c + 1 is one. */
  lemma MultiplesStep(c: nat, k: int)
    requires k != 0
    ensures (c + 1) / AbsInt(k) == c / AbsInt(k) + (if (c + 1) % k == 0 then 1 else 0)
  {
    var m := AbsInt(k);
    var q, r := c / m, c % m;
    var s := if k < 0 then -1 else 1;
    assert m == s * k;
    if r + 1 == m {
      DivModUnique(c + 1, m, q + 1, 0);
      DivModUnique(c + 1, k, (q + 1) * s, 0);
    } else {
      DivModUnique(c + 1, m, q, r + 1);
      DivModUnique(c + 1, k, q * s, r + 1);
    }
  }

  /** Every call keeps the multiplier in step with the combo, as long as the combo does
      not reach the 32-bit limit. */
  lemma {:induction false} TouchedKeepsMultiplier(rules: Rules, t: Tally, g: Grade)
    requires rules.comboToUpgrade != 0 && MultiplierMatchesCombo(rules, t) && t.combo < 0x7FFF_FFFF
    ensures MultiplierMatchesCombo(rules, Touched(rules, t, g))
  {
    if g != Miss {
      MultiplesStep(t.combo, rules.comboToUpgrade);
      var n := t.combo / AbsInt(rules.comboToUpgrade);
      var r := Touched(rules, t, g);
      assert r.combo == t.combo + 1;
      if (t.combo + 1) % rules.comboToUpgrade == 0 {
        assert r.multiplier == 1.0 + rules.increment * n as real + rules.increment;
        assert (n + 1) as real == n as real + 1.0;
        assert rules.increment * (n + 1) as real == rules.increment * n as real + rules.increment;
      }
    }
  }

  class ScoreCounter {
    const perfectGradeScore: real
    const greatGradeScore: real
    const goodGradeScore: real
    const comboToUpgradeMultiplier: int
    const comboMultiplierIncrement: real
    var score: real
    var combo: int
    var comboMultiplier: real
    /** The events raised so far, oldest first. */
    var raised: seq<ScoreEvent>

    constructor(config: GameConfig)
      ensures Settings() == Rules(config.perfectGradeScore, config.greatGradeScore, config.goodGradeScore,
                               config.comboToUpgradeMultiplier, config.comboMultiplierIncrement)
      ensures State() == Tally(0.0, 0, 1.0) && raised == []
    {
      perfectGradeScore := config.perfectGradeScore;
      greatGradeScore := config.greatGradeScore;
      goodGradeScore := config.goodGradeScore;
      comboToUpgradeMultiplier := config.comboToUpgradeMultiplier;
      comboMultiplierIncrement := config.comboMultiplierIncrement;
      score := 0.0;
      combo := 0;
      comboMultiplier := 1.0;
      raised := [];
    }

    function Settings(): Rules
    {
      Rules(perfectGradeScore, greatGradeScore, goodGradeScore, comboToUpgradeMultiplier, comboMultiplierIncrement)
    }

    function State(): Tally
      reads this
    {
      Tally(score, combo, comboMultiplier)
    }

    /** Handles one grade from the receptor and raises ScoreUpdated, ComboUpdated and
        GotGrade, in that order; a hit whose remainder throws raises nothing. */
    method NoteTouched(grade: Grade) returns (outcome: Outcome)
      modifies this
      ensures State() == Touched(Settings(), old(State()), grade)
      ensures Throws(Settings(), old(State()), grade) ==>
        outcome == Fail(Thrown(Settings())) && raised == old(raised)
      ensures !Throws(Settings(), old(State()), grade) ==>
        outcome == Pass && raised == old(raised) + [ScoreUpdated(score), ComboUpdated(combo), GotGrade(grade)]
    {
      match grade {
        case Miss =>
          combo := 0;
          comboMultiplier := 1.0;
        case Good =>
          score := score + goodGradeScore * comboMultiplier;
        case Great =>
          score := score + greatGradeScore * comboMultiplier;
        case Perfect =>
          score := score + perfectGradeScore * comboMultiplier;
      }
      if grade != Miss {
        combo := ToInt32(combo + 1);
        if comboToUpgradeMultiplier == 0 {
          return Fail(DivideByZero);
        }
        if comboToUpgradeMultiplier == -1 && combo == -0x8000_0000 {
          return Fail(Overflow);
        }
        if combo % comboToUpgradeMultiplier == 0 {
          comboMultiplier := comboMultiplier + comboMultiplierIncrement;
        }
      }
      raised := raised + [ScoreUpdated(score), ComboUpdated(combo), GotGrade(grade)];
      outcome := Pass;
    }
  }
}
