// misc.GameScoreCalculator, misc.GameScore and misc.KillCounter: the older
// scoring helpers, which add a bounds check to the calculator and keep a
// capped kill count with its on-screen text.

module MiscScoring {
  import opened Wrappers
  import opened Capped
  import opened Text
  import Scoring
  import opened Actors

  /**
   * misc.calculateUserScoreByPosition: refuses bounds whose upper bound is not
   * below the lower one, and otherwise scores like the util calculator.
   */
  function ScoreByPosition(x: real, lowerBound: real, upperBound: real): (r: Result<int>)
    ensures r.Failure? <==> upperBound >= lowerBound
    ensures r.Success? ==> r.value == Scoring.ScoreByPosition(x, lowerBound, upperBound)
    ensures r.Success? ==> 1 <= r.value <= 6
  {
    if upperBound >= lowerBound then
      Failure("Invalid bounds: upperBound must be less than lowerBound.")
    else
      var normalizedX := (x - upperBound) / (lowerBound - upperBound);
      var clamped := if normalizedX * 5.0 < 0.0 then 0.0
                     else if normalizedX * 5.0 > 5.0 then 5.0
                     else normalizedX * 5.0;
      Success(1 + clamped.Floor)
  }

  /** The calculator applied to the user plane, whose bounds are (600, 0). */
  function CalculateUserScoreByPosition(user: Actor): (r: Result<int>)
    reads user`translateX
    ensures r == Success(Scoring.CalculateUserScoreByPosition(user))
  {
    ScoreByPosition(user.translateX, UserXLowerBound, UserXUpperBound)
  }

  /** On valid bounds the result never falls as the position moves right. */
  lemma ScoreMonotone(x: real, y: real, lowerBound: real, upperBound: real)
    requires upperBound < lowerBound && x <= y
    ensures ScoreByPosition(x, lowerBound, upperBound).value <= ScoreByPosition(y, lowerBound, upperBound).value
  {
    Scoring.ScoreMonotone(x, y, lowerBound, upperBound);
  }

  /**
   * misc.GameScore: the same accumulator as util.GameScore (Scoring.GameScore);
   * the source keeps both copies, so both are modelled.
   */
  class GameScore {
    var score: int
    var lastIncrement: int
    ghost var base: int
    ghost var increments: seq<int>

    ghost predicate Valid()
      reads this
    {
      score == base + Scoring.Sum(increments) &&
      (|increments| > 0 ==> lastIncrement == increments[|increments| - 1])
    }

    constructor (initialScore: int)
      ensures score == initialScore && lastIncrement == 0
      ensures base == initialScore && increments == [] && Valid()
    {
      score := initialScore;
      lastIncrement := 0;
      base := initialScore;
      increments := [];
    }

    function GetScore(): int
      reads this`score
    {
      score
    }

    function GetLastIncrement(): int
      reads this`lastIncrement
    {
      lastIncrement
    }

    method ResetScore()
      requires Valid()
      modifies `score, `base, `increments
      ensures score == 0 && lastIncrement == old(lastIncrement)
      ensures base == 0 && increments == [] && Valid()
    {
      score := 0;
      base := 0;
      increments := [];
    }

    method IncreaseScoreBy(increment: int)
      requires Valid()
      modifies `score, `lastIncrement, `increments
      ensures score == old(score) + increment && lastIncrement == increment
      ensures increments == old(increments) + [increment] && Valid()
    {
      lastIncrement := increment;
      score := score + increment;
      increments := increments + [increment];
      assert increments[..|increments| - 1] == old(increments);
    }
  }

  /** formatKillCounterText() */
  function KillCounterText(currentKills: int, killsToAdvance: int): (text: string)
    ensures |text| > 10 && text[..7] == "Kills: "
  {
    "Kills: " + IntToString(currentKills) + " / " + IntToString(killsToAdvance)
  }

  /** Both numbers can be read back from the kill counter's text. */
  lemma KillCounterTextShowsBoth(currentKills: int, killsToAdvance: int)
    ensures var text := KillCounterText(currentKills, killsToAdvance);
      var shown := IntToString(currentKills);
      text[7..7 + |shown|] == shown && ParseInt(shown) == currentKills &&
      text[7 + |shown|..7 + |shown| + 3] == " / " &&
      ParseInt(text[7 + |shown| + 3..]) == killsToAdvance
  {
    var shown := IntToString(currentKills);
    PartsOfFour("Kills: ", shown, " / ", IntToString(killsToAdvance));
    IntToStringRoundTrip(currentKills);
    IntToStringRoundTrip(killsToAdvance);
  }

  /** Each part of a four-part concatenation sits at its offset. */
  lemma PartsOfFour(a: string, b: string, c: string, d: string)
    ensures var s := a + b + c + d;
      s[|a|..|a| + |b|] == b && s[|a| + |b|..|a| + |b| + |c|] == c && s[|a| + |b| + |c|..] == d
  {
    var s := a + b + c + d;
    assert s == (a + b) + (c + d);
    assert (a + b)[|a|..] == b;
    assert (c + d)[..|c|] == c && (c + d)[|c|..] == d;
  }

  /** misc.KillCounter: kills counted up to the level's target, and their text. */
  class KillCounter {
    var currentKills: int
    const killsToAdvance: int
    // The text of the Text node the counter shows.
    var text: string

    constructor (killsToAdvance: int)
      ensures currentKills == 0 && this.killsToAdvance == killsToAdvance
      ensures text == KillCounterText(0, killsToAdvance)
    {
      currentKills := 0;
      this.killsToAdvance := killsToAdvance;
      text := KillCounterText(0, killsToAdvance);
    }

    /** incrementKillCount(): one kill more while below the target; the text follows. */
    method IncrementKillCount()
      modifies `currentKills, `text
      ensures currentKills == CappedIncrements(old(currentKills), killsToAdvance, 1)
      ensures old(currentKills) < killsToAdvance ==> text == KillCounterText(currentKills, killsToAdvance)
      ensures old(currentKills) >= killsToAdvance ==> text == old(text)
    {
      if currentKills < killsToAdvance {
        currentKills := currentKills + 1;
        UpdateKillCounterText();
      }
    }

    method ResetKillCount()
      modifies `currentKills, `text
      ensures currentKills == 0 && text == KillCounterText(0, killsToAdvance)
    {
      currentKills := 0;
      UpdateKillCounterText();
    }

    /** setCurrentKills(n): any value, the target included, and the text is left as it was. */
    method SetCurrentKills(kills: int) returns (self: KillCounter)
      modifies `currentKills
      ensures currentKills == kills && self == this
    {
      currentKills := kills;
      self := this;
    }

    method UpdateKillCounterText()
      modifies `text
      ensures text == KillCounterText(currentKills, killsToAdvance)
    {
      text := KillCounterText(currentKills, killsToAdvance);
    }
  }

  /**
   * Increments alone never take the count past the target: from a count at
   * or below it, any number of them leaves the count between where it was and
   * the target.
   */
  lemma IncrementsStayWithinTarget(currentKills: int, killsToAdvance: int, n: nat)
    requires currentKills <= killsToAdvance
    ensures currentKills <= CappedIncrements(currentKills, killsToAdvance, n) <= killsToAdvance
    ensures n >= killsToAdvance - currentKills ==> CappedIncrements(currentKills, killsToAdvance, n) == killsToAdvance
  {
    CappedIncrementsClosedForm(currentKills, killsToAdvance, n);
  }
}
