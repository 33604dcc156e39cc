// util.GameScoreCalculator and util.GameScore: the score a hit earns from the
// user's horizontal position, and the score accumulator.

module Scoring {
  import opened Actors

  /** The largest bonus a hit can earn on top of its base point. */
  const MaxAddition := 5

  /**
   * `(int) Math.max(0, Math.min(5, normalizedX * 5))` with
   * `normalizedX = (x - upperBound) / (lowerBound - upperBound)`.
   * Equal bounds divide by zero in double arithmetic: a positive numerator
   * gives +Infinity, which the clamp turns into 5; a negative one gives
   * -Infinity and a zero one NaN, which both end up as 0.
   */
  function Addition(x: real, lowerBound: real, upperBound: real): int {
    if lowerBound == upperBound then
      (if x > upperBound then MaxAddition else 0)
    else
      var scaled := (x - upperBound) / (lowerBound - upperBound) * MaxAddition as real;
      if scaled <= 0.0 then 0
      else if scaled >= MaxAddition as real then MaxAddition
      else scaled.Floor
  }

  /** The score of one hit: one point plus a bonus of 0 to 5 for the position. */
  function ScoreByPosition(x: real, lowerBound: real, upperBound: real): (score: int)
    ensures 1 <= score <= 1 + MaxAddition
  {
    1 + Addition(x, lowerBound, upperBound)
  }

  /** calculateUserScoreByPosition(userPlane): the user's translateX between its X bounds. */
  function CalculateUserScoreByPosition(user: Actor): (score: int)
    reads user`translateX
    ensures 1 <= score <= 6
  {
    ScoreByPosition(user.translateX, UserXLowerBound, UserXUpperBound)
  }

  /** Flooring keeps the order of reals. */
  lemma FloorMonotone(a: real, b: real)
    requires a <= b
    ensures a.Floor <= b.Floor
  {
    assert a.Floor as real <= a <= b < b.Floor as real + 1.0;
  }

  /** Dividing by a positive number keeps the order of reals. */
  lemma DivideMonotone(a: real, b: real, d: real)
    requires a <= b && d > 0.0
    ensures a / d <= b / d
  {
    assert b / d - a / d == (b - a) / d;
  }

  /**
   * With the upper bound below the lower one, a position further right never
   * scores less.
   */
  lemma ScoreMonotone(x: real, y: real, lowerBound: real, upperBound: real)
    requires upperBound < lowerBound && x <= y
    ensures ScoreByPosition(x, lowerBound, upperBound) <= ScoreByPosition(y, lowerBound, upperBound)
  {
    var d := lowerBound - upperBound;
    DivideMonotone(x - upperBound, y - upperBound, d);
    var sx := (x - upperBound) / d * MaxAddition as real;
    var sy := (y - upperBound) / d * MaxAddition as real;
    assert sx <= sy;
    if 0.0 < sx && sy < MaxAddition as real {
      FloorMonotone(sx, sy);
    }
  }

  /**
   * A position at or left of the upper bound earns only the base point; one
   * at or right of the lower bound earns the full six.
   */
  lemma ScoreAtBounds(x: real, lowerBound: real, upperBound: real)
    requires upperBound < lowerBound
    ensures x <= upperBound ==> ScoreByPosition(x, lowerBound, upperBound) == 1
    ensures x >= lowerBound ==> ScoreByPosition(x, lowerBound, upperBound) == 1 + MaxAddition
  {
    var d := lowerBound - upperBound;
    if x <= upperBound {
      DivideMonotone(x - upperBound, 0.0, d);
    }
    if x >= lowerBound {
      DivideMonotone(d, x - upperBound, d);
      assert d / d == 1.0;
    }
  }

  /** With the user's bounds (600, 0), translateX 500 scores more than translateX 0. */
  lemma FurtherRightScoresMore()
    ensures ScoreByPosition(500.0, 600.0, 0.0) > ScoreByPosition(0.0, 600.0, 0.0)
  {
    var scaled := (500.0 - 0.0) / (600.0 - 0.0) * 5.0;
    assert 4.0 <= scaled < 5.0;
    assert scaled.Floor == 4;
  }

  /** The sum of a sequence of increments. */
  function Sum(xs: seq<int>): int {
    if |xs| == 0 then 0 else Sum(xs[..|xs| - 1]) + xs[|xs| - 1]
  }

  /**
   * util.GameScore: a score with the last increment added to it. The source
   * keeps a second copy, misc.GameScore, modelled as MiscScoring.GameScore.
   */
  class GameScore {
    var score: int
    var lastIncrement: int
    // What the score started from at construction or at the last reset, and
    // every increment added since.
    ghost var base: int
    ghost var increments: seq<int>

    /** The score is its base plus every increment since, the last of which is remembered. */
    ghost predicate Valid()
      reads this
    {
      score == base + Sum(increments) &&
      (|increments| > 0 ==> lastIncrement == increments[|increments| - 1])
    }

    constructor (initialScore: int)
      ensures score == initialScore && lastIncrement == 0
      ensures base == initialScore && increments == [] && Valid()
    {
      score := initialScore;
      lastIncrement := 0;
      base := initialScore;
      increments := [];
    }

    function GetScore(): int
      reads this`score
    {
      score
    }

    function GetLastIncrement(): int
      reads this`lastIncrement
    {
      lastIncrement
    }

    /** resetScore(): the score goes to 0; lastIncrement is kept. */
    method ResetScore()
      requires Valid()
      modifies `score, `base, `increments
      ensures score == 0 && lastIncrement == old(lastIncrement)
      ensures base == 0 && increments == [] && Valid()
    {
      score := 0;
      base := 0;
      increments := [];
    }

    /** increaseScoreBy(increment) */
    method IncreaseScoreBy(increment: int)
      requires Valid()
      modifies `score, `lastIncrement, `increments
      ensures score == old(score) + increment && lastIncrement == increment
      ensures increments == old(increments) + [increment] && Valid()
    {
      lastIncrement := increment;
      score := score + increment;
      increments := increments + [increment];
      assert increments[..|increments| - 1] == old(increments);
    }
  }
}
