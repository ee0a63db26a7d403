/**
 The calculator object: it holds the rolls recorded so far, `Roll` appends
 one, and `Score` runs the ten-frame walk over them without changing them.
 */
module Game {
  import Scoring

  class BowlingGame {
    /** Rolls in the order they were recorded. */
    var rolls: seq<int>

    /** A new game has no rolls. */
    constructor()
      ensures rolls == []
    {
      rolls := [];
    }

    /** Records `pins` after the rolls already recorded; nothing is validated. */
    method Roll(pins: int)
      modifies this
      ensures |rolls| == |old(rolls)| + 1
      ensures rolls[..|old(rolls)|] == old(rolls)
      ensures rolls[|rolls| - 1] == pins
    {
      rolls := rolls + [pins];
    }

    /** Score of the ten frames over the recorded rolls. */
    method Score() returns (score: int)
      requires Scoring.GameInBounds(rolls)
      ensures score == Scoring.Score(rolls)
    {
      score := Scoring.Walk(rolls);
    }
  }

  /** Scoring does not change the game, so asking twice without a roll in
      between gives the same answer. */
  method ScoreTwice(game: BowlingGame) returns (first: int, second: int)
    requires Scoring.GameInBounds(game.rolls)
    ensures first == second
  {
    first := game.Score();
    second := game.Score();
  }
}
