/**
 The frame walk as PHP evaluates it when a look-ahead runs past the recorded
 rolls: a missing array offset reads as null, null adds as 0, and null is
 not identical to 10. This is the score of a game in progress; the lemmas
 show it agrees with `Scoring.ScoreFrom` whenever every read is in range
 and never decreases as non-negative rolls are added.
 */
module MissingRolls {
  import opened Scoring

  /** The roll at `i`, or 0 when no such roll was recorded. */
  function RollAt(rolls: seq<int>, i: nat): int {
    if i < |rolls| then rolls[i] else 0
  }

  /** Points of the next `framesLeft` frames from `cursor`, missing rolls
      counting 0. */
  function PartialFrom(rolls: seq<int>, cursor: nat, framesLeft: nat): int
    decreases framesLeft
  {
    if framesLeft == 0 then 0
    else if RollAt(rolls, cursor) == Pins then
      Pins + RollAt(rolls, cursor + 1) + RollAt(rolls, cursor + 2)
      + PartialFrom(rolls, cursor + 1, framesLeft - 1)
    else if RollAt(rolls, cursor) + RollAt(rolls, cursor + 1) == Pins then
      Pins + RollAt(rolls, cursor + 2) + PartialFrom(rolls, cursor + 2, framesLeft - 1)
    else
      RollAt(rolls, cursor) + RollAt(rolls, cursor + 1) + PartialFrom(rolls, cursor + 2, framesLeft - 1)
  }

  /** Score of the rolls recorded so far, missing rolls counting 0. */
  function PartialScore(rolls: seq<int>): int {
    PartialFrom(rolls, 0, Frames)
  }

  /** When every read is in range, reading missing rolls as 0 never comes
      into play and the two walks agree. */
  lemma {:induction false} PartialAgreesInBounds(rolls: seq<int>, cursor: nat, k: nat)
    requires ReadsInBounds(rolls, cursor, k)
    ensures PartialFrom(rolls, cursor, k) == ScoreFrom(rolls, cursor, k)
    decreases k
  {
    if k > 0 {
      PartialAgreesInBounds(rolls, NextCursor(rolls, cursor), k - 1);
    }
  }

  /** A complete game scores the same under both readings. */
  lemma PartialScoreOfCompleteGame(rolls: seq<int>)
    requires GameInBounds(rolls)
    ensures PartialScore(rolls) == Score(rolls)
  {
    PartialAgreesInBounds(rolls, 0, Frames);
  }

  /** Frames that start past the last roll are worth nothing. */
  lemma {:induction false} PastEndScoresZero(rolls: seq<int>, cursor: nat, k: nat)
    requires cursor >= |rolls|
    ensures PartialFrom(rolls, cursor, k) == 0
    decreases k
  {
    if k > 0 {
      PastEndScoresZero(rolls, cursor + 2, k - 1);
    }
  }

  /** Non-negative rolls give a non-negative partial score. */
  lemma {:induction false} PartialNonNegative(rolls: seq<int>, cursor: nat, k: nat)
    requires NonNegative(rolls)
    ensures PartialFrom(rolls, cursor, k) >= 0
    decreases k
  {
    if k > 0 {
      PartialNonNegative(rolls, cursor + 1, k - 1);
      PartialNonNegative(rolls, cursor + 2, k - 1);
    }
  }

  /** Appending a roll leaves earlier reads alone and never lowers a read. */
  lemma RollAtAfterAppend(rolls: seq<int>, pins: int, i: nat)
    requires pins >= 0
    ensures i < |rolls| ==> RollAt(rolls + [pins], i) == RollAt(rolls, i)
    ensures i == |rolls| ==> RollAt(rolls + [pins], i) == pins
    ensures RollAt(rolls + [pins], i) >= RollAt(rolls, i)
  {
  }

  /** Recording one more non-negative roll never lowers the points of `k`
      frames from `cursor`. */
  lemma {:induction false} AppendNeverLowers(rolls: seq<int>, pins: int, cursor: nat, k: nat)
    requires NonNegative(rolls)
    requires pins >= 0
    ensures PartialFrom(rolls + [pins], cursor, k) >= PartialFrom(rolls, cursor, k)
    decreases k
  {
    var longer := rolls + [pins];
    var n := |rolls|;
    assert NonNegative(longer);
    if k > 0 {
      RollAtAfterAppend(rolls, pins, cursor);
      RollAtAfterAppend(rolls, pins, cursor + 1);
      RollAtAfterAppend(rolls, pins, cursor + 2);
      if cursor < n {
        // The strike test reads a recorded roll and cannot change.
        if RollAt(rolls, cursor) == Pins {
          AppendNeverLowers(rolls, pins, cursor + 1, k - 1);
        } else {
          // A spare test can change only when its second roll is the new
          // one, and then the frame was open and worth `rolls[cursor]`.
          AppendNeverLowers(rolls, pins, cursor + 2, k - 1);
          if cursor + 1 == n {
            PastEndScoresZero(rolls, cursor + 2, k - 1);
            PartialNonNegative(longer, cursor + 2, k - 1);
          }
        }
      } else {
        PastEndScoresZero(rolls, cursor, k);
        PartialNonNegative(longer, cursor, k);
      }
    }
  }

  /** Recording a non-negative roll never lowers the partial score. */
  lemma PartialScoreMonotone(rolls: seq<int>, pins: int)
    requires NonNegative(rolls)
    requires pins >= 0
    ensures PartialScore(rolls + [pins]) >= PartialScore(rolls)
  {
    AppendNeverLowers(rolls, pins, 0, Frames);
  }
}
