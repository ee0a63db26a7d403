/**
 Properties of the frame walk: how frames are classified and valued, which
 rolls a score reads, its bounds, the perfect game, and the scenarios the
 calculator's tests describe.
 */
module ScoringFacts {
  import opened Scoring

  /** Most a single frame can be worth when every roll is in 0..10. */
  const MaxFrame: int := 30

  /** Most a ten-frame game can be worth when every roll is in 0..10. */
  const PerfectScore: int := 300

  // ---------------------------------------------------------------------
  // Classifying and valuing one frame
  // ---------------------------------------------------------------------

  /** A frame is a spare exactly when its first roll is not a strike and its
      two rolls add up to ten; so a first roll of 10 always opens a strike,
      even when the roll after it is 0. */
  lemma SpareExactly(rolls: seq<int>, i: nat)
    requires CanClassify(rolls, i)
    ensures Classify(rolls, i) == Strike <==> rolls[i] == Pins
    ensures Classify(rolls, i) == Spare <==> rolls[i] != Pins && rolls[i] + rolls[i + 1] == Pins
    ensures Classify(rolls, i) == Open <==> rolls[i] != Pins && rolls[i] + rolls[i + 1] != Pins
  {
  }

  /** A gutter ball followed by ten pins is a spare, and ten followed by a
      gutter ball is a strike, not a spare. */
  lemma SpareAfterGutter(x: int)
    ensures Classify([0, Pins, x], 0) == Spare
    ensures Classify([Pins, 0, x], 0) == Strike
  {
  }

  /** The value of a frame, by kind, in terms of the rolls it reads. */
  lemma FrameValueByKind(rolls: seq<int>, i: nat)
    requires FrameInBounds(rolls, i)
    ensures Classify(rolls, i) == Strike ==> FrameValue(rolls, i) == Pins + rolls[i + 1] + rolls[i + 2]
    ensures Classify(rolls, i) == Spare ==> FrameValue(rolls, i) == Pins + rolls[i + 2]
    ensures Classify(rolls, i) == Open ==> FrameValue(rolls, i) == rolls[i] + rolls[i + 1]
    ensures NextCursor(rolls, i) == if rolls[i] == Pins then i + 1 else i + 2
  {
  }

  /** With every roll in 0..10 a frame is worth 0..30, and only a strike
      followed by two more strikes reaches 30. */
  lemma FrameValueBounds(rolls: seq<int>, i: nat)
    requires PinsInRange(rolls)
    requires FrameInBounds(rolls, i)
    ensures 0 <= FrameValue(rolls, i) <= MaxFrame
    ensures FrameValue(rolls, i) == MaxFrame ==>
              Classify(rolls, i) == Strike && rolls[i + 1] == Pins && rolls[i + 2] == Pins
  {
  }

  // ---------------------------------------------------------------------
  // Which rolls a score reads
  // ---------------------------------------------------------------------

  /** `k` frames from `cursor` read at least `cursor + k + 1` rolls: every
      frame advances the cursor by at least one and reads one roll past it. */
  lemma {:induction false} LeastRollsRead(rolls: seq<int>, cursor: nat, k: nat)
    requires k >= 1
    requires ReadsInBounds(rolls, cursor, k)
    ensures cursor + k < |rolls|
    decreases k
  {
    if k > 1 {
      LeastRollsRead(rolls, NextCursor(rolls, cursor), k - 1);
    }
  }

  /** A game can be scored only once at least eleven rolls exist. */
  lemma GameNeedsElevenRolls(rolls: seq<int>)
    requires GameInBounds(rolls)
    ensures |rolls| >= Frames + 1
  {
    LeastRollsRead(rolls, 0, Frames);
  }

  /** Rolls appended after a range that was enough to score `k` frames change
      neither that fact nor the points. */
  lemma {:induction false} ExtendKeepsScore(a: seq<int>, b: seq<int>, cursor: nat, k: nat)
    requires ReadsInBounds(a, cursor, k)
    ensures ReadsInBounds(a + b, cursor, k)
    ensures ScoreFrom(a + b, cursor, k) == ScoreFrom(a, cursor, k)
    decreases k
  {
    if k > 0 {
      assert forall j :: 0 <= j < |a| ==> (a + b)[j] == a[j];
      assert FrameInBounds(a + b, cursor);
      assert NextCursor(a + b, cursor) == NextCursor(a, cursor);
      ExtendKeepsScore(a, b, NextCursor(a, cursor), k - 1);
    }
  }

  /** Once the recorded rolls are enough to score a game, recording another
      roll leaves the score unchanged. */
  lemma RollAfterCompleteGame(rolls: seq<int>, pins: int)
    requires GameInBounds(rolls)
    ensures GameInBounds(rolls + [pins])
    ensures Score(rolls + [pins]) == Score(rolls)
  {
    ExtendKeepsScore(rolls, [pins], 0, Frames);
  }

  /** `k` frames from `cursor` read no roll at or beyond `cursor + 2k + 1`. */
  lemma {:induction false} TruncateKeepsScore(a: seq<int>, n: nat, cursor: nat, k: nat)
    requires ReadsInBounds(a, cursor, k)
    requires cursor + 2 * k < n <= |a|
    ensures ReadsInBounds(a[..n], cursor, k)
    ensures ScoreFrom(a[..n], cursor, k) == ScoreFrom(a, cursor, k)
    decreases k
  {
    if k > 0 {
      assert forall j :: 0 <= j < n ==> a[..n][j] == a[j];
      assert FrameInBounds(a[..n], cursor);
      assert NextCursor(a[..n], cursor) == NextCursor(a, cursor);
      TruncateKeepsScore(a, n, NextCursor(a, cursor), k - 1);
    }
  }

  /** A game's score reads at most its first 21 rolls (indices 0..20): ten
      frames of two rolls and one bonus roll in the tenth. */
  lemma ScoreReadsFirstTwentyOneRolls(rolls: seq<int>)
    requires GameInBounds(rolls)
    requires |rolls| > 2 * Frames + 1
    ensures GameInBounds(rolls[..2 * Frames + 1])
    ensures Score(rolls[..2 * Frames + 1]) == Score(rolls)
  {
    TruncateKeepsScore(rolls, 2 * Frames + 1, 0, Frames);
  }

  // ---------------------------------------------------------------------
  // Bounds
  // ---------------------------------------------------------------------

  /** Non-negative rolls give a non-negative score: every frame adds a sum
      of non-negative terms. */
  lemma {:induction false} NonNegativeScore(rolls: seq<int>, cursor: nat, k: nat)
    requires NonNegative(rolls)
    requires ReadsInBounds(rolls, cursor, k)
    ensures ScoreFrom(rolls, cursor, k) >= 0
    decreases k
  {
    if k > 0 {
      NonNegativeScore(rolls, NextCursor(rolls, cursor), k - 1);
    }
  }

  /** With every roll in 0..10, `k` frames are worth 0..30k. */
  lemma {:induction false} ScoreBounds(rolls: seq<int>, cursor: nat, k: nat)
    requires PinsInRange(rolls)
    requires ReadsInBounds(rolls, cursor, k)
    ensures 0 <= ScoreFrom(rolls, cursor, k) <= MaxFrame * k
    decreases k
  {
    if k > 0 {
      FrameValueBounds(rolls, cursor);
      ScoreBounds(rolls, NextCursor(rolls, cursor), k - 1);
    }
  }

  /** With every roll in 0..10, a game scores between 0 and 300. */
  lemma GameScoreBounds(rolls: seq<int>)
    requires PinsInRange(rolls)
    requires GameInBounds(rolls)
    ensures 0 <= Score(rolls) <= PerfectScore
  {
    ScoreBounds(rolls, 0, Frames);
  }

  // ---------------------------------------------------------------------
  // The perfect game
  // ---------------------------------------------------------------------

  /** `k` frames over a run of `k + 2` tens from `cursor` are all strikes
      worth 30 each. */
  lemma {:induction false} StrikeRunScores(rolls: seq<int>, cursor: nat, k: nat)
    requires cursor + k + 2 <= |rolls|
    requires forall j :: cursor <= j < cursor + k + 2 ==> rolls[j] == Pins
    ensures ReadsInBounds(rolls, cursor, k)
    ensures ScoreFrom(rolls, cursor, k) == MaxFrame * k
    decreases k
  {
    if k > 0 {
      assert Classify(rolls, cursor) == Strike;
      StrikeRunScores(rolls, cursor + 1, k - 1);
    }
  }

  /** With every roll in 0..10, `k >= 1` frames worth 30 each can only come
      from a run of `k + 2` tens. */
  lemma {:induction false} FullMarksNeedStrikes(rolls: seq<int>, cursor: nat, k: nat)
    requires k >= 1
    requires PinsInRange(rolls)
    requires ReadsInBounds(rolls, cursor, k)
    requires ScoreFrom(rolls, cursor, k) == MaxFrame * k
    ensures cursor + k + 2 <= |rolls|
    ensures forall j :: cursor <= j < cursor + k + 2 ==> rolls[j] == Pins
    decreases k
  {
    var next := NextCursor(rolls, cursor);
    FrameValueBounds(rolls, cursor);
    ScoreBounds(rolls, next, k - 1);
    assert FrameValue(rolls, cursor) == MaxFrame;
    assert next == cursor + 1;
    if k > 1 {
      FullMarksNeedStrikes(rolls, next, k - 1);
    }
  }

  /** With every roll in 0..10, a game scores 300 exactly when its first
      twelve rolls are strikes. */
  lemma PerfectGame(rolls: seq<int>)
    requires PinsInRange(rolls)
    ensures (GameInBounds(rolls) && Score(rolls) == PerfectScore)
        <==> (|rolls| >= Frames + 2 && forall j :: 0 <= j < Frames + 2 ==> rolls[j] == Pins)
  {
    if |rolls| >= Frames + 2 && forall j :: 0 <= j < Frames + 2 ==> rolls[j] == Pins {
      StrikeRunScores(rolls, 0, Frames);
    }
    if GameInBounds(rolls) && Score(rolls) == PerfectScore {
      FullMarksNeedStrikes(rolls, 0, Frames);
    }
  }

  // ---------------------------------------------------------------------
  // Scenarios
  // ---------------------------------------------------------------------

  /** `k` frames over `2k` gutter balls from `cursor` are open and worth 0. */
  lemma {:induction false} GutterRunScoresZero(rolls: seq<int>, cursor: nat, k: nat)
    requires cursor + 2 * k <= |rolls|
    requires forall j :: cursor <= j < cursor + 2 * k ==> rolls[j] == 0
    ensures ReadsInBounds(rolls, cursor, k)
    ensures ScoreFrom(rolls, cursor, k) == 0
    decreases k
  {
    if k > 0 {
      assert Classify(rolls, cursor) == Open;
      GutterRunScoresZero(rolls, cursor + 2, k - 1);
    }
  }

  /** Twenty gutter balls score 0. */
  lemma AllGutters()
    ensures GameInBounds(Repeat(0, 20))
    ensures Score(Repeat(0, 20)) == 0
  {
    GutterRunScoresZero(Repeat(0, 20), 0, Frames);
  }

  /** One pin followed by nineteen gutter balls scores 1. */
  lemma OnePin()
    ensures GameInBounds([1] + Repeat(0, 19))
    ensures Score([1] + Repeat(0, 19)) == 1
  {
    var rolls := [1] + Repeat(0, 19);
    GutterRunScoresZero(rolls, 2, Frames - 1);
    assert Classify(rolls, 0) == Open;
  }

  /** A spare (6, 4), then 4, then seventeen gutter balls scores 18. */
  lemma OneSpare()
    ensures GameInBounds([6, 4, 4] + Repeat(0, 17))
    ensures Score([6, 4, 4] + Repeat(0, 17)) == 18
  {
    var rolls := [6, 4, 4] + Repeat(0, 17);
    GutterRunScoresZero(rolls, 4, Frames - 2);
    assert Classify(rolls, 0) == Spare;
    assert Classify(rolls, 2) == Open;
  }

  /** A strike, then 6 and 2, then sixteen gutter balls scores 26. */
  lemma OneStrike()
    ensures GameInBounds([10, 6, 2] + Repeat(0, 16))
    ensures Score([10, 6, 2] + Repeat(0, 16)) == 26
  {
    var rolls := [10, 6, 2] + Repeat(0, 16);
    GutterRunScoresZero(rolls, 3, Frames - 2);
    assert Classify(rolls, 0) == Strike;
    assert Classify(rolls, 1) == Open;
  }

  /** Twelve strikes score 300. */
  lemma TwelveStrikes()
    ensures GameInBounds(Repeat(Pins, 12))
    ensures Score(Repeat(Pins, 12)) == PerfectScore
  {
    StrikeRunScores(Repeat(Pins, 12), 0, Frames);
  }
}
