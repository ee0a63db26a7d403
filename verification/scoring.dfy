/**
 Pure scoring logic of the ten-pin bowling calculator: the per-frame helpers
 (strike and spare tests, the three frame values) and the walk over exactly
 ten frames with a roll cursor.

 Rolls are unbounded integers. The calculator never validates them, so no
 predicate here restricts their range; the facts that need a range say so.
 */
module Scoring {

  /** Frames in one game. */
  const Frames: nat := 10

  /** Pins standing at the start of a frame. */
  const Pins: int := 10

  /** How the frame walk classifies the frame starting at a cursor. */
  datatype FrameKind = Strike | Spare | Open

  /** Every roll is at least 0. */
  predicate NonNegative(rolls: seq<int>) {
    forall j :: 0 <= j < |rolls| ==> rolls[j] >= 0
  }

  /** Every roll knocks down between 0 and 10 pins. */
  predicate PinsInRange(rolls: seq<int>) {
    forall j :: 0 <= j < |rolls| ==> 0 <= rolls[j] <= Pins
  }

  /** `n` copies of the roll `pins`. */
  function Repeat(pins: int, n: nat): (r: seq<int>)
    ensures |r| == n
    ensures forall j :: 0 <= j < n ==> r[j] == pins
  {
    if n == 0 then [] else Repeat(pins, n - 1) + [pins]
  }

  // ---------------------------------------------------------------------
  // The frame helpers
  // ---------------------------------------------------------------------

  /** All ten pins fall on the roll at the cursor. */
  predicate IsFrameStrike(rolls: seq<int>, i: nat)
    requires i < |rolls|
  {
    rolls[i] == Pins
  }

  /** Pins of the two rolls at the cursor: the value of an open frame. */
  function ScoreFrame(rolls: seq<int>, i: nat): int
    requires i + 1 < |rolls|
  {
    rolls[i] + rolls[i + 1]
  }

  /** The two rolls at the cursor add up to ten pins. */
  predicate IsFrameSpare(rolls: seq<int>, i: nat)
    requires i + 1 < |rolls|
  {
    ScoreFrame(rolls, i) == Pins
  }

  /** A spare is worth ten plus the roll after the frame. */
  function ScoreSpareFrame(rolls: seq<int>, i: nat): int
    requires i + 2 < |rolls|
  {
    Pins + rolls[i + 2]
  }

  /** A strike is worth ten plus the next two rolls. */
  function ScoreStrikeFrame(rolls: seq<int>, i: nat): int
    requires i + 2 < |rolls|
  {
    Pins + rolls[i + 1] + rolls[i + 2]
  }

  // ---------------------------------------------------------------------
  // One frame
  // ---------------------------------------------------------------------

  /** The rolls the strike test and, failing it, the spare test read exist. */
  predicate CanClassify(rolls: seq<int>, i: nat) {
    i < |rolls| && (rolls[i] != Pins ==> i + 1 < |rolls|)
  }

  /** The strike test runs first; only a non-strike is tested for a spare. */
  function Classify(rolls: seq<int>, i: nat): FrameKind
    requires CanClassify(rolls, i)
  {
    if IsFrameStrike(rolls, i) then Strike
    else if IsFrameSpare(rolls, i) then Spare
    else Open
  }

  /** How far the cursor moves past a frame of this kind. */
  function Stride(kind: FrameKind): nat {
    if kind == Strike then 1 else 2
  }

  /** Every roll the frame at cursor `i` reads exists: its look-ahead
      reaches `i + 2` for a strike or a spare and `i + 1` for an open frame. */
  predicate FrameInBounds(rolls: seq<int>, i: nat) {
    CanClassify(rolls, i) && (Classify(rolls, i) != Open ==> i + 2 < |rolls|)
  }

  /** Points the frame at cursor `i` adds to the score. */
  function FrameValue(rolls: seq<int>, i: nat): int
    requires FrameInBounds(rolls, i)
  {
    match Classify(rolls, i)
    case Strike => ScoreStrikeFrame(rolls, i)
    case Spare => ScoreSpareFrame(rolls, i)
    case Open => ScoreFrame(rolls, i)
  }

  /** Cursor of the frame after the one at `i`. */
  function NextCursor(rolls: seq<int>, i: nat): nat
    requires CanClassify(rolls, i)
  {
    i + Stride(Classify(rolls, i))
  }

  // ---------------------------------------------------------------------
  // The ten-frame walk
  // ---------------------------------------------------------------------

  /** Each of the next `framesLeft` frames, starting at `cursor`, reads
      only rolls that exist. */
  predicate ReadsInBounds(rolls: seq<int>, cursor: nat, framesLeft: nat)
    decreases framesLeft
  {
    framesLeft == 0
    || (FrameInBounds(rolls, cursor)
        && ReadsInBounds(rolls, NextCursor(rolls, cursor), framesLeft - 1))
  }

  /** Scoring a whole game reads only rolls that exist. */
  predicate GameInBounds(rolls: seq<int>) {
    ReadsInBounds(rolls, 0, Frames)
  }

  /** Points of the next `framesLeft` frames, the first starting at `cursor`. */
  function ScoreFrom(rolls: seq<int>, cursor: nat, framesLeft: nat): int
    requires ReadsInBounds(rolls, cursor, framesLeft)
    decreases framesLeft
  {
    if framesLeft == 0 then 0
    else FrameValue(rolls, cursor) + ScoreFrom(rolls, NextCursor(rolls, cursor), framesLeft - 1)
  }

  /** Score of a game: ten frames from the first roll. */
  function Score(rolls: seq<int>): int
    requires GameInBounds(rolls)
  {
    ScoreFrom(rolls, 0, Frames)
  }

  /** The calculator's loop: a running total and a roll cursor over exactly
      ten frames, the strike branch before the spare branch. */
  method Walk(rolls: seq<int>) returns (score: int)
    requires GameInBounds(rolls)
    ensures score == Score(rolls)
  {
    score := 0;
    var frameIndex: nat := 0;
    var i: nat := 0;
    while frameIndex < Frames
      invariant frameIndex <= Frames
      invariant ReadsInBounds(rolls, i, Frames - frameIndex)
      invariant score + ScoreFrom(rolls, i, Frames - frameIndex) == Score(rolls)
    {
      if IsFrameStrike(rolls, i) {
        score := score + ScoreStrikeFrame(rolls, i);
        i := i + 1;
      } else if IsFrameSpare(rolls, i) {
        score := score + ScoreSpareFrame(rolls, i);
        i := i + 2;
      } else {
        score := score + ScoreFrame(rolls, i);
        i := i + 2;
      }
      frameIndex := frameIndex + 1;
    }
  }
}
