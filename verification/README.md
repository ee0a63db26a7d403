# Ten-pin bowling score calculator, modelled in Dafny

The system is one class, `BowlingGame`: `roll(pins)` appends a knock-down
count to a list of rolls, and `score()` walks exactly ten frames over that
list with a roll cursor. A roll of 10 at the cursor is a strike, worth
10 plus the next two rolls, and the cursor moves by one. Otherwise, if the
two rolls at the cursor add up to 10, the frame is a spare, worth 10 plus
the roll after it, and the cursor moves by two. Otherwise the frame is open,
worth its two rolls, and the cursor moves by two.

Modules:

- `Scoring` (`scoring.dfy`): the rolls as `seq<int>`, the private helpers
  (`IsFrameStrike`, `IsFrameSpare`, `ScoreFrame`, `ScoreSpareFrame`,
  `ScoreStrikeFrame`), frame classification (`FrameKind`, `Classify`), the
  recursive walk `ScoreFrom(rolls, cursor, framesLeft)`, its look-ahead
  precondition `ReadsInBounds`, and `Walk`, the class's `for` loop, proved to
  compute `ScoreFrom(rolls, 0, 10)`.
- `ScoringFacts` (`scoring_facts.dfy`): classification and frame values, which
  rolls a score reads, bounds, the perfect game, and the test scenarios.
- `MissingRolls` (`missing_rolls.dfy`): the walk as PHP evaluates it when a
  look-ahead runs past the recorded rolls. A missing offset reads as `null`,
  which adds as 0 and is never `=== 10`. It is proved equal to `ScoreFrom`
  whenever every read is in range, and never to decrease when a non-negative
  roll is added.
- `Game` (`game.dfy`): the class wrapper. `Roll` appends, and `Score` runs
  `Walk` without changing the rolls.

`Score` requires `GameInBounds`: every frame's look-ahead (index `i + 2` for a
strike or a spare, `i + 1` for an open frame) must exist. PHP itself does not
stop there. It emits a warning and reads `null`. That reading is modelled
separately by `MissingRolls.PartialScore`.

Where the bowling rules as usually described and the code differ, the model follows the code:

- The rules make a roll an integer in 0..10 and a non-strike frame at
  most 10 pins. The code accepts any integer and checks nothing, so the model
  does the same. Facts that need a range (`ScoreBounds`, `PerfectGame`) state
  it as a hypothesis (`PinsInRange`).
- A score taken mid-game would naturally count only completed frames and
  not evaluate a frame whose bonus rolls are missing. The code
  evaluates all ten frames anyway, counting missing rolls as 0. This is
  `MissingRolls.PartialScore`, which includes the pins of incomplete frames.
- Later revisions of the repository replace the walk with a plain sum of the
  rolls. The code modelled here is the frame walk.

## Model

| member | source | states |
|---|---|---|
| Scoring.Walk | src/BowlingGame.php:24-42 | The ten-iteration loop with the strike branch first (cursor +1) and then the spare and open branches (cursor +2). It returns exactly the recursive frame-walk score, given that every look-ahead is in range. |
| Game.BowlingGame.Score | src/BowlingGame.php:24-42 | `score()` returns the ten-frame score of the recorded rolls, and it has no `modifies` clause, so it leaves the rolls unchanged. |
| Game.BowlingGame.Roll | src/BowlingGame.php:16-19 | `roll(p)` grows the rolls by exactly one, keeps the earlier rolls unchanged, and puts `p` last. |
| Game.ScoreTwice | src/BowlingGame.php:24-42 | Two calls to `score()` with no `roll` in between return the same value. |
| ScoringFacts.SpareExactly | src/BowlingGame.php:29-33 | A frame is a strike iff its first roll is 10. It is a spare iff its first roll is not 10 and the two rolls add up to 10. It is open iff neither holds. |
| ScoringFacts.SpareAfterGutter | src/BowlingGame.php:79-82 | `0, 10` is a spare. `10, 0` is a strike, because the strike test comes first. |
| ScoringFacts.FrameValueByKind | src/BowlingGame.php:28-72 | A strike is worth `10 + r[i+1] + r[i+2]`, a spare `10 + r[i+2]`, and an open frame `r[i] + r[i+1]`. The next cursor is `i+1` after a 10 and `i+2` otherwise. |
| ScoringFacts.FrameValueBounds | src/BowlingGame.php:49-72 | With rolls in 0..10, a frame is worth 0..30. Only a strike followed by two tens is worth 30. |
| ScoringFacts.LeastRollsRead | src/BowlingGame.php:28-39 | Scoring `k` frames from cursor `c` needs a roll at index `c + k`, because every frame advances at least one roll and reads one past its cursor. |
| ScoringFacts.GameNeedsElevenRolls | src/BowlingGame.php:28-39 | A game whose every look-ahead is in range has at least 11 rolls. |
| ScoringFacts.ExtendKeepsScore | src/BowlingGame.php:49-72 | Appending any rolls after a range that was enough to score `k` frames keeps those frames in range and keeps their points unchanged. |
| ScoringFacts.RollAfterCompleteGame | src/BowlingGame.php:16-19 | Once the game can be scored, another `roll` does not change the score. |
| ScoringFacts.TruncateKeepsScore | src/BowlingGame.php:49-72 | `k` frames from cursor `c` read no index at or past `c + 2k + 1`. Cutting the rolls there keeps the frames in range and keeps their points unchanged. |
| ScoringFacts.ScoreReadsFirstTwentyOneRolls | src/BowlingGame.php:28-39 | A game's score depends only on its first 21 rolls. |
| ScoringFacts.NonNegativeScore | src/BowlingGame.php:26-41 | Non-negative rolls give a non-negative score for any cursor and frame count. |
| ScoringFacts.ScoreBounds | src/BowlingGame.php:26-41 | With rolls in 0..10, `k` frames are worth between 0 and `30k`. |
| ScoringFacts.GameScoreBounds | src/BowlingGame.php:24-42 | With rolls in 0..10, a game scores between 0 and 300. |
| ScoringFacts.StrikeRunScores | src/BowlingGame.php:29-31 | `k + 2` tens from the cursor make `k` strike frames that are in range and worth `30k`. |
| ScoringFacts.FullMarksNeedStrikes | src/BowlingGame.php:28-39 | With rolls in 0..10, `k` frames worth `30k` can only come from `k + 2` tens starting at the cursor. |
| ScoringFacts.PerfectGame | src/BowlingGame.php:24-42 | With rolls in 0..10, a game scores 300 if and only if its first twelve rolls are tens. |
| ScoringFacts.GutterRunScoresZero | src/BowlingGame.php:35-37 | `2k` zeros from the cursor make `k` open frames that are in range and worth 0. |
| ScoringFacts.AllGutters | tests/BowlingGameTest.php:10-17 | Twenty gutter balls score 0. |
| ScoringFacts.OnePin | tests/BowlingGameTest.php:22-30 | One pin and then nineteen zeros score 1. |
| ScoringFacts.OneSpare | src/BowlingGame.php:32-34 | `6, 4, 4` and then seventeen zeros score 18. |
| ScoringFacts.OneStrike | src/BowlingGame.php:29-31 | `10, 6, 2` and then sixteen zeros score 26. |
| ScoringFacts.TwelveStrikes | src/BowlingGame.php:29-31 | Twelve tens score 300. |
| MissingRolls.PartialAgreesInBounds | src/BowlingGame.php:49-72 | When every look-ahead is in range, the walk that reads missing rolls as 0 gives the same points as the in-range walk. |
| MissingRolls.PartialScoreOfCompleteGame | src/BowlingGame.php:24-42 | For a game that can be scored, the null-as-zero score equals the score. |
| MissingRolls.PastEndScoresZero | src/BowlingGame.php:49-52 | Frames whose cursor is past the last roll add nothing. |
| MissingRolls.PartialNonNegative | src/BowlingGame.php:26-41 | Non-negative rolls give a non-negative null-as-zero score. |
| MissingRolls.RollAtAfterAppend | src/BowlingGame.php:16-19 | Appending a roll leaves every earlier read unchanged, makes the new index read the new roll, and never lowers any read. |
| MissingRolls.AppendNeverLowers | src/BowlingGame.php:28-39 | Appending a non-negative roll to non-negative rolls never lowers the points of `k` frames from any cursor, even when it turns a frame into a spare or a strike. |
| MissingRolls.PartialScoreMonotone | src/BowlingGame.php:24-42 | The score taken mid-game never decreases as non-negative rolls are recorded. |

## Left out

- Scoring.Score: requires every look-ahead to be in range (`GameInBounds`). PHP instead warns about an undefined array key and continues with `null`. That continuation is modelled by `MissingRolls.PartialScore`, but the warning is not.
- PHP's 64-bit integer overflow to float is not modelled. Rolls and scores are unbounded integers, and no realistic game comes near the limit.
- PHP's coercion of non-integer arguments to `roll(int $pins)` is not modelled. The model takes integers only.
- The PHPUnit harness (`createGame`, `rollMany`) is not modelled. Its two scenarios are stated as lemmas (`AllGutters`, `OnePin`).
- Input validation (a pins range check, an incomplete-game error) is not modelled, because the code has none.
- Multi-player games, persistence and concurrent access are not modelled, because the code has none.
