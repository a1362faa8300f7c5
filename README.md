# Number guessing game — a Dafny model

This project models the core of `case4/case.py`, a console game in which the
player guesses a secret number in `[min_number, max_number]` within
`max_attempts` attempts. Statistics are kept across sessions in
`game_stats.json`. Two cores are modelled.

- **`GameStats`** (module `Stats`):
  - the four counters `games_played`, `games_won`, `total_attempts`,
    `best_score`, with the unset `float('inf')` best score as `None`;
  - `update_stats` as a pure `Update` on a `Record` and as the method
    `GameStats.UpdateStats`, which changes the fields in place and writes them
    through to the file;
  - the win rate and average of `display_stats` as exact `real`s, with the
    division guard;
  - the key/value defaulting of `load_stats` as `Decode` on a document whose
    keys may be missing, and the object `save_stats` writes as `Encode`.
- **`NumberGuessingGame`** (modules `Round`, `Session`, `Game`):
  - `validate_input` (with `int()` as an optional sign and ASCII digits, in
    module `Text`) and `get_hint`;
  - `play_round` as a state machine that reads one token per step
    (`Round.Step`, `Round.Run`, `Round.Play`);
  - the session loop of `play`: announce, play a round, call `update_stats`,
    then ask whether to play again (`Session.Run`);
  - the replay answer classifier.
  - The class `Game.NumberGuessingGame` holds the game's fields. Its methods
    `PlayRound`, `AskReplay` and `Play` follow the source's loops step by step.
    Each is proved to compute exactly what the functional description says:
    the final `attempts` field, the tokens read, the events reported, and the
    statistics and file written.

The secret that `random.randint` draws is a parameter: `secret` for a round,
and `draw(k)` for round `k` of a session. The lines `input()` returns are a
scripted sequence of already-stripped tokens. Running out of them stands for
`input()` raising `EOFError`. What the game prints is an abstract event trace.

**Aborted rounds.** Typing `exit` makes `play_round` return `False`
(case4/case.py:204-206). `play` then calls `update_stats(False, max_attempts)`
unconditionally (case4/case.py:266) and asks whether to play again. So an
aborted round is recorded as a lost game with `max_attempts` attempts, and
the replay prompt still follows. `Session.ExitIsRecordedAsLoss` proves this
for the input `exit`, `n`, and `Session.PlayIsRecorded` for every round.

`guesses_history` is a local of `play_round` (case4/case.py:188), and a local
`history` in `PlayRound`.

## Model

| member | source | states |
|---|---|---|
| Stats.Update | case4/case.py:56-69 | games played +1 and total attempts + `attempts` always; games won +1 exactly on a win; on a loss the best score is unchanged; on a win it is set, at most `attempts`, never worse than before, and equal to the old value or to `attempts` (so it is `min(old, attempts)` with unset as +infinity) |
| Stats.DefaultValid | case4/case.py:11-21 | the initial zero record satisfies the invariant `Valid` |
| Stats.UpdatePreservesValid | case4/case.py:59-68 | one update with a non-negative attempt count keeps `0 <= games_won <= games_played`, the counters non-negative, and a best score that is set exactly when a game was won, lying in `[0, total_attempts]` |
| Stats.ReplayCons | case4/case.py:56-69 | applying one outcome and then a sequence is the same as replaying the sequence with that outcome first |
| Stats.ReplaySummary | case4/case.py:56-69 | after any sequence of updates: games counted by length, wins counted, attempts summed, best score never worse; every won round's attempts bound the best score from above, and a best score that changed is the attempts of some won round |
| Stats.ReplayFromDefault | case4/case.py:11-21 | starting from zero, the counters are the length, the won count and the attempt sum, and no best score is set exactly when no round was won |
| Stats.BestNeverIncreases | case4/case.py:67-68 | over any sequence of updates, the best score after a longer prefix is never worse than after a shorter one |
| Stats.ReplayPreservesValid | case4/case.py:59-68 | `Valid` holds after any sequence of updates with non-negative attempt counts |
| Stats.SumAttemptsBounds | case4/case.py:60 | attempt counts all in `[lo, hi]` add up to between `n * lo` and `n * hi` |
| Stats.WinRate | case4/case.py:75 | exactly 0 when no game was played; otherwise the rate times games played is games won times 100 |
| Stats.AverageAttempts | case4/case.py:76 | exactly 0 when no game was played; otherwise the average times games played is the total attempts |
| Stats.WinRateInRange | case4/case.py:75 | the win rate of a valid record lies between 0 and 100 |
| Stats.AverageInRange | case4/case.py:76 | when every recorded round took between `lo` and `hi` attempts, the displayed average lies between `lo` and `hi` |
| Stats.QuotientBounds | case4/case.py:76 | a total between `n * lo` and `n * hi` divided by `n > 0` lies between `lo` and `hi` |
| Stats.Decode | case4/case.py:34-37 | each counter key that is present reads as its value and each missing one as 0; the best score is the stored number when one is stored, and unset exactly when its key is missing or holds `Infinity` |
| Stats.DecodeEncode | case4/case.py:34-48 | loading what `save_stats` wrote gives back the same record, the unset best score included |
| Stats.EncodeDecode | case4/case.py:34-48 | saving what was loaded rewrites the same document exactly when it held all four keys |
| Stats.Load | case4/case.py:26-39 | a missing or unreadable file leaves the current values; a readable one gives its `Decode`, so an empty object gives the default record |
| Stats.Encode | case4/case.py:44-49 | all four keys, the unset best score written as `Infinity`; with `Stats.DecodeEncode` and `Stats.EncodeDecode` it is the inverse of `Decode` on complete documents |
| Stats.Display | case4/case.py:72-88 | the figures `display_stats` prints; `Stats.DisplayFigures` bounds them |
| Stats.DisplayFigures | case4/case.py:72-88 | for a valid record: win rate between 0 and 100, non-negative average, the best score line shown exactly once a game was won, and all zeros before the first game |
| Stats.GameStats.constructor | case4/case.py:11-23 | the counters start from zero and are then loaded from the file |
| Stats.GameStats.LoadStats | case4/case.py:26-39 | the new counters are `Load` of the old ones and the file; the file is unchanged |
| Stats.GameStats.SaveStats | case4/case.py:41-51 | the file afterwards holds the encoding of the current counters |
| Stats.GameStats.UpdateStats | case4/case.py:56-70 | the new counters are `Update` of the old ones with `(won, attempts)`, and the file holds their encoding |
| Text.Lower | case4/case.py:204 | `str.lower()` on the letters the game compares; `Text.LowerIdempotent` and `Session.ClassifyIgnoresCase` carry its properties |
| Text.ParseInt | case4/case.py:170 | `int(token)` on a stripped token, `None` for `ValueError`; `Text.ParseDecimal` and `Text.ExitIsNotANumber` carry its properties |
| Text.LowerIdempotent | case4/case.py:204 | lower-casing twice is the same as once |
| Text.DigitsRoundTrip | case4/case.py:170 | the decimal digits of `n` are digit characters and read back as `n` |
| Text.ParseDecimal | case4/case.py:170 | `int(str(n)) == n` for every integer `n` |
| Text.ExitIsNotANumber | case4/case.py:204-208 | a token that reads as `exit` never parses as an integer, so checking for `exit` first hides no guess |
| Round.ValidateInput | case4/case.py:160-182 | `validate_input`; `Round.ValidateInputCases` states its cases exactly |
| Round.ValidateInputCases | case4/case.py:169-180 | accepted exactly when the token parses to a number in `[min_number, max_number]`, and then as that number; not an integer, below the minimum and above the maximum are distinct failures, each exactly in its case, with the minimum checked first |
| Round.Hint | case4/case.py:140-158 | `get_hint`; `Round.HintBands`, `Round.HintBoundaries` and `Round.HintMonotone` carry its properties |
| Round.HintBands | case4/case.py:149-158 | hot exactly for distance <= 5, warm for 6..10, cool for 11..20, cold above 20 |
| Round.HintBoundaries | case4/case.py:151-158 | distances 5 → hot, 6 and 10 → warm, 11 and 20 → cool, 21 → cold, each on both sides of the secret |
| Round.HintMonotone | case4/case.py:149-158 | a nearer guess never gets a colder tier, and the mirrored guess on the other side gets the same tier |
| Round.Advance | case4/case.py:192-197 | the head of the attempt loop: the next attempt is counted, or the round is lost and the secret revealed; `Round.MissesLose` and `Round.PlayEnds` carry its properties |
| Round.Feedback | case4/case.py:229-246 | the messages after a wrong guess; `Round.HintOnlyFromThirdMiss` states when the hint is among them |
| Round.Step | case4/case.py:200-246 | one token typed while a guess is awaited; `Round.StepInv`, `Round.RejectedTokenKeepsState`, `Round.ExitAbortsRound` and `Round.HintOnlyFromThirdMiss` carry its properties |
| Round.Play | case4/case.py:184-251 | a whole round on scripted input; `Round.PlayEnds` and `Round.PlayHistoryInRange` carry its properties, and `Game.NumberGuessingGame.PlayRound` is proved to compute it |
| Round.Run | case4/case.py:192-251 | a run reads no more tokens than there are; a run still waiting for a guess has read them all; a finished round reads nothing more |
| Round.StartInv | case4/case.py:187-193 | the first attempt satisfies the round invariant |
| Round.StepInv | case4/case.py:200-246 | each token keeps the round invariant: guesses in range, attempts counted against the history, the secret only as the final winning guess |
| Round.RunInv | case4/case.py:192-251 | the round invariant holds after any run |
| Round.RunHistory | case4/case.py:200-217 | the history after a run is the earlier history followed by the accepted guesses among the tokens read, in order, each once |
| Round.PlayEnds | case4/case.py:184-251 | how a round ends: won with `attempts == len(history) <= max_attempts`, the last guess the secret and no earlier one; lost with `attempts == max_attempts` guesses (0 if the limit is not positive), none of them the secret; aborted or out of input with the pending attempt counted; history = accepted guesses read |
| Round.PlayHistoryInRange | case4/case.py:208-217 | every guess in the history lies in `[min_number, max_number]` |
| Round.RejectedTokenKeepsState | case4/case.py:208-214 | a rejected token leaves attempts and history unchanged and only reports its error |
| Round.ExitAbortsRound | case4/case.py:204-206 | `exit` in any letter case aborts the round with the attempt already counted and nothing added to the history |
| Round.HintOnlyFromThirdMiss | case4/case.py:236-238 | a proximity hint is reported for a token exactly when it is a wrong valid guess on the third attempt or later, and it is that guess's tier |
| Round.MissesLose | case4/case.py:192-251 | missing on every remaining attempt loses the round with `attempts == max_attempts`, after exactly the remaining attempts |
| Round.ScenarioWinAfterRejections | case4/case.py:169-227 | `200`, `-5`, `abc`, `50` against 50 in `[1, 100]`: three distinct rejections, then won on attempt 1 |
| Round.ScenarioTenMisses | case4/case.py:192-251 | ten guesses of 1 against 7: lost after 10 attempts and 10 tokens |
| Session.ClassifyReplay | case4/case.py:271-286 | the replay answer after `.lower()`; `Session.ClassifyReplayCases`, `Session.ReplayAnswersUnderstood` and `Session.ClassifyIgnoresCase` carry its properties |
| Session.ClassifyReplayCases | case4/case.py:271-286 | yes exactly when the lower-cased answer is in the yes-list, no exactly when it is in the no-list, ask again otherwise; the lists are disjoint |
| Session.ReplayAnswersUnderstood | case4/case.py:271-286 | `YES`, `Да` mean yes; `НЕТ`, `N` mean no; `maybe` and the empty answer ask again |
| Session.ClassifyIgnoresCase | case4/case.py:271 | the answer does not change when the token is lower-cased first |
| Session.AskReplay | case4/case.py:270-286 | the prompt reads no more input than there is; an answer reads at least one token; no answer means all input was read |
| Session.AskReplayAnswers | case4/case.py:270-286 | the prompt ends without an answer exactly when every remaining token is unclear; otherwise the last token read decides and every earlier one was unclear |
| Session.Recorded | case4/case.py:263-266 | the arguments `play` passes to `update_stats`; `Session.PlayIsRecorded` and `Session.ExitIsRecordedAsLoss` state what they are for the game's rounds |
| Session.PlayIsRecorded | case4/case.py:204-266 | with a positive attempt limit, a finished round is recorded as a win in 1 to `max_attempts` attempts or a loss with `max_attempts`; a won or lost round with its own attempt count; a round left with `exit` as a loss with `max_attempts`, at least the attempts it used |
| Session.RoundEngineFits | case4/case.py:184-251 | the game's rounds read no more input than there is, and each finished round is recorded as a win in 1 to `max_attempts` attempts or a loss with `max_attempts` |
| Session.PlaysLikeRounds | case4/case.py:263 | a round player that plays the game's rounds reads no more input than there is |
| Session.Run | case4/case.py:253-286 | rounds `k`, `k + 1`, ... of a session; `Session.RunRecordsEveryRound` and `Session.RunOutcomesInRange` carry its properties |
| Session.Session | case4/case.py:253-286 | a whole session; `Session.SessionKeepsStatsValid` carries its properties, and `Game.NumberGuessingGame.Play` is proved to compute it |
| Session.RunRecordsEveryRound | case4/case.py:255-286 | the statistics at the end of a session are the start's, updated with each recorded outcome in turn |
| Session.RunOutcomesInRange | case4/case.py:263-266 | every outcome a session records is a win in 1 to `max_attempts` attempts, or a loss with `max_attempts` |
| Session.SessionKeepsStatsValid | case4/case.py:255-286 | over a whole session: one game counted per recorded round, the statistics stay valid, the best score never gets worse, and a best score the session sets lies in 1 to `max_attempts` |
| Session.GameKeepsStatsValid | case4/case.py:253-286 | for a session of the game's own rounds with a positive attempt limit: the final statistics are the start's updated with each recorded outcome, one game counted per round, the statistics stay valid, the best score never gets worse, and a best score the session sets lies in 1 to `max_attempts` |
| Session.ExitIsRecordedAsLoss | case4/case.py:204-206 | `exit` then `n`: the aborted round is recorded as one lost game with `max_attempts` attempts, and the session ends on the replay answer |
| Game.NumberGuessingGame.constructor | case4/case.py:103-115 | the range and the attempt limit are stored (1, 100 and 10 by default), no secret and zero attempts, and fresh statistics loaded from the file |
| Game.NumberGuessingGame.PlayRound | case4/case.py:184-251 | the `attempts` field, the tokens read, the events reported and the result (won, lost or aborted, or end of input) are exactly those of `Round.Play`; the secret is stored |
| Game.NumberGuessingGame.ReadGuess | case4/case.py:200-214 | the inner input loop moves the round on exactly as `Round.Run` does: to its end at `exit` or at the end of input, won on the secret, on to the next attempt with the feedback on a wrong guess |
| Game.NumberGuessingGame.PlayEngineRound | case4/case.py:263 | `PlayRound`, described as the round the session loop plays |
| Game.NumberGuessingGame.AskReplay | case4/case.py:270-286 | the replay loop reads exactly the tokens `Session.AskReplay` reads and gives its answer and re-prompts |
| Game.NumberGuessingGame.SessionRound | case4/case.py:255-286 | one pass of the loop of `play` moves the session on exactly as `Session.Run` does, and the file holds the latest statistics once a round was recorded |
| Game.NumberGuessingGame.Play | case4/case.py:253-286 | the final statistics, how the session ended, the events reported, the last round's `attempts` and secret, and the file written are exactly those of `Session.Session` |

## Left out

- File I/O: `os.path.exists`, `open`, `json.load` and `json.dump`. The file
  is a `Stats.Document` value: `None` is a missing file, or one that cannot be
  read or decoded. A document's values are taken to be integers (or
  `Infinity` for the best score), not arbitrary JSON.
- The `SystemExit` that `save_stats` raises when writing fails
  (case4/case.py:52-54): writing always succeeds in the model.
- `random.randint` in `generate_number` (case4/case.py:123): the secret is a
  parameter that the session draws as `draw(k)`, required to lie in
  `[min_number, max_number]`.
- `input()`, `print`, `print_colored`, ANSI colours, the welcome text and the
  exact message texts. Input is a scripted token sequence. Output is an event
  trace: `Round.Event` and `Session.SessionEvent`, with `Stats.Display` giving
  the shown figures.
- `.strip()` on input: every token is taken as already stripped.
- Float formatting (`{:.1f}`): the win rate and average are exact reals.
- Python `int()` corner cases: underscores, non-ASCII digits, and the generic
  `except Exception` branch of `validate_input` (case4/case.py:181-182). The
  grammar is an optional `+` or `-` followed by ASCII digits.
- `str.lower()` beyond ASCII `A`-`Z` and the Cyrillic capitals
  `А`-`Я` and `Ё`, the letters of `exit` and of the replay answers.
- `main()` and its mapping of `EOFError`, `KeyboardInterrupt` and other
  exceptions to a message and exit (case4/case.py:289-308). End of input is
  modelled as ending the session (`Session.Interrupted`).
- The session loop is stated for any round player (`Session.Engine`)
  that reads no more input than there is. The game's own rounds
  (`Session.RoundEngine`) are one such player.
