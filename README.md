# Simon game engine in Dafny

This project models the game engine inside the `SimonGamePro` class of
`simon.js`, a browser Simon game. The player repeats a colour sequence that
grows by one colour each round. Scoring uses streaks, combos and an accuracy
window. There are six power-ups with cooldowns, game modes (classic,
speedrun, survival, multiplayer, an AI opponent), and a table of
achievements that are each earned once. A recorder saves the moves the
player makes. The model leaves out the DOM, audio, animation and storage
around the engine.

The model has three layers:

- **Pure rule modules.**
  - `Rules`: colours, the difficulty bonus table, the 0/1 accuracy window of 100 entries, the points formula, high score and the average reaction time.
  - `Powerups`: the six records, arming on use and the one-second cooldown tick.
  - `Achievements`: the 25-rule table and the award loop.
  - `Voice`: the first-match voice classifier.
  - `Patterns`: the saved-pattern list.
  - `Display`: player rank, the `m:ss` speedrun clock, the progress bar and theme cycling.
- **`Session`.** The whole game state as one datatype, with one transition function per event. An event is a user action or a timer callback.
- **`Game.SimonGamePro`.** A class whose fields are the game's fields. Its methods update them in place, statement by statement as the JavaScript does, including the `while` loop of `skipTurn` and the `forEach` of `checkAchievements`.
  - Each method is proved to move the object from `old(State())` to the state the matching `Session` function gives.
  - Each event method (a user action or a timer callback) keeps the object invariant `Valid()`. It says that counters are non-negative and every power-up record is well formed, so a power-up is available exactly when its cooldown is 0. The accuracy window holds at most 100 bits, `accuracy` is 100 times their mean, and no achievement is recorded twice.

`Properties` proves facts about whole event sequences: the worked scoring
examples, three survival misses, shield absorption, late clicks, a repeated
power-up use, skips, speedrun and the AI.

Inputs that come from outside the engine are parameters:

- `Math.random()` is a colour index `pick < 4`, or two rolls `errorRoll` and `choiceRoll` (with `0 <= choiceRoll < 1`) for the AI.
- `Date.now()` is `now`, and a click's reaction time is `reactionTime`.
- The answers to `prompt` and `confirm` are `answer` and `confirmed`.

A timer callback is a method of its own. These are `SequenceShown`, `CooldownTick`, `SpeedrunTick`, `ShieldExpires`, `DoublePointsExpire` and `AiTurn`, and the delayed `nextSequence` is `NextSequence`. A method that schedules a callback returns a flag saying so.

Quirks of the code that the model keeps:

- `combo` is zeroed before the shield check, so even an absorbed mismatch resets it (`simon.js:586` vs `589`).
- A shield leaves the wrong colour in `userPattern`, so the next click is checked at the next index.
- `streak` counts correct steps, not completed rounds.
- Survival ends the game on the third mismatch from three lives, not the second.
- The speedrun tick ignores the pause flag and on timeout sets only `gameOver`. `started` stays true.
- `startGame` has no phase guard.
- `resetGame` keeps `combo`, `lives`, the reaction times, the accuracy window and the power-ups, so the combo carries over into a new game.
- A click in the delay between a finished round and the next is compared past the end of the pattern and is a mismatch. So `|userPattern| <= |gamePattern|` is not an invariant.
- A skip fills in the missing colours and checks only the last index. A wrong colour kept after a shield absorbed it is never re-checked.
- Stale timers are not cancelled.

## Model

| member | source | states |
|---|---|---|
| Rules.OtherColors | simon.js:500 | the colours an erring AI picks from are exactly the colours other than the target, each once, in table order (the `filter` of `Without`); three when a target exists and all four otherwise |
| Rules.Bonus | simon.js:44-49 | the `bonus` column of the difficulty table: 1, 2, 3 and 5 |
| Rules.JsRound | simon.js:561 | `Math.round` lands within half a unit of its argument, halves going up |
| Rules.Record | simon.js:537-540 | pushing a bit and shifting past 100 keeps the window at most 100 long, ends with the new bit, and keeps it a 0/1 window |
| Rules.RecordKeepsLastHundred | simon.js:537-540 | the window is always the last 100 entries of the whole hit/miss history: oldest evicted first |
| Rules.SumOfBits | simon.js:541 | the sum of a 0/1 window lies between 0 and its length and equals the length exactly when every entry is a hit |
| Rules.AccuracyIsPercentage | simon.js:541 | `accuracy` over a non-empty window lies in 0..100 and is 100 exactly when every step in it was a hit |
| Rules.RoundPoints | simon.js:543-561 | a completed round earns 10, 15 or 20 points per bonus unit by combo tier (below 5, 5 to 9, 10 and up), doubled under double points |
| Rules.RoundingIsExact | simon.js:545-561 | the final `Math.round` never changes the product 10 × bonus × combo factor × double factor, which is always whole |
| Rules.AverageReaction | simon.js:624-625 | the game-over average reaction time is 0 with no samples, else the mean rounded to the nearest integer |
| Rules.HighScoreAfter | simon.js:1056-1061 | the stored best becomes the greater of score and best, and is one of the two |
| Powerups.MaxCooldown | simon.js:58-63 | the `maxCooldown` column of the power-up table: slow 5, skip 3, hint 4, shield 8, double 10, reveal 12 |
| Powerups.Cost | simon.js:58-63 | the `cost` column of the power-up table: slow 100, skip 150, hint 50, shield 200, double 300, reveal 250 |
| Powerups.Fresh | simon.js:58-64 | a new power-up record is well formed and available |
| Powerups.InitialTable | simon.js:58-64 | the constructor's table has all six kinds, well formed and available |
| Powerups.Arm | simon.js:686-687 | a used power-up is no longer ready, with cost and maximum cooldown unchanged |
| Powerups.ArmKeepsWellFormed | simon.js:686-687 | arming keeps the record well formed and sets the cooldown to the kind's maximum |
| Powerups.Tick | simon.js:782-792 | one interval run lowers the cooldown by exactly 1 and makes the power-up available when it reaches 0 |
| Powerups.TickKeepsWellFormed | simon.js:782-792 | a tick keeps `available` exactly when the cooldown is 0, and the cooldown within 0..maximum |
| Powerups.TicksCount | simon.js:779-793 | after n ticks the cooldown is n lower, the record is well formed, and it is available exactly when the whole cooldown has elapsed |
| Powerups.CooldownRestores | simon.js:775-793 | a used power-up is back in its fresh state after exactly `maxCooldown` ticks |
| Achievements.Holds | simon.js:1123-1172 | the 25 conditions of the achievement table, each over the level, streak, score, combo, difficulty, mode, reaction times, accuracy window, AI opponent, number of saved patterns and voice flag as the source writes it; `theme_explorer` never holds |
| Achievements.Award | simon.js:1175-1180 | the `forEach` loop: each rule in table order is pushed when it holds and is not yet in the growing earned list |
| Achievements.Newly | simon.js:1175-1180 | the reference filter: the table rules that hold and were not earned beforehand |
| Achievements.TablePositions | simon.js:1121-1172 | the rule table has 25 entries, each at its own fixed position |
| Achievements.TableIsDistinct | simon.js:1121-1172 | every rule occurs in the table exactly once |
| Achievements.NewlyProperties | simon.js:1175-1180 | the reference list of new ids holds exactly the table rules that hold and are not yet earned, without repeats |
| Achievements.AwardAppendsNewly | simon.js:1175-1180 | testing each id against the growing earned list, as the loop does, appends exactly the new ids in table order |
| Achievements.NothingNewWhenAllEarned | simon.js:1175-1180 | when every rule that holds is already earned, nothing is added |
| Achievements.Check | simon.js:1120-1181 | the earned list after one evaluation is the old list followed by exactly the rules that hold and were not earned, in table order, never `theme_explorer`, with no repeats |
| Achievements.NeverRefires | simon.js:1175-1180 | a later evaluation, on any state, keeps the earned prefix and adds only ids not yet earned |
| Achievements.CheckIdempotent | simon.js:1175-1180 | evaluating twice on the same state adds nothing the second time |
| Voice.FirstMatch | simon.js:224-230 | the loop over the command table from entry i: the command of the first key the text includes, or none |
| Voice.Classify | simon.js:217-230 | the command a recognised text runs: the first match from the start of the table |
| Voice.IncludesIff | simon.js:225 | `text.includes(key)` holds exactly when the key occurs at some position of the text |
| Voice.FirstMatchSpec | simon.js:224-230 | the loop from entry i finds nothing exactly when no later key occurs, and otherwise returns the command of the first key that occurs |
| Voice.ClassifyIsFirstMatch | simon.js:224-230 | the command run is the one of the first table key contained in the text, and none when no key is contained |
| Voice.TableOrderWins | simon.js:106-114 | table order wins over position in the text: any text containing "start" runs start |
| Voice.NoKeyNoCommand | simon.js:224-230 | a text in which no key can begin runs nothing |
| Patterns.Save | simon.js:832-841 | saving appends one entry with the name, the recorded moves, time, difficulty and mode; earlier entries stay in place |
| Patterns.SpliceStart | simon.js:940 | `splice` starts at the index clamped to the length, counting a negative index from the end |
| Patterns.RemoveAt | simon.js:940 | `splice(index, 1)` removes exactly the entry at the start position when there is one and otherwise changes nothing |
| Patterns.Delete | simon.js:937-945 | an unconfirmed delete changes nothing; a confirmed one with an index in range removes exactly that entry, shifting the later ones; one past the end changes nothing |
| Patterns.DeleteUndoesSave | simon.js:937-941 | deleting the pattern just saved restores the list as it was |
| Patterns.Stamp | simon.js:1659 | a shared pattern's moves are its colours in order, each stamped with the load time and no reaction time |
| Patterns.SharedEntry | simon.js:1655-1662 | the entry built from shared data: suffixed name, the colours stamped with the load time, normal difficulty when none is given, classic mode, marked shared |
| Patterns.LoadShared | simon.js:1651-1665 | the shared pattern goes to the front with the " (Shared)" suffix, classic mode and normal difficulty when none is given; the others move back one place |
| Patterns.SharedRoundTrip | simon.js:1655-1665 | a loaded pattern keeps the shared colours in order, and deleting it from the front restores the list |
| Display.PlayerRank | simon.js:999-1008 | the rank is above step i of the ladder exactly when the high score reaches the i-th threshold (100, 500, 1000, 2000, 3000, 5000) |
| Display.RankCountsThresholds | simon.js:999-1008 | the rank's tier is the number of thresholds the high score has reached |
| Display.RankMonotone | simon.js:999-1008 | a higher score never gives a lower rank |
| Display.NatToString | simon.js:1019 | `toString` of a natural is a non-empty string of digits, one digit long exactly below 10 |
| Display.PadStart2 | simon.js:1019 | `padStart(2, '0')` makes a string at least two long, leaving longer ones unchanged in length |
| Display.PadStart2Pads | simon.js:1019 | padding keeps the string at the end and puts only '0' before it |
| Display.FormatTime | simon.js:1016-1019 | the speedrun clock text: `Math.floor(t / 60)`, a colon and `t % 60` (sign of the dividend) padded to two characters |
| Display.FormatTimeRoundTrip | simon.js:1016-1019 | for a non-negative time the text is the minutes `t / 60` without leading zeros, a colon, and exactly two digits whose value is the seconds `t % 60`, below 60; it reads back to the same number of seconds |
| Display.NegativeClock | simon.js:1016-1019 | a time of -1, reachable when two speedrun intervals run at once, shows as "-1:-1", which does not read back as `m:ss` |
| Display.Progress | simon.js:1031 | the bar width, `Math.min((level / 20) * 100, 100)` |
| Display.ProgressIsFivePerLevel | simon.js:1031 | the progress bar is 5 % per level and full from level 20 on |
| Display.IndexOf | simon.js:1356 | `indexOf` returns -1 or a valid position |
| Display.IndexOfIsFirst | simon.js:1356 | the index found is the first occurrence, and -1 exactly when the theme is absent |
| Display.NextTheme | simon.js:1356-1357 | the toggle always lands on one of the three themes |
| Display.PrevTheme | simon.js:1547-1548 | the left swipe always lands on one of the three themes |
| Display.StepsFrom | simon.js:1356-1357 | from theme k the toggle goes to theme k+1 and the left swipe to theme k-1, modulo 3 |
| Display.ThemeStepsInvert | simon.js:1547-1548 | the left swipe undoes the toggle and the toggle undoes the left swipe |
| Display.ThemeStepMoves | simon.js:1356-1357 | each step changes the theme |
| Display.ThemeTable | simon.js:1356-1357 | the toggle goes dark, light, neon, dark, and the left swipe the other way |
| Display.ThemeCycleOfThree | simon.js:1356-1357 | three steps in either direction return to the start |
| Display.UnknownTheme | simon.js:1356-1357 | from an unknown stored theme the toggle gives "dark" and the left swipe "light" |
| Session.Initial | simon.js:6-140 | the constructor's state is valid: not started, empty pattern, level and score 0, three lives, 60 seconds, accuracy 100, every power-up ready |
| Session.AccuracyInRange | simon.js:541 | between events the accuracy is a percentage, and it is 100 exactly when the window records no miss |
| Session.Reset | simon.js:385-398 | a reset zeroes level, score and streak, empties both patterns and clears the four phase flags; combo, lives, reaction times, analytics and power-ups are kept; validity is preserved |
| Session.Pause | simon.js:374-383 | pausing flips `isPaused` and changes nothing else |
| Session.PauseTwice | simon.js:374-383 | pausing twice gives back the same state |
| Session.NextSequence | simon.js:400-424 | unless paused or over, the input is cleared, level goes up by 1, `level * bonus` points are added and exactly one colour is appended with the earlier ones unchanged; paused or over, nothing changes |
| Session.SequenceShown | simon.js:422 | the end of playback clears `showingSequence` and nothing else |
| Session.ModeSetup | simon.js:303-319 | survival sets 3 lives, speedrun 60 seconds, multiplayer activates player 1, AI enables the opponent at score 0 and level 0; nothing else changes |
| Session.Prepared | simon.js:297-319 | the part of `startGame` before `nextSequence`: reset, started, one more game and session, the mode set up; only those fields change |
| Session.Start | simon.js:292-323 | after a start the game is started and showing, at level 1 with `bonus` points, streak 0, a one-colour pattern and empty input; validity is preserved |
| Session.StartSetsUpMode | simon.js:292-323 | a start counts one game and one session, applies the mode's setup, and keeps combo, power-ups and reaction times |
| Session.Recorded | simon.js:537-540 | recording a step changes only the accuracy window, by `Record` |
| Session.Tallied | simon.js:533-540 | a match adds one to streak and combo and records a hit, nothing else |
| Session.Scored | simon.js:543-561 | the round's points are added to the score and nothing else changes |
| Session.Checked | simon.js:573 | only the earned list changes, to one evaluation of the table on the current state |
| Session.CompleteRound | simon.js:543-573 | the round's points are added, then the achievements are evaluated on the new score; validity is preserved |
| Session.EndGame | simon.js:609-625 | game over, not started, streak 0, the high score updated and the average reaction time saved; lives, score, combo, pattern, power-ups and earned list unchanged |
| Session.Hit | simon.js:531-576 | a match adds one to streak and combo and records a hit; only when it completes the round are the points added and the achievements checked; patterns, phase, power-ups, flags and opponents unchanged |
| Session.HitFrame | simon.js:531-576 | a match changes only streak, combo, the accuracy window, the score and the earned list; level, lives, phase flags, clock, high score, reaction times, recorder and mode are kept |
| Session.HitKeepsValid | simon.js:531-576 | a match keeps the state valid |
| Session.Miss | simon.js:578-629 | a mismatch records a miss and zeroes combo; with a shield only the shield is spent; else in survival with a life to spare a life is lost and the input cleared; else the game ends with streak 0 and the high score updated |
| Session.Penalized | simon.js:598-625 | an unshielded mismatch costs a life and clears the input when survival has one to spare, and otherwise ends the game |
| Session.MissKeepsValid | simon.js:578-629 | a mismatch keeps the state valid |
| Session.CheckAnswer | simon.js:528-630 | checking index i is a hit when it matches and a miss otherwise (an index past the pattern never matches); pattern, power-ups and opponents unchanged; validity preserved |
| Session.Pressed | simon.js:457-470 | an accepted click appends exactly one reaction time and one colour, and one move while recording; validity preserved |
| Session.Noted | simon.js:462-468 | while recording the move is appended to the current recording; otherwise the recorder is unchanged |
| Session.Click | simon.js:454-480 | a click is ignored unless started, not over, not paused and not showing; otherwise the press is recorded and the new last index checked; validity preserved |
| Session.PowerupOutcome | simon.js:655-661 | a use goes ahead exactly when the power-up is ready, the game started and the score covers the cost |
| Session.Filled | simon.js:748-751 | the skip loop appends exactly the missing suffix of the pattern, after which the last index matches and completes the round |
| Session.SkipTurn | simon.js:746-755 | with input missing a skip is a check of the last index of the filled-in input, scoring one round at combo + 1; otherwise nothing; pattern, power-ups and flags unchanged |
| Session.SkipTurnKeepsValid | simon.js:746-755 | a skip keeps the state valid |
| Session.HintColor | simon.js:757-773 | a hint is shown exactly when input is missing, and it is the next expected colour |
| Session.Effect | simon.js:665-684 | skip completes the turn, shield and double points raise only their own flag, slow time, hint and reveal change nothing |
| Session.EffectKeepsValid | simon.js:665-684 | every effect keeps the state valid |
| Session.Activate | simon.js:665-687 | after payment the effect is applied and only the used power-up is re-armed |
| Session.ActivateKeepsValid | simon.js:665-687 | applying and re-arming keeps the state valid |
| Session.Paid | simon.js:663 | only the score changes, lowered by exactly the cost |
| Session.UsePowerup | simon.js:653-690 | a use that fails a guard changes nothing; a successful one re-arms the power-up so that it is not ready, and applies the effect to the paid state |
| Session.UsePowerupScore | simon.js:663-687 | a successful use costs exactly its price, and only a skip with input missing adds round points |
| Session.UsePowerupKeepsValid | simon.js:653-690 | a use keeps the state valid, so a power-up never drives the score negative |
| Session.CooldownTick | simon.js:782-792 | one run lowers only this power-up's cooldown by 1, making it available at 0; the other records are unchanged |
| Session.CooldownTickKeepsValid | simon.js:782-792 | a run keeps the state valid and `available` exactly when the cooldown is 0 |
| Session.ShieldExpires | simon.js:696-699 | the expiry clears only the shield flag |
| Session.DoublePointsExpire | simon.js:708-711 | the expiry clears only the double-points flag |
| Session.SpeedrunTick | simon.js:341-352 | one run takes one second off, sets game over exactly when time is up, and changes nothing else, whether or not paused |
| Session.AiMove | simon.js:488-492 | unless the AI is off or the game over, only the thinking flag is raised |
| Session.RandomIndex | simon.js:501 | `Math.floor(roll * n)` for a roll in [0, 1) is a valid index |
| Session.AiChoice | simon.js:494-503 | the AI picks the target colour exactly when there is one and it does not err |
| Session.AiTurn | simon.js:494-516 | a right choice gives the AI 10 points and one step; a wrong one sends it back to step 0; it stops thinking; nothing else changes |
| Session.SelectMode | simon.js:1260 | choosing a mode sets only `gameMode` |
| Session.SelectDifficulty | simon.js:1380 | choosing a difficulty sets only `difficulty` |
| Session.StartRecording | simon.js:800-802 | only the recorder changes: recording, with no moves yet |
| Session.SavePattern | simon.js:832-841 | only the saved list changes, by `Save` |
| Session.StopRecording | simon.js:813-830 | recording stops; the pattern is saved exactly when the prompt answer is a non-empty name |
| Session.DeletePattern | simon.js:937-945 | only the saved list changes, by `Delete` |
| Session.LoadSharedPattern | simon.js:1651-1665 | only the saved list changes, by `LoadShared` |
| Session.VoiceCommand | simon.js:217-230 | the classified command runs start, pause, reset or a click of its colour, and nothing runs without one; validity preserved |
| Game.SimonGamePro.constructor | simon.js:6-140 | the object starts in the initial state with accuracy 100, and valid |
| Game.SimonGamePro.ResetGame | simon.js:385-398 | the fields become `Session.Reset` of the old ones |
| Game.SimonGamePro.PauseGame | simon.js:374-383 | the fields become `Session.Pause` of the old ones |
| Game.SimonGamePro.NextSequence | simon.js:400-417 | the fields become `Session.NextSequence` of the old ones |
| Game.SimonGamePro.SequenceShown | simon.js:422 | input is accepted again |
| Game.SimonGamePro.InitModeFeatures | simon.js:303-319 | the mode switch gives `Session.ModeSetup` and reports whether the speedrun countdown was armed |
| Game.SimonGamePro.StartGame | simon.js:292-323 | the fields become `Session.Start` of the old ones; the speedrun countdown is armed exactly in speedrun mode |
| Game.SimonGamePro.RecordStep | simon.js:537-541 | the window gets the bit (oldest evicted past 100) and `accuracy` is recomputed from it |
| Game.SimonGamePro.CheckAchievements | simon.js:1120-1181 | the loop over the table leaves the earned list of `Achievements.Check` |
| Game.SimonGamePro.UpdateHighScore | simon.js:1056-1061 | only the high score changes, to `HighScoreAfter` |
| Game.SimonGamePro.EndGame | simon.js:609-625 | the fields become `Session.EndGame` of the old ones |
| Game.SimonGamePro.CompleteRound | simon.js:543-573 | the fields become `Session.CompleteRound` of the old ones |
| Game.SimonGamePro.CorrectStep | simon.js:531-576 | the fields become `Session.Hit`; the result says whether the round is complete |
| Game.SimonGamePro.WrongStep | simon.js:578-629 | the fields become `Session.Miss` of the old ones |
| Game.SimonGamePro.Penalize | simon.js:598-625 | the fields become `Session.Penalized` of the old ones |
| Game.SimonGamePro.LoseLife | simon.js:599-606 | one life is lost, and the input is cleared exactly when lives remain |
| Game.SimonGamePro.CheckAnswer | simon.js:528-630 | the fields become `Session.CheckAnswer`; the result says whether the next round was scheduled |
| Game.SimonGamePro.Press | simon.js:457-470 | the fields become `Session.Pressed` of the old ones |
| Game.SimonGamePro.HandleButtonClick | simon.js:454-486 | the fields become `Session.Click`; the results say whether the next round and the AI's turn were scheduled; validity kept |
| Game.SimonGamePro.SkipTurn | simon.js:746-755 | the fill-in loop and the check give `Session.SkipTurn`; the next round is due exactly when input was missing |
| Game.SimonGamePro.ShowHint | simon.js:757-773 | the hint is the next expected colour exactly when input is missing |
| Game.SimonGamePro.ActivateShield | simon.js:692-702 | only the shield flag is raised |
| Game.SimonGamePro.ActivateDoublePoints | simon.js:704-714 | only the double-points flag is raised |
| Game.SimonGamePro.ApplyEffect | simon.js:665-684 | the switch gives `Session.Effect` |
| Game.SimonGamePro.UsePowerup | simon.js:653-690 | the outcome is the guards' verdict and the fields become `Session.UsePowerup`; validity kept |
| Game.SimonGamePro.Spend | simon.js:663-688 | payment, effect and re-arming give `Session.Activate` of the paid state |
| Game.SimonGamePro.CooldownTick | simon.js:779-793 | the fields become `Session.CooldownTick`; the interval keeps running exactly while the cooldown is positive; validity kept |
| Game.SimonGamePro.ShieldExpires | simon.js:696-699 | the shield flag is cleared |
| Game.SimonGamePro.DoublePointsExpire | simon.js:708-711 | the double-points flag is cleared |
| Game.SimonGamePro.SpeedrunTick | simon.js:341-352 | the fields become `Session.SpeedrunTick`; the interval stops once time is up or the game is not started |
| Game.SimonGamePro.AiMove | simon.js:488-492 | the fields become `Session.AiMove`; the answer is scheduled exactly when the AI is on and the game not over |
| Game.SimonGamePro.AiTurn | simon.js:494-516 | the fields become `Session.AiTurn` of the old ones |
| Game.SimonGamePro.ChooseAi | simon.js:494-503 | the colour chosen is `Session.AiChoice` |
| Game.SimonGamePro.SelectMode | simon.js:1260 | only the mode changes |
| Game.SimonGamePro.SelectDifficulty | simon.js:1380 | only the difficulty changes |
| Game.SimonGamePro.StartRecording | simon.js:800-802 | the fields become `Session.StartRecording` of the old ones |
| Game.SimonGamePro.SavePattern | simon.js:832-841 | the fields become `Session.SavePattern` of the old ones |
| Game.SimonGamePro.StopRecording | simon.js:813-830 | the fields become `Session.StopRecording` of the old ones |
| Game.SimonGamePro.DeletePattern | simon.js:937-945 | the fields become `Session.DeletePattern` of the old ones |
| Game.SimonGamePro.LoadSharedPattern | simon.js:1651-1665 | the fields become `Session.LoadSharedPattern` of the old ones |
| Game.SimonGamePro.HandleVoiceCommand | simon.js:217-230 | the loop finds the command of the first contained key, and running it gives `Session.VoiceCommand`; the speedrun timer is armed exactly for a start in speedrun mode, the next round and the AI's turn are reported as for a click when the command is a colour, and nothing is scheduled otherwise |
| Properties.PointsExamples | simon.js:543-561 | bonus 2 with combo 10 and double points gives 80; the tiers give 20, 30 and 40 |
| Properties.FirstRoundOnNormal | simon.js:543-561 | a new game on normal, its colour shown and pressed: level 1, streak 1 and 2 + 20 = 22 points |
| Properties.SurvivalThirdMissEnds | simon.js:598-618 | from three lives the first two mismatches each cost a life and clear the input, the third ends the game |
| Properties.ShieldAbsorbsOne | simon.js:586-596 | a shield absorbs one mismatch, losing only the combo and keeping the wrong colour; outside survival the next mismatch ends the game |
| Properties.LateClickIsMismatch | simon.js:529 | a click once the input covers the whole pattern is always a mismatch |
| Properties.SecondUseIgnored | simon.js:655 | using a power-up again at once is ignored and changes nothing |
| Properties.SkipCompletesRound | simon.js:746-755 | a skip with input missing appends the missing colours, scores one round and completes it, whatever wrong colour was kept earlier |
| Properties.SpeedrunIgnoresPause | simon.js:341-349 | the countdown runs the same paused or not, and at the last second ends the game without clearing `started` |
| Properties.AiAdvancesIff | simon.js:505-511 | the AI advances exactly when there is a colour to match and it does not err; its score never decreases |

## Left out

- Audio synthesis, canvas and particle effects, DOM updates, CSS classes and status texts: these are presentation only.
- The animated playback of the sequence (`showSequence`, `animateButton`, `playPattern`) is not modelled. Its start and end are the `showingSequence` flag set by `NextSequence` and cleared by `SequenceShown`.
- `slowTime` is not modelled: it only scales the playback speed by 1.5 for ten seconds, as a float. `revealSequence` only animates. Both are effects that change no game state.
- Real timers and their interleavings. Each callback is one event method. Stale reversions that fire after a re-activation, or after a new game, are not modelled. Neither is a second speedrun interval left running by a quick restart, which makes the clock fall twice a second and can take it below 0 (`Display.NegativeClock` shows what is then displayed).
- Speech-recognition setup: `initVoiceRecognition` is the only code that sets `voiceEnabled` (`simon.js:213`). No method of the model sets it, so `voice_commander` can never be earned in the model.
- Storage (`loadStats`, `saveStats`, `loadSettings`, `saveSettings` and the pattern storage), `navigator.share`, the clipboard and URL decoding. These are I/O. The prompt and confirm answers are parameters.
- Event-listener wiring, keyboard and touch dispatch. Two keydown listeners both dispatch the digit keys, so one key press clicks twice (`simon.js:1420-1421` and `1490-1492`). That wiring is not modelled.
- The mock leaderboard, the "perfect timing" message, `totalPlayTime` and `sessionStartTime` (clock readings), and the `saveStats` aggregates (`totalScore`, `averageLevel`, `perfectGames`) are not modelled.
- The `Memory` mode's complexity, the multiplayer players' scores and the per-difficulty speeds are not read by the engine.
- Session.DeletePattern: with an out-of-range or negative index, `deletePattern` throws a TypeError after the splice when it reads the deleted pattern's name. The model keeps only the splice, which has already happened by then.
- Display.Progress: the bar width is a float in the source. It is a real here, so it is exact.
- Ids as strings: the achievement ids, modes, difficulties and colours are strings in the source and enumerations here. A value outside the enumeration can come from storage, from a mode button's `data-mode` attribute (`simon.js:1260`), and from a shared pattern decoded from the page URL (`simon.js:1638-1645`). None of these is modelled.
- Patterns.LoadShared: the pattern data is any JSON value from the URL. The model admits only a name, a list of known colours and an optional known difficulty. It does not model these cases:
  - a difficulty or colour that is not one of the game's, which the source stores as it is;
  - a missing `sequence`, which throws inside the `try` of `simon.js:1641-1645`, so nothing is added;
  - a missing name, which gives the name "undefined (Shared)".
