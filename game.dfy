/** The `SimonGamePro` engine as an object whose fields are updated in place.
    Each method does what the game's method does, step by step, and is proved
    to move the object from state `old(State())` to the state the matching
    transition of `Session` gives. Randomness, clocks and prompt answers are
    arguments; a timer callback is a method of its own, and a method that
    schedules one returns a flag saying so. */
module Game {
  import opened Rules
  import opened Powerups
  import opened Achievements
  import opened Patterns
  import Voice
  import Session

  class SimonGamePro {
    var gamePattern: seq<Color>
    var userPattern: seq<Color>
    var level: int
    var score: int
    var streak: int
    var combo: int
    var started: bool
    var gameOver: bool
    var isPaused: bool
    var showingSequence: bool
    var lives: int
    var timeRemaining: int
    var shieldActive: bool
    var doublePointsActive: bool
    var reactionTimes: seq<int>
    var accuracy: real
    var powerups: map<Kind, Powerup>
    var stats: Session.Stats
    var analytics: Session.Analytics
    var aiOpponent: Session.AiOpponent
    var multiplayer: Session.MultiplayerState
    var patternRecorder: Session.Recorder
    var gameMode: Mode
    var difficulty: Difficulty
    var voiceEnabled: bool

    /** The fields as one value (`accuracy` is derived from the window). */
    function State(): Session.State
      reads this
    {
      Session.State(gamePattern, userPattern, level, score, streak, combo,
                    started, gameOver, isPaused, showingSequence, lives, timeRemaining,
                    shieldActive, doublePointsActive, reactionTimes, powerups,
                    stats, analytics, aiOpponent, multiplayer, patternRecorder,
                    gameMode, difficulty, voiceEnabled)
    }

    /** The object invariant: the state is valid and `accuracy` is the
        percentage of hits in the window. */
    ghost predicate Valid()
      reads this
    {
      Session.Valid(State()) && accuracy == Session.AccuracyValue(analytics.patternAccuracy)
    }

    constructor()
      ensures State() == Session.Initial() && accuracy == 100.0
      ensures Valid()
    {
      gamePattern, userPattern := [], [];
      level, score, streak, combo := 0, 0, 0, 0;
      started, gameOver, isPaused, showingSequence := false, false, false, false;
      gameMode := Classic;
      reactionTimes := [];
      accuracy := 100.0;
      lives, timeRemaining := SurvivalLives, SpeedrunTimeLimit;
      doublePointsActive, shieldActive := false, false;
      difficulty := Normal;
      powerups := InitialTable();
      stats := Session.Stats(0, 0, []);
      aiOpponent := Session.AiOpponent(false, AiAccuracy, 0, 0, false);
      multiplayer := Session.MultiplayerState(false, 1);
      patternRecorder := Session.Recorder(false, [], []);
      voiceEnabled := false;
      analytics := Session.Analytics(0, 0, []);
    }

    // ------------------------------------------------------- round engine

    /** `resetGame`, in the order of its assignments. */
    method ResetGame()
      requires Valid()
      modifies this
      ensures State() == Session.Reset(old(State())) && accuracy == old(accuracy)
      ensures Valid()
    {
      ClearScore();
      streak := 0;
      ClearPatterns();
      StopPlay();
      ClearPlayback();
    }

    method ClearScore()
      modifies this
      ensures State() == old(State()).(level := 0, score := 0) && accuracy == old(accuracy)
    {
      level := 0;
      score := 0;
    }

    method ClearPatterns()
      modifies this
      ensures State() == old(State()).(gamePattern := [], userPattern := []) && accuracy == old(accuracy)
    {
      gamePattern := [];
      userPattern := [];
    }

    method StopPlay()
      modifies this
      ensures State() == old(State()).(started := false, gameOver := false) && accuracy == old(accuracy)
    {
      started := false;
      gameOver := false;
    }

    method ClearPlayback()
      modifies this
      ensures State() == old(State()).(isPaused := false, showingSequence := false) && accuracy == old(accuracy)
    {
      isPaused := false;
      showingSequence := false;
    }

    method PauseGame()
      requires Valid()
      modifies this
      ensures State() == Session.Pause(old(State())) && accuracy == old(accuracy)
      ensures Valid()
    {
      isPaused := !isPaused;
    }

    /** `nextSequence` up to the awaited playback; `pick` stands for
        `Math.floor(Math.random() * 4)`. */
    method NextSequence(pick: nat)
      requires pick < 4 && Valid()
      modifies this
      ensures State() == Session.NextSequence(old(State()), pick) && accuracy == old(accuracy)
      ensures Valid()
    {
      if isPaused || gameOver {
        return;
      }
      BeginRound();
      showingSequence := true;
      ExtendPattern(pick);
    }

    /** The input is cleared and the level goes up. */
    method BeginRound()
      modifies this
      ensures State() == old(State()).(userPattern := [], level := old(level) + 1) && accuracy == old(accuracy)
    {
      userPattern := [];
      level := level + 1;
    }

    /** The level bonus, then one random colour appended to the pattern. */
    method ExtendPattern(pick: nat)
      requires pick < 4
      modifies this
      ensures State() == old(State()).(score := old(score) + old(level) * Bonus(old(difficulty)),
                                       gamePattern := old(gamePattern) + [ButtonColors[pick]])
      ensures accuracy == old(accuracy)
    {
      var levelBonus := level * Bonus(difficulty);
      score := score + levelBonus;
      gamePattern := gamePattern + [ButtonColors[pick]];
    }

    /** The code after the awaited playback of `nextSequence`. */
    method SequenceShown()
      requires Valid()
      modifies this
      ensures State() == Session.SequenceShown(old(State())) && accuracy == old(accuracy)
      ensures Valid()
    {
      showingSequence := false;
    }

    /** The mode switch of `startGame`, including `initMultiplayer` and
        `initAIOpponent`; the result says whether the speedrun countdown was started. */
    method InitModeFeatures() returns (speedrunTimer: bool)
      modifies this
      ensures State() == Session.ModeSetup(old(State())) && accuracy == old(accuracy)
      ensures speedrunTimer == Session.SpeedrunArmed(old(State()))
    {
      speedrunTimer := false;
      match gameMode {
        case Survival =>
          SetLives(SurvivalLives);
        case Speedrun =>
          SetTimeRemaining(SpeedrunTimeLimit);
          speedrunTimer := true;
        case Multiplayer =>
          SetMultiplayer(multiplayer.(active := true, currentPlayer := 1));
        case Ai =>
          SetAiOpponent(aiOpponent.(enabled := true, score := 0, level := 0));
        case _ =>
      }
    }

    method SetLives(n: int)
      modifies this
      ensures State() == old(State()).(lives := n) && accuracy == old(accuracy)
    {
      lives := n;
    }

    method SetTimeRemaining(t: int)
      modifies this
      ensures State() == old(State()).(timeRemaining := t) && accuracy == old(accuracy)
    {
      timeRemaining := t;
    }

    method SetMultiplayer(m: Session.MultiplayerState)
      modifies this
      ensures State() == old(State()).(multiplayer := m) && accuracy == old(accuracy)
    {
      multiplayer := m;
    }

    method SetAiOpponent(ai: Session.AiOpponent)
      modifies this
      ensures State() == old(State()).(aiOpponent := ai) && accuracy == old(accuracy)
    {
      aiOpponent := ai;
    }

    /** `startGame`; the result says whether the speedrun countdown was started. */
    method StartGame(pick: nat) returns (speedrunTimer: bool)
      requires pick < 4 && Valid()
      modifies this
      ensures State() == Session.Start(old(State()), pick) && accuracy == old(accuracy)
      ensures speedrunTimer == Session.SpeedrunArmed(old(State()))
      ensures Valid()
    {
      ghost var s := State();
      ResetGame();
      started := true;
      CountGame();
      speedrunTimer := InitModeFeatures();
      assert State() == Session.Prepared(s);
      NextSequence(pick);
    }

    /** One more game and one more session. */
    method CountGame()
      modifies this
      ensures State() == old(State()).(stats := old(stats).(gamesPlayed := old(stats.gamesPlayed) + 1),
                                       analytics := old(analytics).(sessionsPlayed := old(analytics.sessionsPlayed) + 1))
      ensures accuracy == old(accuracy)
    {
      stats := stats.(gamesPlayed := stats.gamesPlayed + 1);
      analytics := analytics.(sessionsPlayed := analytics.sessionsPlayed + 1);
    }

    /** `patternAccuracy.push(bit)`, the `shift()` past 100 entries, and the
        recomputed `accuracy`. */
    method RecordStep(bit: int)
      modifies this
      ensures State() == Session.Recorded(old(State()), bit)
      ensures accuracy == Session.AccuracyValue(analytics.patternAccuracy)
    {
      var window := analytics.patternAccuracy + [bit];
      if |window| > WindowSize {
        window := window[1..];
      }
      analytics := analytics.(patternAccuracy := window);
      accuracy := AccuracyOf(window);
    }

    /** `checkAchievements`: one pass over the rule table in order, pushing
        each id that is not yet earned and whose condition holds. */
    method CheckAchievements()
      modifies this
      ensures State() == Session.Checked(old(State()))
      ensures accuracy == old(accuracy)
    {
      var facts := Session.FactsOf(State());
      var earned := stats.achievements;
      var i := 0;
      while i < |Table|
        invariant 0 <= i <= |Table|
        invariant Award(Table[i..], facts, earned) == Award(Table, facts, stats.achievements)
      {
        var a := Table[i];
        assert Table[i..][1..] == Table[i + 1..];
        if a !in earned && Holds(a, facts) {
          earned := earned + [a];
        }
        i := i + 1;
      }
      assert Table[i..] == [];
      CheckFacts(facts, stats.achievements);
      stats := stats.(achievements := earned);
    }

    /** `updateHighScore`: only a strictly larger score replaces the best. */
    method UpdateHighScore()
      modifies this
      ensures State() == old(State()).(stats := old(stats).(highScore := HighScoreAfter(old(score), old(stats.highScore))))
      ensures accuracy == old(accuracy)
    {
      if score > stats.highScore {
        stats := stats.(highScore := score);
      }
    }

    /** The game-over block of `checkAnswer`. */
    method EndGame()
      modifies this
      ensures State() == Session.EndGame(old(State())) && accuracy == old(accuracy)
    {
      Halt();
      streak := 0;
      UpdateHighScore();
      SaveAverageReaction();
    }

    method Halt()
      modifies this
      ensures State() == old(State()).(gameOver := true, started := false) && accuracy == old(accuracy)
    {
      gameOver := true;
      started := false;
    }

    /** The rounded mean reaction time, 0 when there is none. */
    method SaveAverageReaction()
      modifies this
      ensures State() == old(State()).(analytics := old(analytics).(averageReactionTime := AverageReaction(old(reactionTimes))))
      ensures accuracy == old(accuracy)
    {
      analytics := analytics.(averageReactionTime := AverageReaction(reactionTimes));
    }

    /** The round-completion block of `checkAnswer`: the points, then the achievement check. */
    method CompleteRound()
      modifies this
      ensures State() == Session.CompleteRound(old(State())) && accuracy == old(accuracy)
    {
      var points := RoundPoints(Bonus(difficulty), combo, doublePointsActive);
      score := score + points;
      assert State() == Session.Scored(old(State()));
      CheckAchievements();
    }

    /** The matching branch of `checkAnswer`; the result says whether the
        round is complete, so that the next one is scheduled. */
    method CorrectStep(i: nat) returns (complete: bool)
      requires i < |userPattern| && Session.Matches(State(), i)
      modifies this
      ensures State() == Session.Hit(old(State()), i) && accuracy == Session.AccuracyValue(analytics.patternAccuracy)
      ensures complete == Session.RoundDue(old(State()), i)
    {
      Tally();
      ghost var t := State();
      RecordStep(1);
      assert State() == Session.Recorded(t, 1);
      assert State() == Session.Tallied(old(State()));
      complete := |userPattern| == |gamePattern|;
      if complete {
        CompleteRound();
      }
    }

    method Tally()
      modifies this
      ensures State() == old(State()).(streak := old(streak) + 1, combo := old(combo) + 1) && accuracy == old(accuracy)
    {
      streak := streak + 1;
      combo := combo + 1;
    }

    /** The mismatching branch of `checkAnswer`. */
    method WrongStep()
      modifies this
      ensures State() == Session.Miss(old(State())) && accuracy == Session.AccuracyValue(analytics.patternAccuracy)
    {
      RecordStep(0);
      SetCombo(0);
      if shieldActive {
        SetShieldActive(false);
        return;
      }
      Penalize();
    }

    /** What follows an unshielded mismatch. */
    method Penalize()
      modifies this
      ensures State() == Session.Penalized(old(State())) && accuracy == old(accuracy)
    {
      if gameMode == Survival {
        var survived := LoseLife();
        if survived {
          return;
        }
      }
      EndGame();
    }

    method SetCombo(n: int)
      modifies this
      ensures State() == old(State()).(combo := n) && accuracy == old(accuracy)
    {
      combo := n;
    }

    method SetShieldActive(b: bool)
      modifies this
      ensures State() == old(State()).(shieldActive := b) && accuracy == old(accuracy)
    {
      shieldActive := b;
    }

    /** The survival block of a mismatch: a life is lost, and while lives
        remain the input is cleared for another try. */
    method LoseLife() returns (survived: bool)
      modifies this
      ensures survived == (old(lives) - 1 > 0)
      ensures State() == if survived then old(State()).(lives := old(lives) - 1, userPattern := [])
                         else old(State()).(lives := old(lives) - 1)
      ensures accuracy == old(accuracy)
    {
      lives := lives - 1;
      survived := lives > 0;
      if survived {
        userPattern := [];
      }
    }

    /** `checkAnswer(i)`; the result says whether the next round was scheduled. */
    method CheckAnswer(i: nat) returns (roundDue: bool)
      requires i < |userPattern|
      modifies this
      ensures State() == Session.CheckAnswer(old(State()), i) && accuracy == Session.AccuracyValue(analytics.patternAccuracy)
      ensures roundDue == Session.RoundDue(old(State()), i)
    {
      var isCorrect := i < |gamePattern| && gamePattern[i] == userPattern[i];
      if isCorrect {
        roundDue := CorrectStep(i);
      } else {
        roundDue := false;
        WrongStep();
      }
    }

    /** The bookkeeping of an accepted click: the reaction time, the recorded
        move while recording, and the colour. */
    method Press(color: Color, reactionTime: int, now: int)
      modifies this
      ensures State() == Session.Pressed(old(State()), color, reactionTime, now) && accuracy == old(accuracy)
    {
      reactionTimes := reactionTimes + [reactionTime];
      RecordMove(color, reactionTime, now);
      userPattern := userPattern + [color];
    }

    /** While recording, the press is appended to the current recording. */
    method RecordMove(color: Color, reactionTime: int, now: int)
      modifies this
      ensures State() == old(State()).(patternRecorder := Session.Noted(old(patternRecorder), Move(color, now, Some(reactionTime))))
      ensures accuracy == old(accuracy)
    {
      if patternRecorder.recording {
        patternRecorder := patternRecorder.(currentRecording :=
          patternRecorder.currentRecording + [Move(color, now, Some(reactionTime))]);
      }
    }

    /** `handleButtonClick(color)`; `reactionTime` and `now` stand for the clock
        readings. The results say whether the next round and the AI's turn were scheduled. */
    method HandleButtonClick(color: Color, reactionTime: int, now: int) returns (roundDue: bool, aiDue: bool)
      requires Valid()
      modifies this
      ensures State() == Session.Click(old(State()), color, reactionTime, now)
      ensures roundDue == (Session.AcceptsInput(old(State())) &&
                           Session.RoundDue(Session.Pressed(old(State()), color, reactionTime, now), |old(userPattern)|))
      ensures aiDue == Session.AiTurnScheduled(old(State()))
      ensures Valid()
    {
      if !started || gameOver || isPaused || showingSequence {
        return false, false;
      }
      Press(color, reactionTime, now);
      roundDue := CheckAnswer(|userPattern| - 1);
      aiDue := aiOpponent.enabled && !multiplayer.active;
    }

    // ---------------------------------------------------------- power-ups

    /** `skipTurn`: the missing colours are pushed one at a time, then the
        last index is checked; the result says whether the next round was scheduled. */
    method SkipTurn() returns (roundDue: bool)
      requires accuracy == Session.AccuracyValue(analytics.patternAccuracy)
      modifies this
      ensures State() == Session.SkipTurn(old(State())) && accuracy == Session.AccuracyValue(analytics.patternAccuracy)
      ensures roundDue == (|old(userPattern)| < |old(gamePattern)|)
    {
      roundDue := false;
      if |userPattern| < |gamePattern| {
        ghost var s := State();
        var filled := userPattern;
        while |filled| < |gamePattern|
          invariant |s.userPattern| <= |filled| <= |gamePattern|
          invariant filled == s.userPattern + gamePattern[|s.userPattern|..|filled|]
          decreases |gamePattern| - |filled|
        {
          filled := filled + [gamePattern[|filled|]];
        }
        assert gamePattern[|s.userPattern|..|filled|] == gamePattern[|s.userPattern|..];
        userPattern := filled;
        assert State() == Session.Filled(s);
        roundDue := CheckAnswer(|userPattern| - 1);
      }
    }

    /** `showHint`: the colour to highlight, if input is missing. */
    method ShowHint() returns (hint: Option<Color>)
      ensures hint == Session.HintColor(State())
      ensures hint.Some? ==> hint.value == gamePattern[|userPattern|]
    {
      hint := None;
      if |userPattern| < |gamePattern| {
        hint := Some(gamePattern[|userPattern|]);
      }
    }

    /** `activateShield`; its 15-second expiry is `ShieldExpires`. */
    method ActivateShield()
      modifies this
      ensures State() == old(State()).(shieldActive := true) && accuracy == old(accuracy)
    {
      shieldActive := true;
    }

    /** `activateDoublePoints`; its 20-second expiry is `DoublePointsExpire`. */
    method ActivateDoublePoints()
      modifies this
      ensures State() == old(State()).(doublePointsActive := true) && accuracy == old(accuracy)
    {
      doublePointsActive := true;
    }

    /** The `switch` of `usePowerup`; slow time and reveal only act on
        playback speed and the display. */
    method ApplyEffect(k: Kind) returns (roundDue: bool)
      requires accuracy == Session.AccuracyValue(analytics.patternAccuracy)
      modifies this
      ensures State() == Session.Effect(old(State()), k) && accuracy == Session.AccuracyValue(analytics.patternAccuracy)
      ensures roundDue == (k == Skip && |old(userPattern)| < |old(gamePattern)|)
    {
      roundDue := false;
      match k {
        case Skip =>
          roundDue := SkipTurn();
        case Hint =>
          var _ := ShowHint();
        case Shield =>
          ActivateShield();
        case Double =>
          ActivateDoublePoints();
        case _ =>
      }
    }

    /** `usePowerup(k)`; the result says which guard stopped it, if any, and
        whether a skip scheduled the next round. A successful use starts the
        cooldown interval, whose runs are `CooldownTick(k)`. */
    method UsePowerup(k: Kind) returns (outcome: Session.Outcome, roundDue: bool)
      requires k in powerups && Valid()
      modifies this
      ensures outcome == Session.PowerupOutcome(old(State()), k)
      ensures State() == Session.UsePowerup(old(State()), k)
      ensures roundDue == (outcome == Session.Used && k == Skip && |old(userPattern)| < |old(gamePattern)|)
      ensures Valid()
    {
      var powerup := powerups[k];
      if !powerup.available || powerup.cooldown > 0 || !started {
        return Session.Ignored, false;
      }
      if score < powerup.cost {
        return Session.InsufficientPoints, false;
      }
      roundDue := Spend(k);
      outcome := Session.Used;
      Session.UsePowerupKeepsValid(old(State()), k);
    }

    /** The part of `usePowerup` after the guards: the price, the effect, and
        the start of the cooldown. */
    method Spend(k: Kind) returns (roundDue: bool)
      requires k in powerups && accuracy == Session.AccuracyValue(analytics.patternAccuracy)
      modifies this
      ensures State() == Session.Activate(Session.Paid(old(State()), k), k)
      ensures accuracy == Session.AccuracyValue(analytics.patternAccuracy)
      ensures roundDue == (k == Skip && |old(userPattern)| < |old(gamePattern)|)
    {
      var powerup := powerups[k];
      score := score - powerup.cost;
      ghost var paid := State();
      assert paid == Session.Paid(old(State()), k);
      roundDue := ApplyEffect(k);
      SetPowerup(k, powerup.(available := false, cooldown := powerup.maxCooldown));
    }

    /** One run of the cooldown interval of `k`; the result says whether the
        interval keeps running. */
    method CooldownTick(k: Kind) returns (continues: bool)
      requires k in powerups && powerups[k].cooldown > 0 && Valid()
      modifies this
      ensures State() == Session.CooldownTick(old(State()), k)
      ensures continues == Session.CooldownContinues(State(), k)
      ensures Valid()
    {
      var powerup := powerups[k];
      powerup := powerup.(cooldown := powerup.cooldown - 1);
      continues := true;
      if powerup.cooldown <= 0 {
        powerup := powerup.(available := true);
        continues := false;
      }
      SetPowerup(k, powerup);
      Session.CooldownTickKeepsValid(old(State()), k);
    }

    method SetPowerup(k: Kind, p: Powerup)
      modifies this
      ensures State() == old(State()).(powerups := old(powerups)[k := p]) && accuracy == old(accuracy)
    {
      powerups := powerups[k := p];
    }

    /** The shield's expiry timer. */
    method ShieldExpires()
      requires Valid()
      modifies this
      ensures State() == Session.ShieldExpires(old(State()))
      ensures Valid()
    {
      shieldActive := false;
    }

    /** The double-points expiry timer. */
    method DoublePointsExpire()
      requires Valid()
      modifies this
      ensures State() == Session.DoublePointsExpire(old(State()))
      ensures Valid()
    {
      doublePointsActive := false;
    }

    /** One run of the speedrun interval; the result says whether it keeps running. */
    method SpeedrunTick() returns (continues: bool)
      requires Valid()
      modifies this
      ensures State() == Session.SpeedrunTick(old(State()))
      ensures continues == Session.SpeedrunContinues(State())
      ensures Valid()
    {
      timeRemaining := timeRemaining - 1;
      continues := true;
      if timeRemaining <= 0 {
        gameOver := true;
        continues := false;
      } else if !started {
        continues := false;
      }
    }

    // -------------------------------------------------------- AI opponent

    /** `aiMove`; the result says whether the AI's answer was scheduled. */
    method AiMove() returns (scheduled: bool)
      requires Valid()
      modifies this
      ensures State() == Session.AiMove(old(State()))
      ensures scheduled == Session.AiAnswerScheduled(old(State()))
      ensures Valid()
    {
      if !aiOpponent.enabled || gameOver {
        return false;
      }
      aiOpponent := aiOpponent.(thinking := true);
      scheduled := true;
    }

    /** The delayed answer of `aiMove`; `errorRoll` and `choiceRoll` stand for
        the two `Math.random()` draws. */
    method AiTurn(errorRoll: real, choiceRoll: real)
      requires 0.0 <= choiceRoll < 1.0 && Valid()
      modifies this
      ensures State() == Session.AiTurn(old(State()), errorRoll, choiceRoll)
      ensures Valid()
    {
      var aiChoice := ChooseAi(errorRoll, choiceRoll);
      var target := Session.AiTarget(State());
      var ai := aiOpponent;
      if Some(aiChoice) == target {
        ai := ai.(score := ai.score + 10, level := ai.level + 1);
      } else {
        ai := ai.(level := 0);
      }
      ai := ai.(thinking := false);
      aiOpponent := ai;
    }

    /** The AI's choice of colour. */
    method ChooseAi(errorRoll: real, choiceRoll: real) returns (aiChoice: Color)
      requires 0.0 <= choiceRoll < 1.0
      ensures aiChoice == Session.AiChoice(State(), errorRoll, choiceRoll)
    {
      var shouldMakeError := errorRoll > aiOpponent.difficulty;
      var target := Session.AiTarget(State());
      if shouldMakeError && |gamePattern| > 2 {
        var wrongChoices := OtherColors(target);
        aiChoice := wrongChoices[Session.RandomIndex(choiceRoll, |wrongChoices|)];
      } else if target.Some? {
        aiChoice := target.value;
      } else {
        aiChoice := ButtonColors[Session.RandomIndex(choiceRoll, 4)];
      }
    }

    // ------------------------------------------------ settings and patterns

    /** The game-mode buttons' handler. */
    method SelectMode(m: Mode)
      requires Valid()
      modifies this
      ensures State() == Session.SelectMode(old(State()), m)
      ensures Valid()
    {
      gameMode := m;
    }

    /** The difficulty selector's handler. */
    method SelectDifficulty(d: Difficulty)
      requires Valid()
      modifies this
      ensures State() == Session.SelectDifficulty(old(State()), d)
      ensures Valid()
    {
      difficulty := d;
    }

    method StartRecording()
      requires Valid()
      modifies this
      ensures State() == Session.StartRecording(old(State()))
      ensures Valid()
    {
      patternRecorder := patternRecorder.(recording := true, currentRecording := []);
    }

    /** `savePattern(name)`: a copy of the recorded moves. */
    method SavePattern(name: string, now: int)
      requires Valid()
      modifies this
      ensures State() == Session.SavePattern(old(State()), name, now)
      ensures Valid()
    {
      var entry := SavedPattern(name, patternRecorder.currentRecording, now, difficulty, gameMode, false);
      patternRecorder := patternRecorder.(savedPatterns := patternRecorder.savedPatterns + [entry]);
    }

    /** `stopRecording` and its name prompt; `answer` is what the prompt returned. */
    method StopRecording(answer: Option<string>, now: int)
      requires Valid()
      modifies this
      ensures State() == Session.StopRecording(old(State()), answer, now)
      ensures Valid()
    {
      patternRecorder := patternRecorder.(recording := false);
      if answer.Some? && answer.value != "" {
        SavePattern(answer.value, now);
      }
    }

    /** `deletePattern(index)`; `confirmed` is the answer to the confirmation. */
    method DeletePattern(index: int, confirmed: bool)
      requires Valid()
      modifies this
      ensures State() == Session.DeletePattern(old(State()), index, confirmed)
      ensures Valid()
    {
      if confirmed {
        patternRecorder := patternRecorder.(savedPatterns := RemoveAt(patternRecorder.savedPatterns, index));
      }
    }

    /** `loadSharedPattern`: the new entry goes to the front of the list. */
    method LoadSharedPattern(name: string, colors: seq<Color>, difficulty': Option<Difficulty>, now: int)
      requires Valid()
      modifies this
      ensures State() == Session.LoadSharedPattern(old(State()), name, colors, difficulty', now)
      ensures Valid()
    {
      var entry := SharedEntry(name, colors, difficulty', now);
      patternRecorder := patternRecorder.(savedPatterns := [entry] + patternRecorder.savedPatterns);
    }

    // ------------------------------------------------------------- voice

    /** `handleVoiceCommand`: the keys are tried in table order and the first
        one the text contains is executed. The results are the command run and
        the timers it scheduled. */
    method HandleVoiceCommand(text: string, pick: nat, reactionTime: int, now: int)
      returns (cmd: Option<Voice.Command>, speedrunTimer: bool, roundDue: bool, aiDue: bool)
      requires pick < 4 && Valid()
      modifies this
      ensures cmd == Voice.Classify(text)
      ensures State() == Session.VoiceCommand(old(State()), text, pick, reactionTime, now)
      ensures speedrunTimer == (cmd == Some(Voice.Start) && Session.SpeedrunArmed(old(State())))
      ensures cmd.Some? && cmd.value.Press? ==>
                && roundDue == (Session.AcceptsInput(old(State())) &&
                                Session.RoundDue(Session.Pressed(old(State()), cmd.value.color, reactionTime, now),
                                                 |old(userPattern)|))
                && aiDue == Session.AiTurnScheduled(old(State()))
      ensures !(cmd.Some? && cmd.value.Press?) ==> !roundDue && !aiDue
      ensures Valid()
    {
      cmd := None;
      var i := 0;
      while i < |Voice.Keys|
        invariant 0 <= i <= |Voice.Keys|
        invariant Voice.FirstMatch(text, i) == Voice.Classify(text)
      {
        if Voice.Includes(text, Voice.Keys[i]) {
          cmd := Some(Voice.Commands[i]);
          break;
        }
        i := i + 1;
      }
      speedrunTimer, roundDue, aiDue := false, false, false;
      match cmd {
        case None =>
        case Some(c) =>
          match c {
            case Start => speedrunTimer := StartGame(pick);
            case Pause => PauseGame();
            case Reset => ResetGame();
            case Press(color) => roundDue, aiDue := HandleButtonClick(color, reactionTime, now);
          }
      }
    }
  }
}
