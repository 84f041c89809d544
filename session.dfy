/** The game engine as values: the whole game state as one datatype and one
    transition function per event (a user action or a timer callback).
    Randomness, clocks and prompt answers are arguments of the events. */
module Session {
  import opened Rules
  import opened Powerups
  import opened Achievements
  import opened Patterns
  import Voice

  datatype Stats = Stats(gamesPlayed: int, highScore: int, achievements: seq<Achievement>)

  datatype Analytics = Analytics(sessionsPlayed: int, averageReactionTime: int, patternAccuracy: seq<int>)

  datatype AiOpponent = AiOpponent(enabled: bool, difficulty: real, score: int, level: int, thinking: bool)

  datatype MultiplayerState = MultiplayerState(active: bool, currentPlayer: int)

  datatype Recorder = Recorder(recording: bool, savedPatterns: seq<SavedPattern>, currentRecording: seq<Move>)

  datatype State = State(
    gamePattern: seq<Color>, userPattern: seq<Color>,
    level: int, score: int, streak: int, combo: int,
    started: bool, gameOver: bool, isPaused: bool, showingSequence: bool,
    lives: int, timeRemaining: int,
    shieldActive: bool, doublePointsActive: bool,
    reactionTimes: seq<int>,
    powerups: map<Kind, Powerup>,
    stats: Stats, analytics: Analytics, aiOpponent: AiOpponent,
    multiplayer: MultiplayerState, patternRecorder: Recorder,
    gameMode: Mode, difficulty: Difficulty, voiceEnabled: bool)

  /** The accuracy shown for a window: 100 before any step is recorded. */
  function AccuracyValue(window: seq<int>): real
  {
    if window == [] then 100.0 else AccuracyOf(window)
  }

  /** What holds between events: counters are non-negative, every power-up
      record is well formed (so `available` exactly when its cooldown is 0),
      the accuracy window holds at most 100 hits and misses and `accuracy` is
      its percentage, and no achievement is recorded twice. */
  ghost predicate Valid(s: State)
  {
    && s.level >= 0 && s.score >= 0 && s.streak >= 0 && s.combo >= 0
    && s.aiOpponent.level >= 0
    && TableWellFormed(s.powerups)
    && Bits(s.analytics.patternAccuracy) && |s.analytics.patternAccuracy| <= WindowSize
    && Distinct(s.stats.achievements)
  }

  /** `accuracy`, which every step recomputes from the window: 100 times the
      share of hits among the recorded steps. */
  function Accuracy(s: State): real
  {
    AccuracyValue(s.analytics.patternAccuracy)
  }

  /** Between events the accuracy is a percentage, and it is 100 exactly when
      the window records no miss. */
  lemma AccuracyInRange(s: State)
    requires Valid(s)
    ensures 0.0 <= Accuracy(s) <= 100.0
    ensures Accuracy(s) == 100.0 <==> forall i :: 0 <= i < |s.analytics.patternAccuracy| ==> s.analytics.patternAccuracy[i] == 1
  {
    if s.analytics.patternAccuracy != [] {
      AccuracyIsPercentage(s.analytics.patternAccuracy);
    }
  }

  /** The state the constructor builds (before settings and statistics are loaded). */
  function Initial(): (s: State)
    ensures Valid(s)
    ensures !s.started && s.gamePattern == [] && s.level == 0 && s.score == 0
    ensures s.lives == SurvivalLives && s.timeRemaining == SpeedrunTimeLimit && Accuracy(s) == 100.0
    ensures forall k :: k in s.powerups ==> Ready(s.powerups[k])
  {
    State([], [], 0, 0, 0, 0, false, false, false, false,
          SurvivalLives, SpeedrunTimeLimit, false, false, [],
          InitialTable(), Stats(0, 0, []), Analytics(0, 0, []),
          AiOpponent(false, AiAccuracy, 0, 0, false), MultiplayerState(false, 1),
          Recorder(false, [], []), Classic, Normal, false)
  }

  /** The part of the state the achievement conditions read. */
  function FactsOf(s: State): Facts
  {
    Facts(s.level, s.streak, s.score, s.combo, s.difficulty, s.gameMode,
          s.reactionTimes, s.analytics.patternAccuracy,
          s.aiOpponent.enabled, s.aiOpponent.score,
          |s.patternRecorder.savedPatterns|, s.voiceEnabled)
  }

  // ------------------------------------------------------------ round engine

  /** `resetGame`: the round state is cleared; `combo`, `lives`, the reaction
      times, the accuracy window and the power-ups are left as they were. */
  function Reset(s: State): (r: State)
    ensures r.level == 0 && r.score == 0 && r.streak == 0
    ensures r.gamePattern == [] && r.userPattern == []
    ensures !r.started && !r.gameOver && !r.isPaused && !r.showingSequence
    ensures r.combo == s.combo && r.lives == s.lives && r.reactionTimes == s.reactionTimes
    ensures r.analytics == s.analytics && r.powerups == s.powerups
    ensures r.(level := s.level, score := s.score, streak := s.streak, gamePattern := s.gamePattern,
               userPattern := s.userPattern, started := s.started, gameOver := s.gameOver,
               isPaused := s.isPaused, showingSequence := s.showingSequence) == s
    ensures Valid(s) ==> Valid(r)
  {
    s.(level := 0, score := 0, streak := 0, gamePattern := [], userPattern := [],
       started := false, gameOver := false, isPaused := false, showingSequence := false)
  }

  /** `pauseGame` toggles the pause flag and nothing else. */
  function Pause(s: State): (r: State)
    ensures r.isPaused == !s.isPaused && r.(isPaused := s.isPaused) == s
    {
    s.(isPaused := !s.isPaused)
  }

  /** Pausing twice resumes the game exactly as it was. */
  lemma PauseTwice(s: State)
    ensures Pause(Pause(s)) == s
  {
  }

  /** `nextSequence` up to the awaited playback: unless paused or over, the
      input is cleared, the level goes up by one, `level * bonus` points are
      added, and exactly one colour is appended to the pattern. */
  function NextSequence(s: State, pick: nat): (r: State)
    requires pick < 4
    ensures s.isPaused || s.gameOver ==> r == s
    ensures !s.isPaused && !s.gameOver ==>
              && r.userPattern == [] && r.level == s.level + 1
              && r.score == s.score + r.level * Bonus(s.difficulty)
              && |r.gamePattern| == |s.gamePattern| + 1 && r.gamePattern[..|s.gamePattern|] == s.gamePattern
              && r.gamePattern[|s.gamePattern|] == ButtonColors[pick]
              && r.showingSequence
              && r.(userPattern := s.userPattern, level := s.level, score := s.score,
                    gamePattern := s.gamePattern, showingSequence := s.showingSequence) == s
    ensures Valid(s) ==> Valid(r)
  {
    if s.isPaused || s.gameOver then s
    else
      var level := s.level + 1;
      s.(userPattern := [], level := level, showingSequence := true,
         score := s.score + level * Bonus(s.difficulty),
         gamePattern := s.gamePattern + [ButtonColors[pick]])
  }

  /** The end of the sequence playback: input is accepted again. */
  function SequenceShown(s: State): (r: State)
    ensures !r.showingSequence && r.(showingSequence := s.showingSequence) == s
    ensures Valid(s) ==> Valid(r)
  {
    s.(showingSequence := false)
  }

  /** The mode-specific part of `startGame`. */
  function ModeSetup(s: State): (r: State)
    ensures r.lives == if s.gameMode == Survival then SurvivalLives else s.lives
    ensures r.timeRemaining == if s.gameMode == Speedrun then SpeedrunTimeLimit else s.timeRemaining
    ensures r.multiplayer == if s.gameMode == Multiplayer then MultiplayerState(true, 1) else s.multiplayer
    ensures r.aiOpponent == if s.gameMode == Ai then s.aiOpponent.(enabled := true, score := 0, level := 0)
                            else s.aiOpponent
    ensures r.(lives := s.lives, timeRemaining := s.timeRemaining, multiplayer := s.multiplayer,
               aiOpponent := s.aiOpponent) == s
  {
    match s.gameMode
    case Survival => s.(lives := SurvivalLives)
    case Speedrun => s.(timeRemaining := SpeedrunTimeLimit)
    case Multiplayer => s.(multiplayer := MultiplayerState(true, 1))
    case Ai => s.(aiOpponent := s.aiOpponent.(enabled := true, score := 0, level := 0))
    case _ => s
  }

  /** `startGame` up to the first round: a reset, one more game and session, the mode's own setup. */
  function Prepared(s: State): (r: State)
    ensures r.(level := s.level, score := s.score, streak := s.streak, gamePattern := s.gamePattern,
               userPattern := s.userPattern, started := s.started, gameOver := s.gameOver,
               isPaused := s.isPaused, showingSequence := s.showingSequence,
               stats := s.stats, analytics := s.analytics, lives := s.lives,
               timeRemaining := s.timeRemaining, multiplayer := s.multiplayer,
               aiOpponent := s.aiOpponent) == s
    ensures Valid(s) ==> Valid(r)
  {
    var s0 := Reset(s).(started := true,
                        stats := s.stats.(gamesPlayed := s.stats.gamesPlayed + 1),
                        analytics := s.analytics.(sessionsPlayed := s.analytics.sessionsPlayed + 1));
    ModeSetup(s0)
  }

  /** `startGame`: a reset, one more game and session, the mode's own setup,
      then the first round, which is a one-colour pattern worth `bonus` points. */
  function Start(s: State, pick: nat): (r: State)
    requires pick < 4
    ensures r.started && !r.gameOver && !r.isPaused && r.showingSequence
    ensures r.level == 1 && r.score == Bonus(s.difficulty) && r.streak == 0
    ensures r.gamePattern == [ButtonColors[pick]] && r.userPattern == []
    ensures Valid(s) ==> Valid(r)
  {
    NextSequence(Prepared(s), pick)
  }

  /** What `startGame` sets up for each mode and counts, and what it keeps:
      the combo, the reaction times and the power-ups survive a new game. */
  lemma StartSetsUpMode(s: State, pick: nat)
    requires pick < 4
    ensures var r := Start(s, pick);
            && r.stats.gamesPlayed == s.stats.gamesPlayed + 1
            && r.analytics.sessionsPlayed == s.analytics.sessionsPlayed + 1
            && r.lives == (if s.gameMode == Survival then SurvivalLives else s.lives)
            && r.timeRemaining == (if s.gameMode == Speedrun then SpeedrunTimeLimit else s.timeRemaining)
            && r.multiplayer == (if s.gameMode == Multiplayer then MultiplayerState(true, 1) else s.multiplayer)
            && r.aiOpponent == (if s.gameMode == Ai then s.aiOpponent.(enabled := true, score := 0, level := 0)
                                else s.aiOpponent)
            && r.combo == s.combo && r.powerups == s.powerups && r.reactionTimes == s.reactionTimes
  {
    var p := Prepared(s);
    assert p.stats.gamesPlayed == s.stats.gamesPlayed + 1;
  }

  /** `startGame` arms the speedrun countdown exactly in speedrun mode. */
  predicate SpeedrunArmed(s: State)
  {
    s.gameMode == Speedrun
  }

  /** The comparison of `checkAnswer`: an index past the end of the
      pattern never matches. */
  predicate Matches(s: State, i: nat)
    requires i < |s.userPattern|
  {
    i < |s.gamePattern| && s.gamePattern[i] == s.userPattern[i]
  }

  /** The step is a match that completes the round; the next round is then scheduled. */
  predicate RoundDue(s: State, i: nat)
    requires i < |s.userPattern|
  {
    Matches(s, i) && |s.userPattern| == |s.gamePattern|
  }

  /** Appends a hit (1) or a miss (0) to the accuracy window. */
  function Recorded(s: State, bit: int): (r: State)
    ensures r.analytics.patternAccuracy == Record(s.analytics.patternAccuracy, bit)
    ensures r.(analytics := s.analytics) == s
    ensures r.analytics.(patternAccuracy := s.analytics.patternAccuracy) == s.analytics
  {
    s.(analytics := s.analytics.(patternAccuracy := Record(s.analytics.patternAccuracy, bit)))
  }

  /** The points of a completed round added to the score. */
  function Scored(s: State): (r: State)
    ensures r.score == s.score + RoundPoints(Bonus(s.difficulty), s.combo, s.doublePointsActive)
    ensures r.(score := s.score) == s
  {
    s.(score := s.score + RoundPoints(Bonus(s.difficulty), s.combo, s.doublePointsActive))
  }

  /** `checkAchievements` on the state: the earned list after one evaluation of the table. */
  function Checked(s: State): (r: State)
    ensures r.stats.achievements == Check(FactsOf(s), s.stats.achievements)
    ensures r.(stats := s.stats) == s
    ensures r.stats.(achievements := s.stats.achievements) == s.stats
  {
    s.(stats := s.stats.(achievements := Check(FactsOf(s), s.stats.achievements)))
  }

  /** Points for the completed round, then the achievement check. */
  function CompleteRound(s: State): (r: State)
    ensures r.score == s.score + RoundPoints(Bonus(s.difficulty), s.combo, s.doublePointsActive)
    ensures r.stats.achievements == Check(FactsOf(s.(score := r.score)), s.stats.achievements)
    ensures r.(score := s.score, stats := s.stats) == s
    ensures r.stats.(achievements := s.stats.achievements) == s.stats
    ensures Valid(s) ==> Valid(r)
  {
    Checked(Scored(s))
  }

  /** The game-over branch: the game stops, the streak is lost, the high score
      and the average reaction time are updated. */
  function EndGame(s: State): (r: State)
    ensures r.gameOver && !r.started && r.streak == 0
    ensures r.stats.highScore == HighScoreAfter(s.score, s.stats.highScore)
    ensures r.analytics.averageReactionTime == AverageReaction(s.reactionTimes)
    ensures r.(gameOver := s.gameOver, started := s.started, streak := s.streak,
               stats := s.stats, analytics := s.analytics) == s
    ensures r.stats.(highScore := s.stats.highScore) == s.stats
    ensures r.analytics.(averageReactionTime := s.analytics.averageReactionTime) == s.analytics
    ensures Valid(s) ==> Valid(r)
    ensures r.lives == s.lives && r.score == s.score && r.combo == s.combo && r.gamePattern == s.gamePattern
    ensures r.powerups == s.powerups && r.aiOpponent == s.aiOpponent && r.multiplayer == s.multiplayer
    ensures r.stats.achievements == s.stats.achievements
    ensures r.analytics.patternAccuracy == s.analytics.patternAccuracy
  {
    s.(gameOver := true, started := false, streak := 0,
       stats := s.stats.(highScore := HighScoreAfter(s.score, s.stats.highScore)),
       analytics := s.analytics.(averageReactionTime := AverageReaction(s.reactionTimes)))
  }

  /** A mismatch that neither a shield nor a spare life absorbs ends the game. */
  predicate EndsGame(s: State)
  {
    !s.shieldActive && !(s.gameMode == Survival && s.lives - 1 > 0)
  }

  /** The matching branch of `checkAnswer`. */
  function Hit(s: State, i: nat): (r: State)
    requires i < |s.userPattern| && Matches(s, i)
    ensures r.streak == s.streak + 1 && r.combo == s.combo + 1
    ensures r.analytics.patternAccuracy == Record(s.analytics.patternAccuracy, 1)
    ensures r.userPattern == s.userPattern && r.gamePattern == s.gamePattern
    ensures r.started == s.started && r.gameOver == s.gameOver && r.powerups == s.powerups
    ensures r.shieldActive == s.shieldActive && r.doublePointsActive == s.doublePointsActive
    ensures r.aiOpponent == s.aiOpponent && r.multiplayer == s.multiplayer
    ensures r.score == s.score + (if RoundDue(s, i) then RoundPoints(Bonus(s.difficulty), r.combo, s.doublePointsActive) else 0)
    ensures r.stats.achievements == (if RoundDue(s, i) then Check(FactsOf(r), s.stats.achievements) else s.stats.achievements)
  {
    var s1 := Tallied(s);
    if |s.userPattern| == |s.gamePattern| then CompleteRound(s1) else s1
  }

  /** A match changes only streak, combo, the accuracy window, the score and
      the earned list: level, lives, the phase flags, the clock, the high
      score, the reaction times, the recorder and the mode are all kept. */
  lemma HitFrame(s: State, i: nat)
    requires i < |s.userPattern| && Matches(s, i)
    ensures var r := Hit(s, i);
            && r.(streak := s.streak, combo := s.combo, analytics := s.analytics, score := s.score, stats := s.stats) == s
            && r.analytics.(patternAccuracy := s.analytics.patternAccuracy) == s.analytics
            && r.stats.(achievements := s.stats.achievements) == s.stats
  {
    var t := Tallied(s);
    if |s.userPattern| == |s.gamePattern| {
      var r := CompleteRound(t);
      assert Hit(s, i) == r;
      assert r.(score := t.score, stats := t.stats) == t;
    } else {
      assert Hit(s, i) == t;
    }
  }

  /** The bookkeeping of a match: one more in the streak and the combo, a hit recorded. */
  function Tallied(s: State): (r: State)
    ensures r.streak == s.streak + 1 && r.combo == s.combo + 1
    ensures r.analytics.patternAccuracy == Record(s.analytics.patternAccuracy, 1)
    ensures r.(streak := s.streak, combo := s.combo, analytics := s.analytics) == s
    ensures r.analytics.(patternAccuracy := s.analytics.patternAccuracy) == s.analytics
  {
    Recorded(s.(streak := s.streak + 1, combo := s.combo + 1), 1)
  }

  /** The mismatching branch of `checkAnswer`. */
  function Miss(s: State): (r: State)
    ensures r.analytics.patternAccuracy == Record(s.analytics.patternAccuracy, 0)
    ensures r.combo == 0 && r.score == s.score && r.stats.achievements == s.stats.achievements
    ensures r.gamePattern == s.gamePattern && r.powerups == s.powerups
    ensures r.aiOpponent == s.aiOpponent && r.multiplayer == s.multiplayer
    ensures s.shieldActive ==> r == Recorded(s, 0).(combo := 0, shieldActive := false)
    ensures !s.shieldActive && s.gameMode == Survival && s.lives - 1 > 0 ==>
              r == Recorded(s, 0).(combo := 0, lives := s.lives - 1, userPattern := [])
    ensures EndsGame(s) ==>
              && r.gameOver && !r.started && r.streak == 0
              && r.stats.highScore == HighScoreAfter(s.score, s.stats.highScore)
              && r.lives == (if s.gameMode == Survival then s.lives - 1 else s.lives)
  {
    var s1 := Recorded(s, 0).(combo := 0);
    if s.shieldActive then s1.(shieldActive := false) else Penalized(s1)
  }

  /** An unshielded mismatch: in survival a life is lost and, while lives
      remain, the input is cleared for another try; otherwise the game ends. */
  function Penalized(s: State): (r: State)
    ensures r.analytics.patternAccuracy == s.analytics.patternAccuracy && r.combo == s.combo
    ensures r.score == s.score && r.stats.achievements == s.stats.achievements
    ensures r.gamePattern == s.gamePattern && r.powerups == s.powerups
    ensures r.aiOpponent == s.aiOpponent && r.multiplayer == s.multiplayer
    ensures s.gameMode == Survival && s.lives - 1 > 0 ==> r == s.(lives := s.lives - 1, userPattern := [])
    ensures !(s.gameMode == Survival && s.lives - 1 > 0) ==>
              r == EndGame(if s.gameMode == Survival then s.(lives := s.lives - 1) else s)
    ensures !(s.gameMode == Survival && s.lives - 1 > 0) ==>
              && r.gameOver && !r.started && r.streak == 0
              && r.stats.highScore == HighScoreAfter(s.score, s.stats.highScore)
              && r.lives == (if s.gameMode == Survival then s.lives - 1 else s.lives)
  {
    if s.gameMode == Survival && s.lives - 1 > 0 then s.(lives := s.lives - 1, userPattern := [])
    else EndGame(if s.gameMode == Survival then s.(lives := s.lives - 1) else s)
  }

  /** The facts about a successor state from which validity follows. */
  lemma ValidWhen(s: State, r: State)
    requires Valid(s)
    requires r.level == s.level && r.aiOpponent.level == s.aiOpponent.level && r.powerups == s.powerups
    requires r.score >= 0 && r.streak >= 0 && r.combo >= 0
    requires Bits(r.analytics.patternAccuracy) && |r.analytics.patternAccuracy| <= WindowSize
    requires Distinct(r.stats.achievements)
    ensures Valid(r)
  {
  }

  lemma HitKeepsValid(s: State, i: nat)
    requires i < |s.userPattern| && Matches(s, i) && Valid(s)
    ensures Valid(Hit(s, i))
  {
    var r := Hit(s, i);
    var w := Record(s.analytics.patternAccuracy, 1);
    assert Bits(w) && |w| <= WindowSize;
    assert r.level == s.level && r.aiOpponent == s.aiOpponent;
    assert Distinct(r.stats.achievements);
    ValidWhen(s, r);
  }

  lemma MissKeepsValid(s: State)
    requires Valid(s)
    ensures Valid(Miss(s))
  {
    var r := Miss(s);
    var w := Record(s.analytics.patternAccuracy, 0);
    assert Bits(w) && |w| <= WindowSize;
    assert r.level == s.level && r.aiOpponent == s.aiOpponent;
    assert r.streak == 0 || r.streak == s.streak;
    ValidWhen(s, r);
  }

  /** `checkAnswer(i)`. A match adds one to `streak` and `combo` and records a
      hit; if it completes the round it also scores the round and checks the
      achievements. A mismatch records a miss and zeroes `combo`; then an
      active shield is used up and nothing else changes, or in survival a
      spare life is lost and the input is cleared, or the game ends. */
  function CheckAnswer(s: State, i: nat): (r: State)
    requires i < |s.userPattern|
    ensures Matches(s, i) ==> r == Hit(s, i)
    ensures !Matches(s, i) ==> r == Miss(s)
    ensures r.gamePattern == s.gamePattern && r.powerups == s.powerups
    ensures r.aiOpponent == s.aiOpponent && r.multiplayer == s.multiplayer
    ensures Valid(s) ==> Valid(r)
  {
    if Matches(s, i) then
      assert Valid(s) ==> Valid(Hit(s, i)) by { if Valid(s) { HitKeepsValid(s, i); } }
      Hit(s, i)
    else
      assert Valid(s) ==> Valid(Miss(s)) by { if Valid(s) { MissKeepsValid(s); } }
      Miss(s)
  }

  /** The guard of `handleButtonClick`. */
  predicate AcceptsInput(s: State)
  {
    s.started && !s.gameOver && !s.isPaused && !s.showingSequence
  }

  /** The bookkeeping of an accepted click before the comparison: one
      reaction time, one recorded move while recording, and one colour. */
  function Pressed(s: State, color: Color, reactionTime: int, now: int): (r: State)
    ensures r.reactionTimes == s.reactionTimes + [reactionTime]
    ensures r.userPattern == s.userPattern + [color]
    ensures r.patternRecorder.currentRecording ==
              if s.patternRecorder.recording
              then s.patternRecorder.currentRecording + [Move(color, now, Some(reactionTime))]
              else s.patternRecorder.currentRecording
    ensures r.(reactionTimes := s.reactionTimes, userPattern := s.userPattern,
               patternRecorder := s.patternRecorder) == s
    ensures r.patternRecorder.(currentRecording := s.patternRecorder.currentRecording) == s.patternRecorder
    ensures Valid(s) ==> Valid(r)
  {
    s.(reactionTimes := s.reactionTimes + [reactionTime],
       patternRecorder := Noted(s.patternRecorder, Move(color, now, Some(reactionTime))),
       userPattern := s.userPattern + [color])
  }

  /** While recording, a move is appended to the current recording. */
  function Noted(rec: Recorder, move: Move): (r: Recorder)
    ensures r.currentRecording == if rec.recording then rec.currentRecording + [move] else rec.currentRecording
    ensures r.(currentRecording := rec.currentRecording) == rec
  {
    if rec.recording then rec.(currentRecording := rec.currentRecording + [move]) else rec
  }

  /** `handleButtonClick`: ignored unless input is accepted; otherwise the
      press is recorded and the new last index is checked. */
  function Click(s: State, color: Color, reactionTime: int, now: int): (r: State)
    ensures !AcceptsInput(s) ==> r == s
    ensures AcceptsInput(s) ==>
              var p := Pressed(s, color, reactionTime, now);
              |p.userPattern| == |s.userPattern| + 1 && r == CheckAnswer(p, |s.userPattern|)
    ensures Valid(s) ==> Valid(r)
  {
    if !AcceptsInput(s) then s
    else
      var p := Pressed(s, color, reactionTime, now);
      CheckAnswer(p, |p.userPattern| - 1)
  }

  /** After an accepted click the AI's turn is scheduled, unless multiplayer is active. */
  predicate AiTurnScheduled(s: State)
  {
    AcceptsInput(s) && s.aiOpponent.enabled && !s.multiplayer.active
  }

  // ---------------------------------------------------------- power-ups

  datatype Outcome = Ignored | InsufficientPoints | Used

  /** The guards of `usePowerup`, in order. */
  function PowerupOutcome(s: State, k: Kind): (o: Outcome)
    requires k in s.powerups
    ensures o == Used <==> Ready(s.powerups[k]) && s.started && s.score >= s.powerups[k].cost
  {
    var p := s.powerups[k];
    if !p.available || p.cooldown > 0 || !s.started then Ignored
    else if s.score < p.cost then InsufficientPoints
    else Used
  }

  /** The input `skipTurn` fills in: the rest of the pattern, so that the
      last index matches and completes the round. */
  function Filled(s: State): (r: State)
    requires |s.userPattern| < |s.gamePattern|
    ensures r.userPattern == s.userPattern + s.gamePattern[|s.userPattern|..]
    ensures |r.userPattern| == |r.gamePattern| && RoundDue(r, |r.gamePattern| - 1)
    ensures r.(userPattern := s.userPattern) == s
  {
    var r := s.(userPattern := s.userPattern + s.gamePattern[|s.userPattern|..]);
    assert r.userPattern[|s.gamePattern| - 1] == s.gamePattern[|s.gamePattern| - 1];
    r
  }

  /** `skipTurn`: when input is missing, the rest of the pattern is filled in
      and the last index is checked, which always completes the round. */
  function SkipTurn(s: State): (r: State)
    ensures |s.userPattern| >= |s.gamePattern| ==> r == s
    ensures |s.userPattern| < |s.gamePattern| ==>
              && r == CheckAnswer(Filled(s), |s.gamePattern| - 1)
              && r.score == s.score + RoundPoints(Bonus(s.difficulty), s.combo + 1, s.doublePointsActive)
              && r.streak == s.streak + 1 && r.combo == s.combo + 1
    ensures r.powerups == s.powerups && r.gamePattern == s.gamePattern
    ensures r.shieldActive == s.shieldActive && r.doublePointsActive == s.doublePointsActive
  {
    if |s.userPattern| < |s.gamePattern| then Hit(Filled(s), |s.gamePattern| - 1) else s
  }

  lemma SkipTurnKeepsValid(s: State)
    requires Valid(s)
    ensures Valid(SkipTurn(s))
  {
    if |s.userPattern| < |s.gamePattern| {
      ValidWhen(s, Filled(s));
      HitKeepsValid(Filled(s), |s.gamePattern| - 1);
    }
  }

  /** `showHint`: the colour highlighted, the next one expected, when input is missing. */
  function HintColor(s: State): (c: Option<Color>)
    ensures c.Some? <==> |s.userPattern| < |s.gamePattern|
    ensures c.Some? ==> c.value == s.gamePattern[|s.userPattern|]
  {
    if |s.userPattern| < |s.gamePattern| then Some(s.gamePattern[|s.userPattern|]) else None
  }

  /** The effect of a power-up on the game state once it is paid for: skip
      completes the turn, shield and double points raise their flag, and slow
      time, hint and reveal only act on playback speed and the display. */
  function Effect(s: State, k: Kind): (r: State)
    ensures r.powerups == s.powerups && r.gamePattern == s.gamePattern
    ensures k == Skip ==> r == SkipTurn(s)
    ensures k != Skip ==> r.(shieldActive := s.shieldActive, doublePointsActive := s.doublePointsActive) == s
    ensures r.shieldActive == (s.shieldActive || k == Shield)
    ensures r.doublePointsActive == (s.doublePointsActive || k == Double)
  {
    match k
    case Skip => SkipTurn(s)
    case Shield => s.(shieldActive := true)
    case Double => s.(doublePointsActive := true)
    case _ => s
  }

  lemma EffectKeepsValid(s: State, k: Kind)
    requires Valid(s)
    ensures Valid(Effect(s, k))
  {
    if k == Skip {
      SkipTurnKeepsValid(s);
    } else {
      ValidWhen(s, Effect(s, k));
    }
  }

  /** A state that differs from a valid one only in a well-formed power-up table is valid. */
  lemma ArmedValid(e: State, r: State)
    requires Valid(e) && r.(powerups := e.powerups) == e && TableWellFormed(r.powerups)
    ensures Valid(r)
  {
  }

  /** The paid-for branch of `usePowerup`: the effect, then the power-up
      starts cooling down. */
  function Activate(paid: State, k: Kind): (r: State)
    requires k in paid.powerups
    ensures r.powerups == paid.powerups[k := Arm(paid.powerups[k])]
    ensures r.(powerups := paid.powerups) == Effect(paid, k)
  {
    var e := Effect(paid, k);
    e.(powerups := e.powerups[k := Arm(paid.powerups[k])])
  }

  lemma ActivateKeepsValid(paid: State, k: Kind)
    requires Valid(paid) && k in paid.powerups
    ensures Valid(Activate(paid, k))
  {
    EffectKeepsValid(paid, k);
    ArmKeepsWellFormed(k, paid.powerups[k]);
    RearmKeepsWellFormed(paid.powerups, k, Arm(paid.powerups[k]));
    ArmedValid(Effect(paid, k), Activate(paid, k));
  }

  /** The state once the power-up's price is paid. */
  function Paid(s: State, k: Kind): (r: State)
    requires k in s.powerups
    ensures r.score == s.score - s.powerups[k].cost && r.(score := s.score) == s
  {
    s.(score := s.score - s.powerups[k].cost)
  }

  /** `usePowerup(k)`: a no-op unless the guards pass; otherwise the cost is
      paid, the effect applied, and the power-up starts cooling down. */
  function UsePowerup(s: State, k: Kind): (r: State)
    requires k in s.powerups
    ensures PowerupOutcome(s, k) != Used ==> r == s
    ensures PowerupOutcome(s, k) == Used ==>
              && r.powerups == s.powerups[k := Arm(s.powerups[k])] && !Ready(r.powerups[k])
              && r.(powerups := s.powerups) == Effect(Paid(s, k), k)
  {
    if PowerupOutcome(s, k) != Used then s
    else Activate(Paid(s, k), k)
  }

  /** A successful use costs exactly the power-up's price; a skip that fills
      in missing input then scores the completed round. */
  lemma UsePowerupScore(s: State, k: Kind)
    requires k in s.powerups && PowerupOutcome(s, k) == Used
    ensures var r := UsePowerup(s, k);
            && (k != Skip || |s.userPattern| >= |s.gamePattern| ==> r.score == s.score - s.powerups[k].cost)
            && (k == Skip && |s.userPattern| < |s.gamePattern| ==>
                  r.score == s.score - s.powerups[k].cost + RoundPoints(Bonus(s.difficulty), s.combo + 1, s.doublePointsActive))
  {
    var paid := Paid(s, k);
    var e := Effect(paid, k);
    assert UsePowerup(s, k) == Activate(paid, k);
    assert Activate(paid, k).score == e.score;
    assert paid.score == s.score - s.powerups[k].cost;
    if k == Skip {
      assert e == SkipTurn(paid);
      assert paid.combo == s.combo && paid.difficulty == s.difficulty && paid.doublePointsActive == s.doublePointsActive;
      assert paid.userPattern == s.userPattern && paid.gamePattern == s.gamePattern;
    } else {
      assert e.(shieldActive := paid.shieldActive, doublePointsActive := paid.doublePointsActive) == paid;
    }
  }

  /** Using a power-up keeps the state valid; in particular the score never
      goes negative, since the cost is only paid when the score covers it. */
  lemma UsePowerupKeepsValid(s: State, k: Kind)
    requires Valid(s) && k in s.powerups
    ensures Valid(UsePowerup(s, k))
  {
    if PowerupOutcome(s, k) == Used {
      var paid := Paid(s, k);
      ValidWhen(s, paid);
      ActivateKeepsValid(paid, k);
      assert UsePowerup(s, k) == Activate(paid, k);
    }
  }

  /** One run of the cooldown interval of `k`, which is alive while the cooldown is positive. */
  function CooldownTick(s: State, k: Kind): (r: State)
    requires k in s.powerups && s.powerups[k].cooldown > 0
    ensures k in r.powerups && r.powerups[k].cooldown == s.powerups[k].cooldown - 1
    ensures r.powerups[k].available == (r.powerups[k].cooldown == 0 || s.powerups[k].available)
    ensures r.powerups.Keys == s.powerups.Keys
    ensures forall j :: j in s.powerups && j != k ==> r.powerups[j] == s.powerups[j]
    ensures r.(powerups := s.powerups) == s
  {
    s.(powerups := s.powerups[k := Tick(s.powerups[k])])
  }

  /** A cooldown run keeps the invariant: the power-up becomes available
      exactly when its cooldown reaches 0. */
  lemma CooldownTickKeepsValid(s: State, k: Kind)
    requires k in s.powerups && s.powerups[k].cooldown > 0 && Valid(s)
    ensures var r := CooldownTick(s, k);
            Valid(r) && (r.powerups[k].available <==> r.powerups[k].cooldown == 0)
  {
    TickKeepsWellFormed(k, s.powerups[k]);
  }

  /** The interval keeps running while the cooldown is still positive. */
  predicate CooldownContinues(s: State, k: Kind)
    requires k in s.powerups
  {
    s.powerups[k].cooldown > 0
  }

  /** The shield's 15-second expiry. */
  function ShieldExpires(s: State): (r: State)
    ensures !r.shieldActive && r.(shieldActive := s.shieldActive) == s
    ensures Valid(s) ==> Valid(r)
  {
    s.(shieldActive := false)
  }

  /** The double-points 20-second expiry. */
  function DoublePointsExpire(s: State): (r: State)
    ensures !r.doublePointsActive && r.(doublePointsActive := s.doublePointsActive) == s
    ensures Valid(s) ==> Valid(r)
  {
    s.(doublePointsActive := false)
  }

  // ------------------------------------------------------- speedrun tick

  /** One run of the speedrun interval: a second less, and game over when the
      time is up. It neither looks at the pause flag nor stops the game. */
  function SpeedrunTick(s: State): (r: State)
    ensures r.timeRemaining == s.timeRemaining - 1
    ensures r.gameOver == (s.gameOver || r.timeRemaining <= 0)
    ensures r.(timeRemaining := s.timeRemaining, gameOver := s.gameOver) == s
    ensures Valid(s) ==> Valid(r)
  {
    var t := s.timeRemaining - 1;
    if t <= 0 then s.(timeRemaining := t, gameOver := true) else s.(timeRemaining := t)
  }

  /** The interval is cleared once the time is up or the game is no longer started. */
  predicate SpeedrunContinues(s: State)
  {
    !(s.timeRemaining <= 0 || !s.started)
  }

  // --------------------------------------------------------- AI opponent

  /** `aiMove`: unless the AI is off or the game over, the AI starts thinking
      and its answer is scheduled. */
  function AiMove(s: State): (r: State)
    ensures !s.aiOpponent.enabled || s.gameOver ==> r == s
    ensures s.aiOpponent.enabled && !s.gameOver ==>
              r == s.(aiOpponent := s.aiOpponent.(thinking := true))
    ensures Valid(s) ==> Valid(r)
  {
    if !s.aiOpponent.enabled || s.gameOver then s
    else s.(aiOpponent := s.aiOpponent.(thinking := true))
  }

  predicate AiAnswerScheduled(s: State)
  {
    s.aiOpponent.enabled && !s.gameOver
  }

  /** `Math.floor(roll * n)` for a roll in [0, 1): an index below `n`. */
  function RandomIndex(roll: real, n: nat): (i: nat)
    requires 0.0 <= roll < 1.0 && n > 0
    ensures i < n
  {
    var x := roll * n as real;
    assert 0.0 <= x < n as real by {
      assert roll * n as real < 1.0 * n as real;
    }
    x.Floor
  }

  /** The colour the AI expects next, `gamePattern[aiOpponent.level]`, if there is one. */
  function AiTarget(s: State): Option<Color>
  {
    var l := s.aiOpponent.level;
    if 0 <= l < |s.gamePattern| then Some(s.gamePattern[l]) else None
  }

  /** The AI errs when its error roll exceeds its accuracy and the pattern has more than two colours. */
  predicate AiErrs(s: State, errorRoll: real)
  {
    errorRoll > s.aiOpponent.difficulty && |s.gamePattern| > 2
  }

  /** The AI's choice: a colour other than the target when it errs, else the
      target, else (no target) a random colour. */
  function AiChoice(s: State, errorRoll: real, choiceRoll: real): (c: Color)
    requires 0.0 <= choiceRoll < 1.0
    ensures Some(c) == AiTarget(s) <==> AiTarget(s).Some? && !AiErrs(s, errorRoll)
  {
    if AiErrs(s, errorRoll) then
      var wrong := OtherColors(AiTarget(s));
      wrong[RandomIndex(choiceRoll, |wrong|)]
    else if AiTarget(s).Some? then AiTarget(s).value
    else ButtonColors[RandomIndex(choiceRoll, 4)]
  }

  /** The delayed body of `aiMove`: a right choice scores 10 and advances the
      AI one step, a wrong one sends it back to the start. */
  function AiTurn(s: State, errorRoll: real, choiceRoll: real): (r: State)
    requires 0.0 <= choiceRoll < 1.0
    ensures AiTarget(s).Some? && !AiErrs(s, errorRoll) ==>
              r.aiOpponent == s.aiOpponent.(score := s.aiOpponent.score + 10,
                                             level := s.aiOpponent.level + 1, thinking := false)
    ensures !(AiTarget(s).Some? && !AiErrs(s, errorRoll)) ==>
              r.aiOpponent == s.aiOpponent.(level := 0, thinking := false)
    ensures r.(aiOpponent := s.aiOpponent) == s
    ensures Valid(s) ==> Valid(r)
  {
    s.(aiOpponent := Answered(s.aiOpponent, Some(AiChoice(s, errorRoll, choiceRoll)) == AiTarget(s)))
  }

  /** The AI's record after its answer: 10 points and one step on for a right
      choice, back to the start for a wrong one. */
  function Answered(ai: AiOpponent, right: bool): (r: AiOpponent)
    ensures right ==> r == ai.(score := ai.score + 10, level := ai.level + 1, thinking := false)
    ensures !right ==> r == ai.(level := 0, thinking := false)
  {
    (if right then ai.(score := ai.score + 10, level := ai.level + 1) else ai.(level := 0)).(thinking := false)
  }

  // ------------------------------------------------- settings and patterns

  function SelectMode(s: State, m: Mode): (r: State)
    ensures r.gameMode == m && r.(gameMode := s.gameMode) == s
    ensures Valid(s) ==> Valid(r)
  {
    s.(gameMode := m)
  }

  function SelectDifficulty(s: State, d: Difficulty): (r: State)
    ensures r.difficulty == d && r.(difficulty := s.difficulty) == s
    ensures Valid(s) ==> Valid(r)
  {
    s.(difficulty := d)
  }

  /** `startRecording`: recording from an empty list of moves. */
  function StartRecording(s: State): (r: State)
    ensures r.patternRecorder == s.patternRecorder.(recording := true, currentRecording := [])
    ensures r.(patternRecorder := s.patternRecorder) == s
    ensures Valid(s) ==> Valid(r)
  {
    s.(patternRecorder := s.patternRecorder.(recording := true, currentRecording := []))
  }

  /** `savePattern(name)`: the recorded moves are appended under `name`. */
  function SavePattern(s: State, name: string, now: int): (r: State)
    ensures var rec := s.patternRecorder;
            r.patternRecorder == rec.(savedPatterns := Save(rec.savedPatterns, name, rec.currentRecording,
                                                             now, s.difficulty, s.gameMode))
    ensures r.(patternRecorder := s.patternRecorder) == s
    ensures Valid(s) ==> Valid(r)
  {
    var rec := s.patternRecorder;
    s.(patternRecorder := rec.(savedPatterns := Save(rec.savedPatterns, name, rec.currentRecording,
                                                    now, s.difficulty, s.gameMode)))
  }

  /** `stopRecording` and the name prompt: the pattern is saved only for a
      non-empty answer (a cancelled prompt gives no answer). */
  function StopRecording(s: State, answer: Option<string>, now: int): (r: State)
    ensures !r.patternRecorder.recording
    ensures answer.Some? && answer.value != "" ==>
              r == SavePattern(s.(patternRecorder := s.patternRecorder.(recording := false)), answer.value, now)
    ensures !(answer.Some? && answer.value != "") ==>
              r == s.(patternRecorder := s.patternRecorder.(recording := false))
    ensures Valid(s) ==> Valid(r)
  {
    var stopped := s.(patternRecorder := s.patternRecorder.(recording := false));
    if answer.Some? && answer.value != "" then SavePattern(stopped, answer.value, now) else stopped
  }

  function DeletePattern(s: State, index: int, confirmed: bool): (r: State)
    ensures r.patternRecorder.savedPatterns == Delete(s.patternRecorder.savedPatterns, index, confirmed)
    ensures r.(patternRecorder := s.patternRecorder) == s
    ensures r.patternRecorder.(savedPatterns := s.patternRecorder.savedPatterns) == s.patternRecorder
    ensures Valid(s) ==> Valid(r)
  {
    var rec := s.patternRecorder;
    s.(patternRecorder := rec.(savedPatterns := Delete(rec.savedPatterns, index, confirmed)))
  }

  function LoadSharedPattern(s: State, name: string, colors: seq<Color>,
                             difficulty: Option<Difficulty>, now: int): (r: State)
    ensures r.patternRecorder.savedPatterns == LoadShared(s.patternRecorder.savedPatterns, name, colors, difficulty, now)
    ensures r.(patternRecorder := s.patternRecorder) == s
    ensures r.patternRecorder.(savedPatterns := s.patternRecorder.savedPatterns) == s.patternRecorder
    ensures Valid(s) ==> Valid(r)
  {
    var rec := s.patternRecorder;
    s.(patternRecorder := rec.(savedPatterns := LoadShared(rec.savedPatterns, name, colors, difficulty, now)))
  }

  // ----------------------------------------------------------- voice

  /** `handleVoiceCommand`: the first matching key's action, or nothing. */
  function VoiceCommand(s: State, text: string, pick: nat, reactionTime: int, now: int): (r: State)
    requires pick < 4
    ensures Voice.Classify(text) == None ==> r == s
    ensures Voice.Classify(text) == Some(Voice.Start) ==> r == Start(s, pick)
    ensures Voice.Classify(text) == Some(Voice.Pause) ==> r == Pause(s)
    ensures Voice.Classify(text) == Some(Voice.Reset) ==> r == Reset(s)
    ensures Voice.Classify(text).Some? && Voice.Classify(text).value.Press? ==>
              r == Click(s, Voice.Classify(text).value.color, reactionTime, now)
    ensures Valid(s) ==> Valid(r)
  {
    match Voice.Classify(text)
    case None => s
    case Some(Start) => Start(s, pick)
    case Some(Pause) => Pause(s)
    case Some(Reset) => Reset(s)
    case Some(Press(c)) => Click(s, c, reactionTime, now)
  }
}
