/** Properties of whole event sequences: what a player sees over several
    clicks, mismatches, power-up uses and timer runs. */
module Properties {
  import opened Rules
  import opened Powerups
  import Session

  /** The worked examples of the round-completion formula: bonus 2 with a
      combo of 10 and double points gives 80; the combo tiers give 10, 15 and
      20 points per bonus unit. */
  lemma PointsExamples()
    ensures RoundPoints(2, 10, true) == 80
    ensures RoundPoints(2, 1, false) == 20 && RoundPoints(2, 5, false) == 30 && RoundPoints(2, 10, false) == 40
  {
  }

  /** A new game on normal difficulty, its one-colour pattern shown, and the
      right colour pressed: one level, a streak of one, and 2 + 20 = 22
      points while the combo carried over from earlier games stays below
      the 1.5 tier and double points are off. */
  lemma FirstRoundOnNormal(s: Session.State, pick: nat, reactionTime: int, now: int)
    requires pick < 4 && s.difficulty == Normal && s.combo < 4 && !s.doublePointsActive
    ensures var r := Session.Click(Session.SequenceShown(Session.Start(s, pick)), ButtonColors[pick], reactionTime, now);
            && r.score == 22 && r.level == 1 && r.streak == 1 && r.combo == s.combo + 1
            && r.started && !r.gameOver
  {
    var st := Session.Start(s, pick);
    Session.StartSetsUpMode(s, pick);
    var p := Session.Prepared(s);
    assert !p.doublePointsActive && p.difficulty == Normal && !p.isPaused && !p.gameOver;
    var shown := Session.SequenceShown(st);
    assert Session.AcceptsInput(shown);
    var pressed := Session.Pressed(shown, ButtonColors[pick], reactionTime, now);
    assert pressed.userPattern == [ButtonColors[pick]] && pressed.gamePattern == [ButtonColors[pick]];
    assert Session.RoundDue(pressed, 0);
  }

  /** Survival mode from three lives and no shield: the first two
      mismatches each cost a life and clear the input, the third ends the game. */
  lemma SurvivalThirdMissEnds(s: Session.State)
    requires s.gameMode == Survival && s.lives == SurvivalLives && !s.shieldActive
    ensures var m1 := Session.Miss(s);
            && m1.lives == 2 && m1.userPattern == [] && m1.gameOver == s.gameOver
    ensures var m2 := Session.Miss(Session.Miss(s));
            && m2.lives == 1 && m2.userPattern == [] && m2.gameOver == s.gameOver
    ensures var m3 := Session.Miss(Session.Miss(Session.Miss(s)));
            && m3.lives == 0 && m3.gameOver && !m3.started && m3.streak == 0
  {
    var m1 := Session.Miss(s);
    assert m1 == Session.Recorded(s, 0).(combo := 0, lives := s.lives - 1, userPattern := []);
    var m2 := Session.Miss(m1);
    assert m2 == Session.Recorded(m1, 0).(combo := 0, lives := m1.lives - 1, userPattern := []);
    assert Session.EndsGame(m2);
  }

  /** A shield absorbs exactly one mismatch: the streak, the lives, the input
      (wrong colour included) and the phase survive, only the combo is lost;
      outside survival the next mismatch then ends the game. */
  lemma ShieldAbsorbsOne(s: Session.State)
    requires s.shieldActive
    ensures var r := Session.Miss(s);
            && !r.shieldActive && r.combo == 0
            && r.userPattern == s.userPattern && r.lives == s.lives && r.streak == s.streak
            && r.gameOver == s.gameOver && r.started == s.started
    ensures s.gameMode != Survival ==> Session.Miss(Session.Miss(s)).gameOver
  {
    var r := Session.Miss(s);
    assert r == Session.Recorded(s, 0).(combo := 0, shieldActive := false);
    assert Session.EndsGame(r) <== s.gameMode != Survival;
  }

  /** A click while the input already covers the whole pattern (the delay
      between a completed round and the next one) is compared past the end
      of the pattern and always counts as a mismatch. */
  lemma LateClickIsMismatch(s: Session.State, color: Color, reactionTime: int, now: int)
    requires Session.AcceptsInput(s) && |s.userPattern| >= |s.gamePattern|
    ensures Session.Click(s, color, reactionTime, now) == Session.Miss(Session.Pressed(s, color, reactionTime, now))
  {
    var p := Session.Pressed(s, color, reactionTime, now);
    assert !Session.Matches(p, |s.userPattern|);
  }

  /** Once a power-up has been used, using it again at once is ignored and
      changes nothing, whatever the score. */
  lemma SecondUseIgnored(s: Session.State, k: Kind)
    requires k in s.powerups && Session.PowerupOutcome(s, k) == Session.Used
    ensures var r := Session.UsePowerup(s, k);
            && k in r.powerups && Session.PowerupOutcome(r, k) == Session.Ignored
            && Session.UsePowerup(r, k) == r
  {
    var r := Session.UsePowerup(s, k);
    assert !Ready(r.powerups[k]);
  }

  /** A skip with input missing always completes the round: the missing
      colours are appended, only the last index is checked, so a wrong colour
      entered earlier (kept after a shield absorbed it) does not matter; one
      more round of points is scored and the next round is due. */
  lemma SkipCompletesRound(s: Session.State)
    requires |s.userPattern| < |s.gamePattern|
    ensures var r := Session.SkipTurn(s);
            && r.userPattern == s.userPattern + s.gamePattern[|s.userPattern|..]
            && |r.userPattern| == |s.gamePattern|
            && r.score == s.score + RoundPoints(Bonus(s.difficulty), s.combo + 1, s.doublePointsActive)
            && Session.RoundDue(Session.Filled(s), |s.gamePattern| - 1)
  {
    var f := Session.Filled(s);
    assert Session.CheckAnswer(f, |s.gamePattern| - 1).userPattern == f.userPattern;
  }

  /** The speedrun countdown runs the same whether or not the game is
      paused, and at the last second it ends the game without clearing `started`. */
  lemma SpeedrunIgnoresPause(s: Session.State)
    ensures Session.SpeedrunTick(s.(isPaused := true)) == Session.SpeedrunTick(s).(isPaused := true)
    ensures Session.SpeedrunTick(s.(isPaused := false)) == Session.SpeedrunTick(s).(isPaused := false)
    ensures s.timeRemaining <= 1 ==>
              Session.SpeedrunTick(s).gameOver && Session.SpeedrunTick(s).started == s.started
              && !Session.SpeedrunContinues(Session.SpeedrunTick(s))
  {
  }

  /** The AI advances exactly when there is a colour to match and it does not
      err; otherwise it starts over. Its score never decreases. */
  lemma AiAdvancesIff(s: Session.State, errorRoll: real, choiceRoll: real)
    requires 0.0 <= choiceRoll < 1.0 && s.aiOpponent.level >= 0
    ensures var r := Session.AiTurn(s, errorRoll, choiceRoll);
            && (r.aiOpponent.level == s.aiOpponent.level + 1 <==>
                  Session.AiTarget(s).Some? && !Session.AiErrs(s, errorRoll))
            && r.aiOpponent.score >= s.aiOpponent.score
  {
  }
}
