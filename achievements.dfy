/** The achievement table and the once-only award loop of `checkAchievements`. */
module Achievements {
  import opened Rules

  datatype Achievement =
    | FirstWin | Level5 | Level10 | Level15 | Level20 | Level30
    | Streak10 | Streak25 | Streak50
    | Score1000 | Score5000 | Score10000
    | ExpertLevel5 | ExpertLevel10
    | Combo5 | Combo10 | Combo20
    | FastReaction | PerfectAccuracy
    | SurvivalMaster | SpeedrunChampion | AiDefeated
    | PatternCreator | VoiceCommander | ThemeExplorer

  /** The rule table, in the order the game evaluates and announces it,
      grouped as the game's source groups it. */
  const Table: seq<Achievement> :=
    LevelRules + StreakRules + ScoreRules + DifficultyRules + ComboRules
    + SkillRules + ModeRules + SpecialRules

  const LevelRules: seq<Achievement> := [FirstWin, Level5, Level10, Level15, Level20, Level30]
  const StreakRules: seq<Achievement> := [Streak10, Streak25, Streak50]
  const ScoreRules: seq<Achievement> := [Score1000, Score5000, Score10000]
  const DifficultyRules: seq<Achievement> := [ExpertLevel5, ExpertLevel10]
  const ComboRules: seq<Achievement> := [Combo5, Combo10, Combo20]
  const SkillRules: seq<Achievement> := [FastReaction, PerfectAccuracy]
  const ModeRules: seq<Achievement> := [SurvivalMaster, SpeedrunChampion, AiDefeated]
  const SpecialRules: seq<Achievement> := [PatternCreator, VoiceCommander, ThemeExplorer]

  /** The part of the game state the rule conditions read. */
  datatype Facts = Facts(
    level: int, streak: int, score: int, combo: int,
    difficulty: Difficulty, mode: Mode,
    reactionTimes: seq<int>, patternAccuracy: seq<int>,
    aiEnabled: bool, aiScore: int,
    savedPatterns: nat, voiceEnabled: bool)

  /** The condition of each rule. */
  predicate Holds(a: Achievement, f: Facts)
  {
    match a
    case FirstWin => f.level == 1
    case Level5 => f.level == 5
    case Level10 => f.level == 10
    case Level15 => f.level == 15
    case Level20 => f.level == 20
    case Level30 => f.level == 30
    case Streak10 => f.streak == 10
    case Streak25 => f.streak == 25
    case Streak50 => f.streak == 50
    case Score1000 => f.score >= 1000
    case Score5000 => f.score >= 5000
    case Score10000 => f.score >= 10000
    case ExpertLevel5 => f.level >= 5 && f.difficulty == Expert
    case ExpertLevel10 => f.level >= 10 && f.difficulty == Expert
    case Combo5 => f.combo == 5
    case Combo10 => f.combo == 10
    case Combo20 => f.combo == 20
    case FastReaction =>
      |f.reactionTimes| >= 10 && Sum(f.reactionTimes) as real / |f.reactionTimes| as real < 300.0
    case PerfectAccuracy =>
      |f.patternAccuracy| >= 20 &&
      forall i :: |f.patternAccuracy| - 20 <= i < |f.patternAccuracy| ==> f.patternAccuracy[i] == 1
    case SurvivalMaster => f.level >= 10 && f.mode == Survival
    case SpeedrunChampion => f.score >= 1000 && f.mode == Speedrun
    case AiDefeated => f.aiEnabled && f.score > f.aiScore && f.level >= 5
    case PatternCreator => f.savedPatterns >= 1
    case VoiceCommander => f.voiceEnabled && f.level >= 3
    case ThemeExplorer => false
  }

  /** The award loop exactly as written: walk the rules in order and push each
      one whose id is not yet in the (growing) earned list and whose condition holds. */
  function Award(rules: seq<Achievement>, f: Facts, earned: seq<Achievement>): seq<Achievement>
    decreases |rules|
  {
    if rules == [] then earned
    else
      var a := rules[0];
      Award(rules[1..], f, if a !in earned && Holds(a, f) then earned + [a] else earned)
  }

  /** Reference definition: the rules of `rules`, in order, that are not in `earned` and hold. */
  function Newly(rules: seq<Achievement>, f: Facts, earned: seq<Achievement>): seq<Achievement>
    decreases |rules|
  {
    if rules == [] then []
    else (if rules[0] !in earned && Holds(rules[0], f) then [rules[0]] else [])
         + Newly(rules[1..], f, earned)
  }

  predicate Distinct(s: seq<Achievement>)
  {
    forall i, j :: 0 <= i < j < |s| ==> s[i] != s[j]
  }

  /** The position of each rule in the table. */
  function Position(a: Achievement): nat
  {
    match a
    case FirstWin => 0 case Level5 => 1 case Level10 => 2 case Level15 => 3
    case Level20 => 4 case Level30 => 5
    case Streak10 => 6 case Streak25 => 7 case Streak50 => 8
    case Score1000 => 9 case Score5000 => 10 case Score10000 => 11
    case ExpertLevel5 => 12 case ExpertLevel10 => 13
    case Combo5 => 14 case Combo10 => 15 case Combo20 => 16
    case FastReaction => 17 case PerfectAccuracy => 18
    case SurvivalMaster => 19 case SpeedrunChampion => 20 case AiDefeated => 21
    case PatternCreator => 22 case VoiceCommander => 23 case ThemeExplorer => 24
  }

  lemma TablePositions()
    ensures |Table| == 25
    ensures forall i :: 0 <= i < |Table| ==> Position(Table[i]) == i
  {
  }

  /** Every rule occurs in the table exactly once. */
  lemma TableIsDistinct()
    ensures Distinct(Table)
    ensures forall a: Achievement :: a in Table
  {
    TablePositions();
    forall a: Achievement ensures a in Table {
      assert Table[Position(a)] == a;
    }
  }

  lemma {:induction false} NewlyProperties(rules: seq<Achievement>, f: Facts, earned: seq<Achievement>)
    ensures forall a :: a in Newly(rules, f, earned) ==> a in rules && a !in earned && Holds(a, f)
    ensures forall a :: a in rules && a !in earned && Holds(a, f) ==> a in Newly(rules, f, earned)
    ensures Distinct(rules) ==> Distinct(Newly(rules, f, earned))
    decreases |rules|
  {
    if rules != [] {
      NewlyProperties(rules[1..], f, earned);
      if Distinct(rules) {
        assert Distinct(rules[1..]) by {
          forall i, j | 0 <= i < j < |rules[1..]| ensures rules[1..][i] != rules[1..][j] {
            assert rules[1..][i] == rules[i + 1] && rules[1..][j] == rules[j + 1];
          }
        }
        assert rules[0] !in rules[1..] by {
          forall i | 0 <= i < |rules[1..]| ensures rules[1..][i] != rules[0] {
            assert rules[1..][i] == rules[i + 1];
          }
        }
      }
      forall a | a in rules && a !in earned && Holds(a, f) ensures a in Newly(rules, f, earned) {
        if a != rules[0] {
          assert a in rules[1..];
        }
      }
    }
  }

  /** With distinct rules, checking each id against the growing list (as the
      code does) is the same as checking it against the list before the loop:
      the loop appends exactly the newly earned ids, in table order. */
  lemma {:induction false} AwardAppendsNewly(rules: seq<Achievement>, f: Facts, earned: seq<Achievement>)
    requires Distinct(rules)
    ensures Award(rules, f, earned) == earned + Newly(rules, f, earned)
    decreases |rules|
  {
    if rules != [] {
      var a := rules[0];
      var rest := rules[1..];
      assert Distinct(rest) by {
        forall i, j | 0 <= i < j < |rest| ensures rest[i] != rest[j] {
          assert rest[i] == rules[i + 1] && rest[j] == rules[j + 1];
        }
      }
      assert a !in rest by {
        forall i | 0 <= i < |rest| ensures rest[i] != a { assert rest[i] == rules[i + 1]; }
      }
      var next := if a !in earned && Holds(a, f) then earned + [a] else earned;
      AwardAppendsNewly(rest, f, next);
      NewlyUnaffected(rest, f, earned, a);
    }
  }

  /** Adding an id that does not occur among the rules does not change which of them are new. */
  lemma {:induction false} NewlyUnaffected(rules: seq<Achievement>, f: Facts, earned: seq<Achievement>, a: Achievement)
    requires a !in rules
    ensures Newly(rules, f, earned + [a]) == Newly(rules, f, earned)
    decreases |rules|
  {
    if rules != [] {
      assert rules[0] in earned + [a] <==> rules[0] in earned;
      NewlyUnaffected(rules[1..], f, earned, a);
    }
  }

  /** Appending distinct ids that are not yet in a distinct list keeps it distinct. */
  lemma DistinctAppend(earned: seq<Achievement>, extra: seq<Achievement>)
    requires Distinct(earned) && Distinct(extra)
    requires forall a :: a in extra ==> a !in earned
    ensures Distinct(earned + extra)
  {
    var r := earned + extra;
    forall i, j | 0 <= i < j < |r| ensures r[i] != r[j] {
      if j >= |earned| {
        assert r[j] == extra[j - |earned|];
        if i >= |earned| {
          assert r[i] == extra[i - |earned|];
        } else {
          assert r[i] == earned[i];
          assert r[j] in extra;
        }
      }
    }
  }

  /** When every rule that holds is already earned, nothing is new. */
  lemma {:induction false} NothingNewWhenAllEarned(rules: seq<Achievement>, f: Facts, earned: seq<Achievement>)
    requires forall a :: a in rules && Holds(a, f) ==> a in earned
    ensures Newly(rules, f, earned) == []
    decreases |rules|
  {
    if rules != [] {
      assert forall a :: a in rules[1..] ==> a in rules;
      NothingNewWhenAllEarned(rules[1..], f, earned);
    }
  }

  /** `checkAchievements`: the earned list after one evaluation of the whole
      table. The loop appends, in table order, exactly the rules that hold and
      were not earned before; each at most once, and never `theme_explorer`. */
  function Check(f: Facts, earned: seq<Achievement>): (r: seq<Achievement>)
    ensures r == earned + Newly(Table, f, earned)
    ensures forall a :: a in Newly(Table, f, earned) ==> a !in earned && Holds(a, f)
    ensures forall a :: a !in earned && Holds(a, f) ==> a in Newly(Table, f, earned)
    ensures ThemeExplorer !in Newly(Table, f, earned)
    ensures Distinct(earned) ==> Distinct(r)
  {
    CheckFacts(f, earned);
    Award(Table, f, earned)
  }

  lemma CheckFacts(f: Facts, earned: seq<Achievement>)
    ensures var n := Newly(Table, f, earned);
      && Award(Table, f, earned) == earned + n
      && (forall a :: a in n ==> a !in earned && Holds(a, f))
      && (forall a :: a !in earned && Holds(a, f) ==> a in n)
      && (Distinct(earned) ==> Distinct(earned + n))
  {
    var n := Newly(Table, f, earned);
    TableIsDistinct();
    AwardAppendsNewly(Table, f, earned);
    NewlyProperties(Table, f, earned);
    if Distinct(earned) {
      DistinctAppend(earned, n);
    }
  }

  /** An earned achievement never fires again: whatever the state, a second
      evaluation adds only ids that the first one had not already recorded. */
  lemma NeverRefires(f1: Facts, f2: Facts, earned: seq<Achievement>)
    ensures var once := Check(f1, earned);
            var twice := Check(f2, once);
            twice[..|once|] == once && forall a :: a in twice[|once|..] ==> a !in once
  {
  }

  /** Evaluating the table twice on the same state adds nothing the second time. */
  lemma CheckIdempotent(f: Facts, earned: seq<Achievement>)
    ensures Check(f, Check(f, earned)) == Check(f, earned)
  {
    var once := Check(f, earned);
    NothingNewWhenAllEarned(Table, f, once);
    assert once + [] == once;
  }
}
