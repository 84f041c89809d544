/** Value types and the arithmetic rules of the Simon game engine: colours,
    difficulty and mode tables, the accuracy window, and the points formula. */
module Rules {

  datatype Option<T> = None | Some(value: T)

  /** The four pads, in the order of the game's `buttonColors` table. */
  datatype Color = Red | Blue | Green | Yellow

  const ButtonColors: seq<Color> := [Red, Blue, Green, Yellow]

  /** Every colour is one of the four pads. */
  lemma Listed(c: Color)
    ensures c in ButtonColors
  {
  }

  /** `cs.filter(x => x !== c)`: the colours of `cs` other than `c`, in their order. */
  function Without(cs: seq<Color>, c: Color): seq<Color>
  {
    if cs == [] then [] else (if cs[0] == c then [] else [cs[0]]) + Without(cs[1..], c)
  }

  /** `buttonColors.filter(c => c !== target)`: the colours an erring AI may
      choose, each colour other than the target exactly once, in table order. */
  function OtherColors(target: Option<Color>): (r: seq<Color>)
    ensures forall c :: c in r <==> Some(c) != target
    ensures forall i, j :: 0 <= i < j < |r| ==> r[i] != r[j]
    ensures target.Some? ==> |r| == 3 && r == Without(ButtonColors, target.value)
    ensures target.None? ==> r == ButtonColors
  {
    var r := if target.None? then ButtonColors
      else if target.value == Red then [Blue, Green, Yellow]
      else if target.value == Blue then [Red, Green, Yellow]
      else if target.value == Green then [Red, Blue, Yellow]
      else [Red, Blue, Green];
    assert forall c :: c in r <==> Some(c) != target by {
      forall c ensures c in r <==> Some(c) != target {
        Listed(c);
      }
    }
    r
  }

  datatype Difficulty = Easy | Normal | Hard | Expert

  /** The `bonus` column of the difficulty table. */
  function Bonus(d: Difficulty): nat
  {
    match d
    case Easy => 1
    case Normal => 2
    case Hard => 3
    case Expert => 5
  }

  datatype Mode = Classic | Speedrun | Survival | Memory | Multiplayer | Ai

  /** `gameModes.speedrun.timeLimit`, in seconds. */
  const SpeedrunTimeLimit: int := 60
  /** `gameModes.survival.lives`. */
  const SurvivalLives: int := 3
  /** The AI opponent's accuracy, `aiOpponent.difficulty`. */
  const AiAccuracy: real := 0.85

  /** JavaScript's `Math.round`: the nearest integer, halves rounded upwards. */
  function JsRound(x: real): (n: int)
    ensures x - 0.5 < n as real <= x + 0.5
  {
    (x + 0.5).Floor
  }

  /** `reduce((a, b) => a + b, 0)`, a left fold. */
  function Sum(s: seq<int>): int
  {
    if s == [] then 0 else Sum(s[..|s| - 1]) + s[|s| - 1]
  }

  lemma SumAppend(s: seq<int>, x: int)
    ensures Sum(s + [x]) == Sum(s) + x
  {
    assert (s + [x])[..|s|] == s;
  }

  lemma {:induction false} SumTail(s: seq<int>)
    requires s != []
    ensures Sum(s) == s[0] + Sum(s[1..])
  {
    if |s| > 1 {
      SumTail(s[..|s| - 1]);
      assert s[..|s| - 1][1..] == s[1..][..|s[1..]| - 1];
    }
  }

  /** Every entry of the window is a 0 (miss) or a 1 (hit). */
  ghost predicate Bits(w: seq<int>)
  {
    forall i :: 0 <= i < |w| ==> w[i] == 0 || w[i] == 1
  }

  /** The number of hits in a 0/1 window lies between 0 and its length, and
      equals the length exactly when every entry is a hit. */
  lemma {:induction false} SumOfBits(w: seq<int>)
    requires Bits(w)
    ensures 0 <= Sum(w) <= |w|
    ensures Sum(w) == |w| <==> forall i :: 0 <= i < |w| ==> w[i] == 1
  {
    if w != [] {
      var init := w[..|w| - 1];
      assert Bits(init) by {
        forall i | 0 <= i < |init| ensures init[i] == 0 || init[i] == 1 {
          assert init[i] == w[i];
        }
      }
      SumOfBits(init);
      if Sum(w) == |w| {
        forall i | 0 <= i < |w| ensures w[i] == 1 {
          if i < |w| - 1 { assert w[i] == init[i]; }
        }
      }
      if forall i :: 0 <= i < |w| ==> w[i] == 1 {
        assert forall i :: 0 <= i < |init| ==> init[i] == 1 by {
          forall i | 0 <= i < |init| ensures init[i] == 1 { assert init[i] == w[i]; }
        }
      }
    }
  }

  /** Capacity of `analytics.patternAccuracy`. */
  const WindowSize: nat := 100

  /** `patternAccuracy.push(bit)`, then one `shift()` if it has grown past 100 entries. */
  function Record(window: seq<int>, bit: int): (w: seq<int>)
    ensures |window| <= WindowSize ==> |w| <= WindowSize
    ensures w != [] && w[|w| - 1] == bit
    ensures Bits(window) && (bit == 0 || bit == 1) ==> Bits(w)
  {
    var pushed := window + [bit];
    if |pushed| > WindowSize then pushed[1..] else pushed
  }

  /** The last `n` entries of a history (all of it when it is shorter). */
  function Last(h: seq<int>, n: nat): (r: seq<int>)
    ensures |r| == if |h| < n then |h| else n
  {
    if |h| <= n then h else h[|h| - n..]
  }

  /** Recording into a window that holds the last 100 entries of a history
      gives the last 100 entries of the extended history: oldest entries are
      evicted first and the window never exceeds 100 entries. */
  lemma RecordKeepsLastHundred(h: seq<int>, bit: int)
    ensures Record(Last(h, WindowSize), bit) == Last(h + [bit], WindowSize)
  {
    if |h| >= WindowSize {
      var old_w := h[|h| - WindowSize..];
      assert (old_w + [bit])[1..] == (h + [bit])[|h| + 1 - WindowSize..];
    }
  }

  /** `accuracy = (sum / length) * 100` over a non-empty window. */
  function AccuracyOf(w: seq<int>): real
    requires w != []
  {
    (Sum(w) as real / |w| as real) * 100.0
  }

  /** Accuracy is a percentage, and it is 100 exactly when every recorded step was a hit. */
  lemma AccuracyIsPercentage(w: seq<int>)
    requires w != [] && Bits(w)
    ensures 0.0 <= AccuracyOf(w) <= 100.0
    ensures AccuracyOf(w) == 100.0 <==> forall i :: 0 <= i < |w| ==> w[i] == 1
  {
    SumOfBits(w);
    var n := |w| as real;
    var m := Sum(w) as real / n;
    assert m * n == Sum(w) as real;
    assert 0.0 <= m <= 1.0;
    assert m == 1.0 <==> Sum(w) == |w|;
  }

  /** The combo factor of the round-completion formula. */
  function ComboMultiplier(combo: int): real
  {
    if combo >= 10 then 2.0 else if combo >= 5 then 1.5 else 1.0
  }

  /** The factor the double-points power-up applies. */
  function DoubleMultiplier(doubled: bool): real
  {
    if doubled then 2.0 else 1.0
  }

  /** Points for a completed round, `Math.round(10 * bonus * combo factor * double factor)`:
      10, 15 or 20 per bonus unit by combo tier, doubled while double points are active. */
  function RoundPoints(bonus: int, combo: int, doubled: bool): (p: int)
    ensures var tier := if combo >= 10 then 20 * bonus else if combo >= 5 then 15 * bonus else 10 * bonus;
            p == if doubled then 2 * tier else tier
  {
    var base := 10.0 * bonus as real;
    var combined := if combo >= 10 then base * 2.0 else if combo >= 5 then base * 1.5 else base;
    var points := if doubled then combined * 2.0 else combined;
    JsRound(points)
  }

  /** The rounding in the points formula never changes the value: the product
      of the base, the combo factor and the double factor is always whole. */
  lemma RoundingIsExact(bonus: int, combo: int, doubled: bool)
    ensures RoundPoints(bonus, combo, doubled) as real
            == 10.0 * bonus as real * ComboMultiplier(combo) * DoubleMultiplier(doubled)
  {
    var b := bonus as real;
    if combo >= 10 {
      assert 10.0 * b * ComboMultiplier(combo) == 20.0 * b;
    } else if combo >= 5 {
      assert 10.0 * b * ComboMultiplier(combo) == 15.0 * b;
    } else {
      assert 10.0 * b * ComboMultiplier(combo) == 10.0 * b;
    }
  }

  /** The game-over average reaction time: the rounded mean, or 0 with no samples. */
  function AverageReaction(times: seq<int>): (avg: int)
    ensures times == [] ==> avg == 0
    ensures times != [] ==>
      var mean := Sum(times) as real / |times| as real;
      mean - 0.5 < avg as real <= mean + 0.5
  {
    if |times| > 0 then JsRound(Sum(times) as real / |times| as real) else 0
  }

  /** `updateHighScore`: the stored best is replaced only by a strictly larger score. */
  function HighScoreAfter(score: int, highScore: int): (best: int)
    ensures best >= score && best >= highScore
    ensures best == score || best == highScore
  {
    if score > highScore then score else highScore
  }
}
