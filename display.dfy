/** The pure arithmetic behind the game's displays: the player rank, the
    speedrun clock, the progress bar and theme cycling. */
module Display {
  import opened Rules

  // ---------------------------------------------------------------- rank

  datatype Rank = Rookie | Novice | Intermediate | Advanced | ExpertRank | Master | Grandmaster

  /** The score thresholds of the ranks above Rookie, in increasing order. */
  const Thresholds: seq<int> := [100, 500, 1000, 2000, 3000, 5000]

  /** The position of a rank on the ladder, Rookie being 0. */
  function Tier(r: Rank): nat
  {
    match r
    case Rookie => 0
    case Novice => 1
    case Intermediate => 2
    case Advanced => 3
    case ExpertRank => 4
    case Master => 5
    case Grandmaster => 6
  }

  /** `calculatePlayerRank`: the thresholds are tried from the highest down.
      The rank reached is above step `i` of the ladder exactly when the high
      score has reached the `i`-th threshold. */
  function PlayerRank(highScore: int): (r: Rank)
    ensures forall i :: 0 <= i < |Thresholds| ==> (Tier(r) > i <==> highScore >= Thresholds[i])
  {
    if highScore >= 5000 then Grandmaster
    else if highScore >= 3000 then Master
    else if highScore >= 2000 then ExpertRank
    else if highScore >= 1000 then Advanced
    else if highScore >= 500 then Intermediate
    else if highScore >= 100 then Novice
    else Rookie
  }

  /** Reference definition: the number of thresholds a score has reached. */
  function Reached(ts: seq<int>, score: int): nat
    decreases |ts|
  {
    if ts == [] then 0 else (if score >= ts[0] then 1 else 0) + Reached(ts[1..], score)
  }

  lemma {:induction false} ReachedMonotone(ts: seq<int>, s1: int, s2: int)
    requires s1 <= s2
    ensures Reached(ts, s1) <= Reached(ts, s2)
    decreases |ts|
  {
    if ts != [] {
      ReachedMonotone(ts[1..], s1, s2);
    }
  }

  /** The rank's tier is the number of thresholds reached. */
  lemma RankCountsThresholds(highScore: int)
    ensures Tier(PlayerRank(highScore)) == Reached(Thresholds, highScore)
  {
  }

  /** A higher score never gives a lower rank. */
  lemma RankMonotone(s1: int, s2: int)
    requires s1 <= s2
    ensures Tier(PlayerRank(s1)) <= Tier(PlayerRank(s2))
  {
    RankCountsThresholds(s1);
    RankCountsThresholds(s2);
    ReachedMonotone(Thresholds, s1, s2);
  }

  // ------------------------------------------------------- speedrun clock

  function DigitChar(d: nat): char
    requires d < 10
  {
    ['0', '1', '2', '3', '4', '5', '6', '7', '8', '9'][d]
  }

  predicate IsDigit(c: char)
  {
    '0' <= c <= '9'
  }

  function DigitValue(c: char): int
  {
    c as int - '0' as int
  }

  /** `n.toString()` for a non-negative integer: its decimal digits, no leading zeros. */
  function NatToString(n: nat): (s: string)
    ensures s != [] && AllDigits(s)
    ensures n < 10 <==> |s| == 1
  {
    if n < 10 then [DigitChar(n)] else NatToString(n / 10) + [DigitChar(n % 10)]
  }

  /** `n.toString()` for any integer: a minus sign before the digits of a negative number. */
  function IntToString(n: int): string
  {
    if n < 0 then "-" + NatToString(-n) else NatToString(n)
  }

  /** `s.padStart(2, '0')`. */
  function PadStart2(s: string): (p: string)
    ensures |p| == if |s| < 2 then 2 else |s|
  {
    if |s| == 0 then "00" else if |s| == 1 then "0" + s else s
  }

  /** Padding keeps `s` at the end and puts only '0' before it. */
  lemma PadStart2Pads(s: string)
    ensures var p := PadStart2(s);
            p[|p| - |s|..] == s && forall i :: 0 <= i < |p| - |s| ==> p[i] == '0'
  {
  }

  /** JavaScript's `%`: the remainder takes the sign of the dividend. */
  function JsRem(a: int, b: int): int
    requires b > 0
  {
    if a >= 0 then a % b else -((-a) % b)
  }

  /** The `m:ss` text of the speedrun display: `Math.floor(t / 60)`, a colon,
      and `t % 60` padded to two characters. Dafny's `/` with a positive divisor
      is already the floor. */
  function FormatTime(t: int): string
  {
    IntToString(t / 60) + ":" + PadStart2(IntToString(JsRem(t, 60)))
  }

  predicate AllDigits(s: string)
  {
    forall i :: 0 <= i < |s| ==> IsDigit(s[i])
  }

  /** The value of a string of decimal digits. */
  function ValueOf(s: string): int
  {
    if s == [] then 0 else 10 * ValueOf(s[..|s| - 1]) + DigitValue(s[|s| - 1])
  }

  lemma {:induction false} ValueOfNatToString(n: nat)
    ensures ValueOf(NatToString(n)) == n
  {
    if n >= 10 {
      var s := NatToString(n);
      assert s[..|s| - 1] == NatToString(n / 10);
      ValueOfNatToString(n / 10);
    }
  }

  /** Reads back an `m:ss` text: digits, a colon, then exactly two digits. */
  function ReadTime(s: string): Option<int>
  {
    if |s| >= 4 && s[|s| - 3] == ':' && AllDigits(s[..|s| - 3]) && AllDigits(s[|s| - 2..])
    then Some(60 * ValueOf(s[..|s| - 3]) + ValueOf(s[|s| - 2..]))
    else None
  }

  /** Reading back a text assembled from digits, a colon and two digits. */
  lemma ReadAssembled(m: string, p: string)
    requires m != [] && AllDigits(m)
    requires |p| == 2 && AllDigits(p)
    ensures ReadTime(m + [':'] + p) == Some(60 * ValueOf(m) + ValueOf(p))
  {
    var s := m + [':'] + p;
    assert s[..|s| - 3] == m;
    assert s[|s| - 2..] == p;
    assert s[|s| - 3] == ':';
  }

  /** The seconds field: two digits that read back to the seconds. */
  lemma SecondsField(n: nat)
    requires n < 60
    ensures var p := PadStart2(NatToString(n));
            |p| == 2 && AllDigits(p) && ValueOf(p) == n
  {
    var d := NatToString(n);
    var p := PadStart2(d);
    ValueOfNatToString(n);
    if |d| == 1 {
      assert p == ['0', d[0]];
      assert p[..1] == ['0'];
      assert ValueOf(p) == 10 * ValueOf(['0']) + DigitValue(d[0]);
      assert [d[0]][..0] == [];
      assert ValueOf(d) == DigitValue(d[0]);
    }
  }

  /** Minutes and seconds written as the clock writes them read back to their value. */
  lemma FieldsReadBack(q: nat, r: nat, m: string, p: string)
    requires r < 60 && m == NatToString(q) && p == PadStart2(NatToString(r))
    ensures ReadTime(m + [':'] + p) == Some(60 * q + r)
  {
    ValueOfNatToString(q);
    SecondsField(r);
    ReadAssembled(m, p);
  }

  /** For a non-negative remaining time the text is the minutes written
      without leading zeros, a colon and exactly two digits holding the
      seconds below 60, and it reads back to the same number of seconds. */
  lemma FormatTimeRoundTrip(t: int)
    requires t >= 0
    ensures var s := FormatTime(t);
            && |s| >= 4 && s[|s| - 3] == ':'
            && s[..|s| - 3] == NatToString(t / 60)
            && AllDigits(s[|s| - 2..]) && ValueOf(s[|s| - 2..]) == t % 60 < 60
    ensures ReadTime(FormatTime(t)) == Some(t)
  {
    var q, r := t / 60, t % 60;
    var m, p := NatToString(q), PadStart2(NatToString(r));
    var s := m + [':'] + p;
    assert FormatTime(t) == s;
    SecondsField(r);
    assert s[..|s| - 3] == m;
    assert s[|s| - 2..] == p;
    FieldsReadBack(q, r, m, p);
  }

  /** Two speedrun intervals running at once can take the time below 0; the
      clock then shows a minus sign in both fields, which no longer reads as `m:ss`. */
  lemma NegativeClock()
    ensures FormatTime(-1) == "-1:-1"
    ensures ReadTime(FormatTime(-1)) == None
  {
    assert -1 / 60 == -1 && JsRem(-1, 60) == -1;
    assert NatToString(1) == "1";
    assert IntToString(-1) == "-1";
    assert PadStart2("-1") == "-1";
    assert !IsDigit('-');
  }

  // -------------------------------------------------------------- progress

  /** The progress bar width, `Math.min((level / 20) * 100, 100)` percent. */
  function Progress(level: int): real
  {
    var pct := (level as real / 20.0) * 100.0;
    if pct < 100.0 then pct else 100.0
  }

  /** The bar grows by 5 points a level and is full from level 20 on. */
  lemma ProgressIsFivePerLevel(level: int)
    ensures Progress(level) == if level < 20 then 5.0 * level as real else 100.0
  {
  }

  // ---------------------------------------------------------------- themes

  const Themes: seq<string> := ["dark", "light", "neon"]

  /** `themes.indexOf(theme)`: the first position, or -1 when absent. */
  function IndexOf(ts: seq<string>, t: string): (i: int)
    ensures -1 <= i < |ts|
    decreases |ts|
  {
    if ts == [] then -1
    else if ts[0] == t then 0
    else var r := IndexOf(ts[1..], t); if r == -1 then -1 else r + 1
  }

  /** The index found is the first occurrence, and -1 means absent. */
  lemma {:induction false} IndexOfIsFirst(ts: seq<string>, t: string)
    ensures var i := IndexOf(ts, t);
            && (i >= 0 ==> ts[i] == t && forall j :: 0 <= j < i ==> ts[j] != t)
            && (i == -1 <==> t !in ts)
    decreases |ts|
  {
    if ts != [] && ts[0] != t {
      IndexOfIsFirst(ts[1..], t);
      assert forall j :: 1 <= j < |ts| ==> ts[j] == ts[1..][j - 1];
    }
  }

  /** The theme toggle and the right swipe. */
  function NextTheme(t: string): (n: string)
    ensures n in Themes
  {
    Themes[(IndexOf(Themes, t) + 1) % |Themes|]
  }

  /** The left swipe. */
  function PrevTheme(t: string): (p: string)
    ensures p in Themes
  {
    Themes[(IndexOf(Themes, t) - 1 + |Themes|) % |Themes|]
  }

  /** The three theme names are different, so each one's index is its position. */
  lemma ThemeIndex(k: nat)
    requires k < |Themes|
    ensures IndexOf(Themes, Themes[k]) == k
  {
  }

  /** From theme `k` the toggle moves to theme `k + 1` and the left swipe to
      theme `k - 1`, both modulo 3. */
  lemma StepsFrom(k: nat)
    requires k < |Themes|
    ensures NextTheme(Themes[k]) == Themes[(k + 1) % 3]
    ensures PrevTheme(Themes[k]) == Themes[(k + 2) % 3]
  {
    ThemeIndex(k);
  }

  /** On each of the known themes the two directions undo each other. */
  lemma ThemeStepsInvert(k: nat)
    requires k < |Themes|
    ensures PrevTheme(NextTheme(Themes[k])) == Themes[k]
    ensures NextTheme(PrevTheme(Themes[k])) == Themes[k]
  {
    ThemeTable();
  }

  /** Each step changes the theme. */
  lemma ThemeStepMoves(k: nat)
    requires k < |Themes|
    ensures NextTheme(Themes[k]) != Themes[k] && PrevTheme(Themes[k]) != Themes[k]
  {
    StepsFrom(k);
    assert Themes[0] != Themes[1] && Themes[1] != Themes[2] && Themes[0] != Themes[2];
  }

  /** The toggle goes dark, light, neon and back to dark; the left swipe the other way. */
  lemma ThemeTable()
    ensures NextTheme("dark") == "light" && NextTheme("light") == "neon" && NextTheme("neon") == "dark"
    ensures PrevTheme("dark") == "neon" && PrevTheme("light") == "dark" && PrevTheme("neon") == "light"
  {
    StepsFrom(0);
    StepsFrom(1);
    StepsFrom(2);
  }

  /** Three steps in either direction return to the start. */
  lemma ThemeCycleOfThree(k: nat)
    requires k < |Themes|
    ensures NextTheme(NextTheme(NextTheme(Themes[k]))) == Themes[k]
    ensures PrevTheme(PrevTheme(PrevTheme(Themes[k]))) == Themes[k]
  {
    ThemeTable();
  }

  /** An unknown stored theme has index -1, so the next theme is "dark"
      and the previous one is "light". */
  lemma UnknownTheme(t: string)
    requires t !in Themes
    ensures NextTheme(t) == "dark" && PrevTheme(t) == "light"
  {
  }
}
