/** The voice-command classifier: the first key of the command table, in
    table order, that occurs anywhere in the recognised text. */
module Voice {
  import opened Rules

  datatype Command = Start | Pause | Reset | Press(color: Color)

  /** The keys of `voiceCommands`, in insertion order, and the action of each. */
  const Keys: seq<string> := ["start", "pause", "reset", "green", "red", "yellow", "blue"]
  const Commands: seq<Command> :=
    [Start, Pause, Reset, Press(Green), Press(Red), Press(Yellow), Press(Blue)]

  /** `text.includes(key)`: does `key` occur as a contiguous part of `text`? */
  function Includes(text: string, key: string): bool
    decreases |text|
  {
    if |text| < |key| then false
    else text[..|key|] == key || Includes(text[1..], key)
  }

  ghost predicate OccursAt(text: string, key: string, k: int)
  {
    0 <= k && k + |key| <= |text| && text[k..k + |key|] == key
  }

  lemma SliceOfTail(text: string, k: nat, n: nat)
    requires 1 + k + n <= |text|
    ensures text[1..][k..k + n] == text[k + 1..k + 1 + n]
  {
    var a, b := text[1..][k..k + n], text[k + 1..k + 1 + n];
    forall i | 0 <= i < n ensures a[i] == b[i] {
      assert a[i] == text[1..][k + i] == text[k + 1 + i];
    }
  }

  /** The recursive search agrees with the definition of a substring occurrence. */
  lemma {:induction false} IncludesIff(text: string, key: string)
    ensures Includes(text, key) <==> exists k :: OccursAt(text, key, k)
    decreases |text|
  {
    if key == [] {
      assert OccursAt(text, key, 0);
    } else if |text| >= |key| {
      IncludesIff(text[1..], key);
      if text[..|key|] == key {
        assert text[0..0 + |key|] == key;
        assert OccursAt(text, key, 0);
      }
      if Includes(text[1..], key) {
        var k :| OccursAt(text[1..], key, k);
        SliceOfTail(text, k, |key|);
        assert OccursAt(text, key, k + 1);
      }
      if k :| OccursAt(text, key, k) {
        if k == 0 {
          assert text[..|key|] == text[0..0 + |key|] == key;
        } else {
          SliceOfTail(text, k - 1, |key|);
          assert OccursAt(text[1..], key, k - 1);
        }
      }
    } else {
      if k :| OccursAt(text, key, k) {
        assert false;
      }
    }
  }

  /** The loop over the table from entry `i` on, stopping at the first match. */
  function FirstMatch(text: string, i: nat): Option<Command>
    decreases |Keys| - i
  {
    if i >= |Keys| then None
    else if Includes(text, Keys[i]) then Some(Commands[i])
    else FirstMatch(text, i + 1)
  }

  function Classify(text: string): Option<Command>
  {
    FirstMatch(text, 0)
  }

  /** Entry `i` is the first entry of the table whose key occurs in `text`. */
  ghost predicate FirstMatchAt(text: string, i: int)
  {
    0 <= i < |Keys| && Includes(text, Keys[i]) &&
    forall j :: 0 <= j < i ==> !Includes(text, Keys[j])
  }

  lemma {:induction false} FirstMatchSpec(text: string, i: nat)
    requires i <= |Keys|
    requires forall j :: 0 <= j < i ==> !Includes(text, Keys[j])
    ensures FirstMatch(text, i).None? <==> forall j :: i <= j < |Keys| ==> !Includes(text, Keys[j])
    ensures FirstMatch(text, i).Some? ==>
              exists j :: i <= j < |Keys| && FirstMatchAt(text, j) && FirstMatch(text, i) == Some(Commands[j])
    decreases |Keys| - i
  {
    if i < |Keys| {
      if Includes(text, Keys[i]) {
        assert FirstMatchAt(text, i);
      } else {
        FirstMatchSpec(text, i + 1);
      }
    }
  }

  /** The classifier returns the command of the first table entry whose key
      occurs in the text, and nothing when no key occurs in it. */
  lemma ClassifyIsFirstMatch(text: string)
    ensures Classify(text).None? <==> forall j :: 0 <= j < |Keys| ==> !Includes(text, Keys[j])
    ensures forall j :: FirstMatchAt(text, j) ==> Classify(text) == Some(Commands[j])
  {
    FirstMatchSpec(text, 0);
    forall j | FirstMatchAt(text, j) ensures Classify(text) == Some(Commands[j]) {
      var k :| 0 <= k < |Keys| && FirstMatchAt(text, k) && Classify(text) == Some(Commands[k]);
      assert !(k < j) && !(j < k);
    }
  }

  /** A key occurs in any text built around it. */
  lemma IncludesInside(before: string, key: string, after: string)
    ensures Includes(before + key + after, key)
  {
    var text := before + key + after;
    assert text[|before|..|before| + |key|] == key;
    assert OccursAt(text, key, |before|);
    IncludesIff(text, key);
  }

  /** A key whose first letter does not occur in the text does not occur in it. */
  lemma AbsentFirstLetter(text: string, key: string)
    requires key != [] && key[0] !in text
    ensures !Includes(text, key)
  {
    IncludesIff(text, key);
    forall k | 0 <= k && k + |key| <= |text| ensures !OccursAt(text, key, k) {
      assert text[k..k + |key|][0] == text[k];
    }
  }

  /** Table order wins over position in the text: whatever else is said
      before or after it (a "pause", a colour), "start" selects Start. */
  lemma TableOrderWins(before: string, after: string)
    ensures Classify(before + "start" + after) == Some(Start)
  {
    IncludesInside(before, "start", after);
  }

  /** Text in which no key can begin is not a command. */
  lemma NoKeyNoCommand(text: string)
    requires forall i :: 0 <= i < |text| ==> text[i] !in "sprgyb"
    ensures Classify(text) == None
  {
    forall j | 0 <= j < |Keys| ensures !Includes(text, Keys[j]) {
      AbsentFirstLetter(text, Keys[j]);
    }
    ClassifyIsFirstMatch(text);
  }
}
