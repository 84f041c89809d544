/** The pattern recorder's list of saved patterns: append on save, splice
    on delete, prepend on loading a shared pattern. */
module Patterns {
  import opened Rules

  /** One recorded button press. A shared pattern's moves carry no reaction time. */
  datatype Move = Move(color: Color, timestamp: int, reactionTime: Option<int>)

  datatype SavedPattern = SavedPattern(
    name: string, sequence: seq<Move>, timestamp: int,
    difficulty: Difficulty, gameMode: Mode, shared: bool)

  /** The colours of a list of moves. */
  function Colors(moves: seq<Move>): (cs: seq<Color>)
    ensures |cs| == |moves| && forall i :: 0 <= i < |moves| ==> cs[i] == moves[i].color
  {
    if moves == [] then [] else [moves[0].color] + Colors(moves[1..])
  }

  /** `savePattern`: the new pattern goes at the end; the earlier ones keep their places. */
  function Save(list: seq<SavedPattern>, name: string, recording: seq<Move>, now: int,
                difficulty: Difficulty, mode: Mode): (r: seq<SavedPattern>)
    ensures |r| == |list| + 1 && r[..|list|] == list
    ensures r[|list|].name == name && r[|list|].sequence == recording && !r[|list|].shared
    ensures r[|list|].difficulty == difficulty && r[|list|].gameMode == mode && r[|list|].timestamp == now
  {
    list + [SavedPattern(name, recording, now, difficulty, mode, false)]
  }

  /** Where `splice(index, 1)` starts: a negative index counts from the end
      (clamped at 0), a non-negative one is clamped at the length. */
  function SpliceStart(index: int, len: nat): (start: nat)
    ensures start <= len
    ensures 0 <= index ==> start == if index < len then index else len
    ensures index < 0 ==> start == if len + index > 0 then len + index else 0
  {
    if index < 0 then (if len + index > 0 then len + index else 0)
    else if index < len then index else len
  }

  /** `splice(index, 1)`: removes the entry at the start position when there is one. */
  function RemoveAt(list: seq<SavedPattern>, index: int): (r: seq<SavedPattern>)
    ensures var start := SpliceStart(index, |list|);
            && (start < |list| ==> |r| == |list| - 1 && r[..start] == list[..start] && r[start..] == list[start + 1..])
            && (start == |list| ==> r == list)
  {
    var start := SpliceStart(index, |list|);
    if start < |list| then list[..start] + list[start + 1..] else list
  }

  /** `deletePattern`: removes the pattern only when the player confirms. */
  function Delete(list: seq<SavedPattern>, index: int, confirmed: bool): (r: seq<SavedPattern>)
    ensures !confirmed ==> r == list
    ensures confirmed && 0 <= index < |list| ==>
              |r| == |list| - 1 && forall i :: 0 <= i < |r| ==> r[i] == if i < index then list[i] else list[i + 1]
    ensures confirmed && index >= |list| ==> r == list
  {
    if confirmed then RemoveAt(list, index) else list
  }

  /** Deleting the pattern just saved gives back the list before the save. */
  lemma DeleteUndoesSave(list: seq<SavedPattern>, name: string, recording: seq<Move>, now: int,
                         difficulty: Difficulty, mode: Mode)
    ensures Delete(Save(list, name, recording, now, difficulty, mode), |list|, true) == list
  {
    var saved := Save(list, name, recording, now, difficulty, mode);
    assert saved[..|list|] == list;
  }

  /** The moves of a shared pattern: each colour stamped with the load time. */
  function Stamp(colors: seq<Color>, now: int): (moves: seq<Move>)
    ensures |moves| == |colors|
    ensures forall i :: 0 <= i < |colors| ==> moves[i] == Move(colors[i], now, None)
  {
    if colors == [] then [] else [Move(colors[0], now, None)] + Stamp(colors[1..], now)
  }

  /** The entry `loadSharedPattern` builds: the name gets a " (Shared)" suffix,
      a missing difficulty becomes normal, and the mode is always classic. */
  function SharedEntry(name: string, colors: seq<Color>, difficulty: Option<Difficulty>, now: int): SavedPattern
  {
    SavedPattern(name + " (Shared)", Stamp(colors, now), now,
                 if difficulty.Some? then difficulty.value else Normal, Classic, true)
  }

  /** `loadSharedPattern`: the shared pattern goes to the front; the others move back one place. */
  function LoadShared(list: seq<SavedPattern>, name: string, colors: seq<Color>,
                      difficulty: Option<Difficulty>, now: int): (r: seq<SavedPattern>)
    ensures |r| == |list| + 1 && r[1..] == list
    ensures r[0].shared && r[0].gameMode == Classic && r[0].name == name + " (Shared)"
    ensures r[0].difficulty == if difficulty.Some? then difficulty.value else Normal
  {
    [SharedEntry(name, colors, difficulty, now)] + list
  }

  /** A shared pattern keeps the colours it was shared with, in order, and
      deleting it from the front restores the list. */
  lemma SharedRoundTrip(list: seq<SavedPattern>, name: string, colors: seq<Color>,
                        difficulty: Option<Difficulty>, now: int)
    ensures Colors(LoadShared(list, name, colors, difficulty, now)[0].sequence) == colors
    ensures Delete(LoadShared(list, name, colors, difficulty, now), 0, true) == list
  {
    var moves := Stamp(colors, now);
    var cs := Colors(moves);
    assert forall i :: 0 <= i < |cs| ==> cs[i] == colors[i];
  }
}
