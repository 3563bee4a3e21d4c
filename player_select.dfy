/**
  The character-select screen: arrow keys move the highlight between the
  two characters, 'a' and 'b' pick one directly, Enter or space picks the
  highlighted one, and the first pick is final. The pick is handed to the
  session after a 600 ms animation, modelled as a scheduled callback.
 */
module PlayerSelect {
  import opened Wrappers
  import opened GameTypes

  /** `CHARACTERS`, in card order. */
  const Characters: seq<Character> := [Dudu, Chungu]

  /** `toLowerCase` on the ASCII letters. */
  function LowerChar(c: char): (r: char)
    ensures 'A' <= c <= 'Z' ==> r as int == c as int + 32
    ensures !('A' <= c <= 'Z') ==> r == c
    ensures !('A' <= r <= 'Z')
  {
    if 'A' <= c <= 'Z' then (c as int + 32) as char else c
  }

  function ToLower(s: string): (r: string)
    ensures |r| == |s| && forall i :: 0 <= i < |s| ==> r[i] == LowerChar(s[i])
  {
    seq(|s|, i requires 0 <= i < |s| => LowerChar(s[i]))
  }

  lemma ToLowerIdempotent(s: string)
    ensures ToLower(ToLower(s)) == ToLower(s)
  {
  }

  /** What a key does on this screen, after lower-casing. */
  datatype SelectKey = Highlight(index: nat) | Pick(character: Character) | PickHighlighted | NoKey

  function KeyMeaning(key: string): (r: SelectKey)
    ensures r.Highlight? ==> r.index < |Characters|
  {
    var k := ToLower(key);
    if k == "arrowleft" then Highlight(0)
    else if k == "arrowright" then Highlight(1)
    else if k == "a" then Pick(Dudu)
    else if k == "b" then Pick(Chungu)
    else if k == "enter" || k == " " then PickHighlighted
    else NoKey
  }

  /** Keys are matched regardless of case. */
  lemma KeyMeaningIgnoresCase(key: string)
    ensures KeyMeaning(ToLower(key)) == KeyMeaning(key)
  {
    ToLowerIdempotent(key);
  }

  lemma KeyExamples()
    ensures KeyMeaning("ArrowLeft") == Highlight(0) && KeyMeaning("ArrowRight") == Highlight(1)
    ensures KeyMeaning("A") == Pick(Dudu) && KeyMeaning("b") == Pick(Chungu)
    ensures KeyMeaning("Enter") == PickHighlighted && KeyMeaning(" ") == PickHighlighted
    ensures KeyMeaning("x") == NoKey && KeyMeaning("ArrowUp") == NoKey
  {
    assert ToLower("ArrowLeft") == "arrowleft";
    assert ToLower("ArrowRight") == "arrowright";
    assert ToLower("Enter") == "enter";
    assert ToLower("A") == "a";
    assert ToLower("b") == "b";
    assert ToLower("ArrowUp") == "arrowup";
  }

  /** The highlight, the pick, and the `onSelect` callbacks scheduled but not yet run. */
  datatype SelectState = SelectState(highlighted: nat, selected: Option<Character>, pending: seq<Character>)

  const InitialSelect := SelectState(0, None, [])

  /** The highlight is on a card; a callback is pending only for the one pick made. */
  predicate SelectInvariant(s: SelectState) {
    s.highlighted < |Characters|
    && |s.pending| <= 1
    && (|s.pending| == 1 ==> s.selected == Some(s.pending[0]))
  }

  /** `handleSelect(c)`: ignored once a character is picked; otherwise pick c and schedule `onSelect(c)`. */
  function HandleSelect(s: SelectState, c: Character): (r: SelectState)
    ensures s.selected.Some? ==> r == s
    ensures s.selected.None? ==> r.selected == Some(c) && r.pending == s.pending + [c] && r.highlighted == s.highlighted
  {
    if s.selected.Some? then s
    else s.(selected := Some(c), pending := s.pending + [c])
  }

  /** The keydown handler. */
  function KeyDown(s: SelectState, key: string): (r: SelectState)
    requires s.highlighted < |Characters|
    ensures s.selected.Some? ==> r == s
  {
    if s.selected.Some? then s
    else match KeyMeaning(key)
      case Highlight(i) => s.(highlighted := i)
      case Pick(c) => HandleSelect(s, c)
      case PickHighlighted => HandleSelect(s, Characters[s.highlighted])
      case NoKey => s
  }

  /** The 600 ms timer runs the oldest scheduled `onSelect`. */
  function TimerFires(s: SelectState): (r: SelectState)
    requires |s.pending| > 0
    ensures r.pending == s.pending[1..] && r.selected == s.selected && r.highlighted == s.highlighted
  {
    s.(pending := s.pending[1..])
  }

  lemma SelectInvariantKept(s: SelectState, key: string, c: Character)
    requires SelectInvariant(s)
    ensures SelectInvariant(InitialSelect)
    ensures SelectInvariant(KeyDown(s, key))
    ensures SelectInvariant(HandleSelect(s, c))
    ensures |s.pending| > 0 ==> SelectInvariant(TimerFires(s))
  {
  }

  /** The first pick is final: no later key or select call changes it. */
  lemma FirstPickFinal(s: SelectState, key: string, c: Character)
    requires SelectInvariant(s) && s.selected.Some?
    ensures KeyDown(s, key).selected == s.selected && HandleSelect(s, c).selected == s.selected
    ensures |s.pending| > 0 ==> TimerFires(s).selected == s.selected
  {
  }

  /** From a fresh screen, a picking key fixes the character and schedules exactly that callback. */
  lemma PickKeys(s: SelectState, key: string)
    requires SelectInvariant(s) && s.selected.None? && s.pending == []
    ensures KeyMeaning(key) == Pick(Dudu) ==> KeyDown(s, key).pending == [Dudu]
    ensures KeyMeaning(key) == Pick(Chungu) ==> KeyDown(s, key).pending == [Chungu]
    ensures KeyMeaning(key) == PickHighlighted ==>
      KeyDown(s, key).selected == Some(Characters[s.highlighted]) && KeyDown(s, key).pending == [Characters[s.highlighted]]
    ensures KeyMeaning(key).Highlight? ==>
      KeyDown(s, key) == s.(highlighted := KeyMeaning(key).index)
    ensures KeyMeaning(key) == NoKey ==> KeyDown(s, key) == s
  {
  }

  /** The screen's state, updated in place by its handlers. */
  class PlayerSelectScreen {
    var highlighted: nat
    var selected: Option<Character>
    var pending: seq<Character>

    function State(): SelectState
      reads this
    {
      SelectState(highlighted, selected, pending)
    }

    ghost predicate Valid()
      reads this
    {
      SelectInvariant(State())
    }

    constructor()
      ensures State() == InitialSelect && Valid()
    {
      highlighted, selected, pending := 0, None, [];
    }

    method Select(c: Character)
      requires Valid()
      modifies this
      ensures State() == HandleSelect(old(State()), c) && Valid()
    {
      if selected.Some? {
        return;
      }
      selected := Some(c);
      pending := pending + [c];
    }

    method OnKeyDown(key: string)
      requires Valid()
      modifies this
      ensures State() == KeyDown(old(State()), key) && Valid()
    {
      if selected.Some? {
        return;
      }
      match KeyMeaning(key)
      case Highlight(i) => highlighted := i;
      case Pick(c) => Select(c);
      case PickHighlighted => Select(Characters[highlighted]);
      case NoKey =>
    }

    /** The animation timer fires and hands the pick to the session. */
    method OnSelectTimer() returns (picked: Character)
      requires Valid() && |pending| > 0
      modifies this
      ensures picked == old(pending[0]) && Some(picked) == selected
      ensures State() == TimerFires(old(State())) && Valid()
    {
      picked := pending[0];
      pending := pending[1..];
    }
  }
}
