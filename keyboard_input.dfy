/**
  `useKeyboardInput`: a record of five held controls, set on keydown and
  cleared on keyup of their keys.
 */
module KeyboardInput {
  import opened Wrappers
  import opened GameTypes
  import opened Controls

  /** The control a key name drives, if any: arrows and WASD (either case) move, space and Enter act. */
  function KeyControl(key: string): Option<Control> {
    if key == "ArrowUp" || key == "w" || key == "W" then Some(Move(Up))
    else if key == "ArrowDown" || key == "s" || key == "S" then Some(Move(Down))
    else if key == "ArrowLeft" || key == "a" || key == "A" then Some(Move(Left))
    else if key == "ArrowRight" || key == "d" || key == "D" then Some(Move(Right))
    else if key == " " || key == "Enter" then Some(Action)
    else None
  }

  /** Keydown suppresses the browser's default (scrolling) for the four arrows and space only. */
  function PreventsDefault(key: string): (r: bool)
    ensures r ==> KeyControl(key).Some?
    ensures key == "Enter" || key in {"w", "W", "a", "A", "s", "S", "d", "D"} ==> !r
    ensures r <==> KeyControl(key).Some? && key != "Enter" && key !in {"w", "W", "a", "A", "s", "S", "d", "D"}
  {
    key in ["ArrowUp", "ArrowDown", "ArrowLeft", "ArrowRight", " "]
  }

  /** The state after a keydown of `key`: its control held, all others as before. */
  function PressKey(s: ControlState, key: string): (r: ControlState)
    ensures forall c :: r.Get(c) == (KeyControl(key) == Some(c) || s.Get(c))
  {
    match KeyControl(key)
    case Some(c) => s.With(c, true)
    case None => s
  }

  /** The state after a keyup of `key`: its control released, all others as before. */
  function ReleaseKey(s: ControlState, key: string): (r: ControlState)
    ensures forall c :: r.Get(c) == (KeyControl(key) != Some(c) && s.Get(c))
  {
    match KeyControl(key)
    case Some(c) => s.With(c, false)
    case None => s
  }

  /** A key that drives no control leaves the state alone, on keydown and on keyup. */
  lemma OtherKeysIgnored(s: ControlState, key: string)
    requires KeyControl(key).None?
    ensures PressKey(s, key) == s && ReleaseKey(s, key) == s
  {
  }

  /** Auto-repeated keydowns change nothing after the first. */
  lemma {:induction false} PressIdempotent(s: ControlState, key: string)
    ensures PressKey(PressKey(s, key), key) == PressKey(s, key)
  {
    ControlStateExtensional(PressKey(PressKey(s, key), key), PressKey(s, key));
  }

  /** Releasing a key undoes pressing it when its control was not held before. */
  lemma {:induction false} ReleaseUndoesPress(s: ControlState, key: string)
    requires KeyControl(key).Some? ==> !s.Get(KeyControl(key).value)
    ensures ReleaseKey(PressKey(s, key), key) == s
  {
    ControlStateExtensional(ReleaseKey(PressKey(s, key), key), s);
  }

  /** W, w and ArrowUp are one control; so are the other pairs of keys. */
  lemma KeyAliases()
    ensures KeyControl("w") == KeyControl("W") == KeyControl("ArrowUp") == Some(Move(Up))
    ensures KeyControl("s") == KeyControl("S") == KeyControl("ArrowDown") == Some(Move(Down))
    ensures KeyControl("a") == KeyControl("A") == KeyControl("ArrowLeft") == Some(Move(Left))
    ensures KeyControl("d") == KeyControl("D") == KeyControl("ArrowRight") == Some(Move(Right))
    ensures KeyControl(" ") == KeyControl("Enter") == Some(Action)
  {
  }

  /** The hook's state, changed by the window's keydown and keyup listeners. */
  class Keyboard {
    var keys: ControlState

    constructor ()
      ensures keys == Released
    {
      keys := Released;
    }

    /** The keydown listener; the result says whether it called `preventDefault`. */
    method KeyDown(key: string) returns (preventDefault: bool)
      modifies this
      ensures preventDefault == PreventsDefault(key)
      ensures keys == PressKey(old(keys), key)
    {
      preventDefault := key in ["ArrowUp", "ArrowDown", "ArrowLeft", "ArrowRight", " "];
      var c := KeyControl(key);
      if c.Some? {
        keys := keys.With(c.value, true);
      }
    }

    /** The keyup listener. */
    method KeyUp(key: string)
      modifies this
      ensures keys == ReleaseKey(old(keys), key)
    {
      var c := KeyControl(key);
      if c.Some? {
        keys := keys.With(c.value, false);
      }
    }
  }
}
