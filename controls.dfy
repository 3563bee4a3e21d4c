/**
  The five game controls and the record of which are held, the shape
  shared by the keyboard state and the virtual (touch) input state.
 */
module Controls {
  import opened GameTypes

  datatype Control = Move(dir: Direction) | Action

  datatype ControlState = ControlState(up: bool, down: bool, left: bool, right: bool, action: bool) {

    /** Whether control `c` is held. */
    function Get(c: Control): bool {
      match c
      case Move(Up) => up
      case Move(Down) => down
      case Move(Left) => left
      case Move(Right) => right
      case Action => action
    }

    /** `{ ...state, [c]: v }`: control `c` set to `v`, every other control as it was. */
    function With(c: Control, v: bool): (s: ControlState)
      ensures s.Get(c) == v
      ensures forall c' :: c' != c ==> s.Get(c') == Get(c')
    {
      match c
      case Move(Up) => this.(up := v)
      case Move(Down) => this.(down := v)
      case Move(Left) => this.(left := v)
      case Move(Right) => this.(right := v)
      case Action => this.(action := v)
    }
  }

  /** Nothing held. */
  const Released := ControlState(false, false, false, false, false)

  lemma ReleasedHoldsNothing(c: Control)
    ensures !Released.Get(c)
  {
  }

  /** Two states that agree on every control are the same state. */
  lemma {:induction false} ControlStateExtensional(s: ControlState, t: ControlState)
    requires forall c :: s.Get(c) == t.Get(c)
    ensures s == t
  {
    assert s.Get(Move(Up)) == t.Get(Move(Up));
    assert s.Get(Move(Down)) == t.Get(Move(Down));
    assert s.Get(Move(Left)) == t.Get(Move(Left));
    assert s.Get(Move(Right)) == t.Get(Move(Right));
    assert s.Get(Action) == t.Get(Action);
  }
}
