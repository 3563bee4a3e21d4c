/**
  The touch direction pad: a set of directions whose buttons are being
  touched, kept in step with the virtual input state, plus a window-wide
  fail-safe that releases everything once no touch remains on screen.
 */
module DPad {
  import opened GameTypes
  import opened Controls
  import opened VirtualInput

  /** The state with every direction in `ds` released and everything else as in `s`. */
  function ReleaseAll(s: ControlState, ds: set<Direction>): (r: ControlState)
    ensures forall c :: r.Get(c) == (s.Get(c) && !(c.Move? && c.dir in ds))
  {
    ControlState(s.up && Up !in ds, s.down && Down !in ds, s.left && Left !in ds, s.right && Right !in ds, s.action)
  }

  /** Releasing one more direction extends the released set by it. */
  lemma ReleaseOneMore(s: ControlState, ds: set<Direction>, d: Direction)
    ensures ReleaseAll(s, ds).With(Move(d), false) == ReleaseAll(s, ds + {d})
  {
    ControlStateExtensional(ReleaseAll(s, ds).With(Move(d), false), ReleaseAll(s, ds + {d}));
  }

  class DPad {
    const input: VirtualInputContext
    /** `activeDirectionsRef.current`. */
    var active: set<Direction>

    /** With a provider, every direction in the active set is pressed in the virtual state. */
    ghost predicate Valid()
      reads this, input
    {
      && input.Valid()
      && (input.provided ==> forall d :: d in active ==> input.state.Get(Move(d)))
    }

    constructor (input: VirtualInputContext)
      requires input.Valid()
      ensures this.input == input && active == {} && Valid()
    {
      this.input := input;
      active := {};
    }

    /** `handleTouchStart(direction)`: press `d` unless it is already active. */
    method TouchStart(d: Direction)
      requires Valid()
      modifies this, input
      ensures Valid()
      ensures d in old(active) ==> active == old(active) && input.state == old(input.state)
      ensures d !in old(active) ==> active == old(active) + {d}
      ensures d !in old(active) ==>
        input.state == if input.provided then old(input.state).With(Move(d), true) else old(input.state)
      ensures input.pendingReleases == old(input.pendingReleases)
    {
      if d !in active {
        active := active + {d};
        input.SetDirection(d, true);
      }
    }

    /** `handleTouchEnd(direction)`, also bound to touchcancel: release `d` whether or not it was active. */
    method TouchEnd(d: Direction)
      requires Valid()
      modifies this, input
      ensures Valid()
      ensures active == old(active) - {d}
      ensures input.state == if input.provided then old(input.state).With(Move(d), false) else old(input.state)
      ensures input.pendingReleases == old(input.pendingReleases)
    {
      active := active - {d};
      input.SetDirection(d, false);
    }

    /**
      `handleGlobalTouchEnd`, for touchend and touchcancel anywhere: with no
      touch left on screen, release every active direction and empty the set;
      with touches left, do nothing.
     */
    method GlobalTouchEnd(touchesLeft: nat)
      requires Valid()
      modifies this, input
      ensures Valid()
      ensures touchesLeft > 0 ==> active == old(active) && input.state == old(input.state)
      ensures touchesLeft == 0 ==> active == {}
      ensures touchesLeft == 0 ==>
        input.state == if input.provided then ReleaseAll(old(input.state), old(active)) else old(input.state)
      ensures input.pendingReleases == old(input.pendingReleases)
    {
      if touchesLeft == 0 {
        var remaining := active;
        while remaining != {}
          invariant remaining <= active == old(active)
          invariant input.Valid() && input.pendingReleases == old(input.pendingReleases)
          invariant input.state ==
            if input.provided then ReleaseAll(old(input.state), active - remaining) else old(input.state)
          decreases remaining
        {
          var d :| d in remaining;
          input.SetDirection(d, false);
          ghost var released := active - remaining;
          remaining := remaining - {d};
          ReleaseOneMore(old(input.state), released, d);
        }
        active := {};
      }
    }
  }
}
