/**
  `useVirtualInput`: the on-screen pad's record of held controls, kept by
  a provider. `setDirection` sets one direction; `triggerAction` holds the
  action and schedules a timer that releases it. Outside a provider the
  hook hands out the all-released state and setters that do nothing.
 */
module VirtualInput {
  import opened GameTypes
  import opened Controls

  class VirtualInputContext {
    /** Whether a `VirtualInputProvider` is mounted above the caller. */
    const provided: bool
    var state: ControlState
    /** Action-release timers scheduled by `triggerAction` that have not fired yet. */
    var pendingReleases: nat

    ghost predicate Valid()
      reads this
    {
      !provided ==> state == Released && pendingReleases == 0
    }

    constructor (provided: bool)
      ensures this.provided == provided
      ensures Valid() && state == Released && pendingReleases == 0
    {
      this.provided := provided;
      state := Released;
      pendingReleases := 0;
    }

    /** `setDirection(direction, pressed)`. */
    method SetDirection(d: Direction, pressed: bool)
      requires Valid()
      modifies this
      ensures Valid() && pendingReleases == old(pendingReleases)
      ensures state == if provided then old(state).With(Move(d), pressed) else old(state)
    {
      if provided {
        state := state.With(Move(d), pressed);
      }
    }

    /** `triggerAction()`: hold the action now and schedule its release. */
    method TriggerAction()
      requires Valid()
      modifies this
      ensures Valid()
      ensures provided ==> state == old(state).With(Action, true) && pendingReleases == old(pendingReleases) + 1
      ensures !provided ==> state == old(state) && pendingReleases == old(pendingReleases)
    {
      if provided {
        state := state.With(Action, true);
        pendingReleases := pendingReleases + 1;
      }
    }

    /** One scheduled release fires: only the action is released. */
    method ActionReleaseFires()
      requires Valid() && pendingReleases > 0
      modifies this
      ensures Valid()
      ensures state == old(state).With(Action, false) && pendingReleases == old(pendingReleases) - 1
    {
      state := state.With(Action, false);
      pendingReleases := pendingReleases - 1;
    }
  }
}
