/** The module's shared state: a single pause-broadcast flag with a getter and a setter. */
module PauseState {

  class State {
    var isPauseBroadcast: bool

    /** A fresh state does not pause broadcasting. */
    constructor()
      ensures !isPauseBroadcast
    {
      isPauseBroadcast := false;
    }

    method GetIsPauseBroadcast() returns (paused: bool)
      ensures paused == isPauseBroadcast
    {
      paused := isPauseBroadcast;
    }

    method SetIsPauseBroadcast(paused: bool)
      modifies this
      ensures isPauseBroadcast == paused
    {
      isPauseBroadcast := paused;
    }
  }

  /** The two expectations on the state: the flag starts cleared, and a set is
      read back. A second instance is not affected by the first. */
  method StateScenario() {
    var state := new State();
    var paused := state.GetIsPauseBroadcast();
    assert !paused;

    var other := new State();
    other.SetIsPauseBroadcast(true);
    paused := other.GetIsPauseBroadcast();
    assert paused;
    paused := state.GetIsPauseBroadcast();
    assert !paused;
  }
}
