/** The local `<audio>` element, as the tick and the gesture handlers mutate it. */
module Playback {
  import opened Wrappers
  import opened Reconciler

  class Player {
    var src: string
    var currentTime: real
    var paused: bool

    /** A freshly mounted audio element: no source, at time zero, paused. */
    constructor ()
      ensures State() == PlayerState("", 0.0, true)
    {
      src, currentTime, paused := "", 0.0, true;
    }

    function State(): PlayerState
      reads this
    {
      PlayerState(src, currentTime, paused)
    }

    /**
     * Carries out one command: assign `src`, assign `currentTime`, or call
     * `play()`/`pause()`. A rejected `play()` is not modelled: Play unpauses.
     */
    method Exec(c: Command)
      modifies this
      ensures State() == Step(old(State()), c)
    {
      match c
      case SetSource(u) => src := u;
      case Seek(t) => currentTime := t;
      case Play => paused := false;
      case Pause => paused := true;
    }

    /** Carries out the commands one after another, in the order given. */
    method Apply(cmds: seq<Command>)
      modifies this
      ensures State() == Run(cmds, old(State()))
    {
      var i := 0;
      while i < |cmds|
        invariant 0 <= i <= |cmds|
        invariant State() == Run(cmds[..i], old(State()))
      {
        assert cmds[..i + 1][..i] == cmds[..i];
        Exec(cmds[i]);
        i := i + 1;
      }
      assert cmds[..i] == cmds;
    }

    /**
     * Reconciles against a fetched record and applies the result. Afterwards the
     * player is within the dead-band of a numeric position.
     */
    method Sync(remote: RoomRecord)
      modifies this
      ensures State() == Run(Reconcile(remote, Some(old(State()))), old(State()))
      ensures remote.position.Num? ==> Abs(currentTime - remote.position.n) <= DeadBand
    {
      var before := State();
      Apply(Reconcile(remote, Some(before)));
      DriftWithinDeadBand(remote, before, State());
    }
  }
}
