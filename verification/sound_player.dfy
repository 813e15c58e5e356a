/** SoundPlayerImpl's start/stop guard: Initialize starts the mixer only
    when it is not running, Deinitialize stops it only when it is. Starting
    and stopping the device itself (StartSoundMixer / StopSoundMixer) is
    recorded as an action, not modelled. */
module SoundPlayer {

  datatype Player = Player(isInitialized: bool)

  /** The device-level effect of one call on the guard. */
  datatype MixerAction = StartMixer | StopMixer

  /** A call on the player: Initialize or Deinitialize. */
  datatype Call = Initialize | Deinitialize

  /** One call: the new player and the device action it triggers, if any. */
  function Step(p: Player, call: Call): (r: (Player, seq<MixerAction>))
    ensures call == Initialize ==> r.0.isInitialized
    ensures call == Deinitialize ==> !r.0.isInitialized
    ensures r.1 == [StartMixer] <==> call == Initialize && !p.isInitialized
    ensures r.1 == [StopMixer] <==> call == Deinitialize && p.isInitialized
    ensures |r.1| <= 1
  {
    match call
    case Initialize =>
      if p.isInitialized then (p, []) else (Player(true), [StartMixer])
    case Deinitialize =>
      if p.isInitialized then (Player(false), [StopMixer]) else (p, [])
  }

  /** A sequence of calls: the final player and every device action, in order. */
  function Run(p: Player, calls: seq<Call>): (Player, seq<MixerAction>)
  {
    if |calls| == 0 then (p, [])
    else
      var (q, acts) := Run(p, calls[..|calls| - 1]);
      var (q', more) := Step(q, calls[|calls| - 1]);
      (q', acts + more)
  }

  /** Starting from a stopped player, whatever the calls, the device is
      started and stopped alternately, beginning with a start, and the
      player is running exactly when a start is not yet matched by a stop. */
  lemma {:induction false} RunAlternates(p: Player, calls: seq<Call>)
    requires !p.isInitialized
    ensures var (q, acts) := Run(p, calls);
            && (forall i :: 0 <= i < |acts| ==> acts[i] == if i % 2 == 0 then StartMixer else StopMixer)
            && (q.isInitialized <==> |acts| % 2 == 1)
  {
    if |calls| > 0 {
      RunAlternates(p, calls[..|calls| - 1]);
    }
  }

  /** A repeated Initialize or Deinitialize does nothing. */
  lemma RepeatIsNoOp(p: Player, call: Call)
    ensures Step(Step(p, call).0, call) == (Step(p, call).0, [])
  {
  }
}
