/** The runs of one player: calls of its interface, updates, and what happens to its pipeline
    in between, in any order. */
module Runs {
  import opened Gst
  import opened Players
  import opened Updates
  import opened Invariants
  import opened Preservation

  datatype Event =
    | DoUpdate(messages: seq<string>)
    | DoSetState(to: GstState)
    | DoStop
    | DoPlay
    | DoPause
    | DoReplay
    | DoQueryState
    | DoGetTime
    | DoSetTime(seconds: real)
    | DoSetVolume(volume: real)
    | DoSetMute(on: bool)
    | DoSetLoop(on: bool)
    | DoSetFrequency(frequency: UInt32)
    | DoOpen(media: Media)
    | DoClose
    | Meanwhile(happening: Happening)

  ghost function Step(s: PlayerState, e: Event): PlayerState {
    match e
    case DoUpdate(messages) => Update(s, messages)
    case DoSetState(to) => s.SetState(to)
    case DoStop => s.Stop()
    case DoPlay => s.Play()
    case DoPause => s.Pause()
    case DoReplay => s.Replay()
    case DoQueryState => s.QueryState()
    case DoGetTime => s.Timed()
    case DoSetTime(t) => s.SetTime(t)
    case DoSetVolume(v) => s.SetVolume(v)
    case DoSetMute(on) => s.SetMute(on)
    case DoSetLoop(on) => s.(loop := on)
    case DoSetFrequency(f) => SetHeartbeatFrequency(s, f)
    case DoOpen(media) => Open(s, media).0
    case DoClose => Close(s)
    case Meanwhile(h) => if s.open || h.Tick? then s.(pipe := Happen(s.pipe, h)) else s
  }

  ghost function Run(s: PlayerState, events: seq<Event>): PlayerState
    decreases |events|
  {
    if events == [] then s else Run(Step(s, events[0]), events[1..])
  }

  lemma {:induction false} RunConcat(s: PlayerState, a: seq<Event>, b: seq<Event>)
    ensures Run(s, a + b) == Run(Run(s, a), b)
    decreases |a|
  {
    if a == [] {
      assert a + b == b;
    } else {
      assert (a + b)[1..] == a[1..] + b;
      RunConcat(Step(s, a[0]), a[1..], b);
    }
  }

  function UpdateCount(events: seq<Event>): nat {
    if events == [] then 0 else (if events[0].DoUpdate? then 1 else 0) + UpdateCount(events[1..])
  }

  /** Calls on one player that neither update, open nor close it. */
  predicate IsCommand(e: Event) {
    match e
    case DoSetState(_) => true
    case DoStop => true
    case DoPlay => true
    case DoPause => true
    case DoReplay => true
    case DoQueryState => true
    case DoGetTime => true
    case DoSetTime(_) => true
    case DoSetVolume(_) => true
    case DoSetMute(_) => true
    case _ => false
  }

  /** What single steps keep, commands keep. */
  lemma CommandInv(inv: PlayerState -> bool, s: PlayerState, e: Event)
    requires KeptByRequests(inv) && KeptBySound(inv) && inv(s) && IsCommand(e)
    requires e.DoSetTime? ==> KeptByMessages(inv)
    ensures inv(Step(s, e))
  {
    match e {
      case DoSetState(to) => SetStateInv(inv, s, to);
      case DoStop => StopInv(inv, s);
      case DoPlay => PlayInv(inv, s);
      case DoPause => SetStateInv(inv, s, Paused);
      case DoReplay => ReplayInv(inv, s);
      case DoQueryState =>
      case DoGetTime =>
      case DoSetTime(x) => SetTimeInv(inv, s, x);
      case DoSetVolume(_) =>
      case DoSetMute(_) =>
    }
  }

  lemma CommandKeeps(s: PlayerState, e: Event)
    requires IsCommand(e)
    ensures BusKeeps(s, Step(s, e))
  {
    MessagesKeep(s);
    CommandInv(KeepingTiming(s), s, e);
  }
}
