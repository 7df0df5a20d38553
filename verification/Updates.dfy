/** Whole calls on a player: update with its bus loop, open and close, and the heartbeats a
    client receives. */
module Updates {
  import opened Options
  import opened Gst
  import opened Players
  import Packets = PacketHandler

  // ---------- The bus loop ----------

  predicate Waiting(s: PlayerState) { s.open && s.pipe.bus != [] }

  /** Pops and handles one message. */
  function HandleFirst(s: PlayerState): PlayerState {
    if Waiting(s) then s.Popped().Handle(s.pipe.bus[0]) else s
  }

  lemma QueryWork(s: PlayerState)
    ensures Work(s.QueryState().pipe) <= Work(s.pipe)
  {
    ReachWork(Asked(s.pipe), s.pipe.target);
  }

  lemma SetTimeWork(s: PlayerState, x: real)
    ensures Work(s.ServerSetTime(x).pipe) <= Work(s.pipe) && Work(s.SetTime(x).pipe) <= Work(s.pipe)
  {
    QueryWork(s.ArmSeek(x));
  }

  lemma StateChangedWork(s: PlayerState)
    ensures Work(s.OnStateChanged().pipe) <= Work(s.pipe)
  {
    QueryWork(s);
    var t := s.QueryState();
    SetTimeWork(t, t.net.pendingStateSeek);
  }

  lemma RequestWork(s: PlayerState, to: GstState)
    ensures Work(Gst.SetState(s.OnBeforeSetState(to).pipe, to).0) <= Work(s.pipe) + 4
  {
    ReachWork(Asked(s.pipe), to);
  }

  lemma SetStateWork(s: PlayerState, to: GstState)
    ensures Work(s.SetState(to).pipe) <= Work(s.pipe) + 4
  {
    var b := s.OnBeforeSetState(to);
    RequestWork(s, to);
    StateChangedWork(b.Requested(to));
  }

  lemma ReplayWork(s: PlayerState)
    ensures Work(s.Replay().pipe) <= Work(s.pipe) + 12
  {
    SetStateWork(s, Null);
    SetStateWork(s.SetState(Null), Ready);
    SetStateWork(s.Stop(), Playing);
  }

  lemma HandleWork(s: PlayerState)
    requires Waiting(s)
    ensures Work(HandleFirst(s).pipe) < Work(s.pipe)
  {
    var p := s.Popped();
    match s.pipe.bus[0] {
      case StateChanged(before, after) => StateChangedWork(p.(state := after));
      case AsyncDone => SetTimeWork(p.(seekingLock := false), p.pendingSeek);
      case Eos => SetStateWork(p, Paused); ReplayWork(p);
      case _ =>
    }
  }

  ghost predicate Progresses(next: PlayerState -> PlayerState) {
    forall t :: Waiting(t) ==> Work(next(t).pipe) < Work(t.pipe)
  }

  /** Repeats `next` until the bus is empty. */
  ghost function Repeat(next: PlayerState -> PlayerState, s: PlayerState): PlayerState
    requires Progresses(next)
    decreases Work(s.pipe)
  {
    if Waiting(s) then Repeat(next, next(s)) else s
  }

  lemma {:induction false} RepeatInvariant(next: PlayerState -> PlayerState, s: PlayerState, inv: PlayerState -> bool)
    requires Progresses(next) && inv(s)
    requires forall t :: inv(t) && Waiting(t) ==> inv(next(t))
    ensures inv(Repeat(next, s)) && !Waiting(Repeat(next, s))
    decreases Work(s.pipe)
  {
    if Waiting(s) {
      RepeatInvariant(next, next(s), inv);
    }
  }

  lemma HandlingProgresses()
    ensures Progresses(HandleFirst)
  {
    forall t | Waiting(t) ensures Work(HandleFirst(t).pipe) < Work(t.pipe) {
      HandleWork(t);
    }
  }

  ghost function Drain(s: PlayerState): PlayerState {
    HandlingProgresses();
    Repeat(HandleFirst, s)
  }

  lemma DrainStep(s: PlayerState)
    ensures Drain(s) == if Waiting(s) then Drain(HandleFirst(s)) else s
  {
    HandlingProgresses();
  }

  /** What every message keeps, the loop keeps; and it empties the bus. */
  lemma DrainInvariant(s: PlayerState, inv: PlayerState -> bool)
    requires inv(s)
    requires forall t :: inv(t) && Waiting(t) ==> inv(HandleFirst(t))
    ensures inv(Drain(s)) && !Waiting(Drain(s))
  {
    HandlingProgresses();
    RepeatInvariant(HandleFirst, s, inv);
  }

  /** In READY to stay, and the cache says so: what both phases of a new base wait for. */
  predicate Parked(s: PlayerState) { s.state == s.pipe.state == s.pipe.target == Ready }

  // ---------- The server before an update ----------

  function Heartbeat(s: PlayerState): Packets.Packet {
    Packets.Packet(
      s.GetTime(), s.GetVolume(), if s.mute then 1 else 0, s.state.Code(), s.pipe.base)
  }

  function DispatchHeartbeat(s: PlayerState): PlayerState {
    if !s.open then s
    else
      var t := s.Timed().Heard();
      t.(net := t.net.(sent := t.net.sent + [Packets.Serialize(Heartbeat(s))]))
  }

  function CountHeartbeat(s: PlayerState): PlayerState {
    if s.net.counter > s.net.frequency then
      var t := DispatchHeartbeat(s);
      t.(net := t.net.(counter := 0))
    else s
  }

  /** The second phase of a network seek: move the base, go back to the captured state. */
  function CommitSeek(s: PlayerState): PlayerState {
    var base := Rebase(s.pipe.base, s.net.pendingTime, s.pendingSeek);
    s.(
      pipe := Gst.SetState(s.pipe.(base := base), s.net.pendingState).0,
      pendingSeek := -1.0,
      net := s.net.(pendingState := Null, pendingTime := CLOCK_NONE))
  }

  function AdvanceSeek(s: PlayerState): PlayerState {
    if !(s.pendingSeek >= 0.0) then s
    else if s.state != Ready then s.Requested(Ready)
    else CommitSeek(s)
  }

  function ServerBeforeUpdate(s: PlayerState): PlayerState {
    if !s.open then s
    else
      var t := AdvanceSeek(CountHeartbeat(s));
      t.(net := t.net.(counter := (t.net.counter + 1) % 0x1_0000_0000))
  }

  function SetHeartbeatFrequency(s: PlayerState, frequency: UInt32): PlayerState {
    if frequency == s.net.frequency then s
    else s.(net := s.net.(frequency := frequency, counter := 0))
  }

  // ---------- The client ----------

  /** Mute and volume follow a heartbeat. */
  function Followed(s: PlayerState, p: Packets.Packet): PlayerState {
    var muted := p.mute != 0;
    var a := if s.mute != muted then s.SetMute(muted) else s;
    if a.GetVolume() != p.volume then a.Heard().SetVolume(p.volume) else a.Heard()
  }

  /** A base other than the pipeline's becomes the pending one. */
  function PendBase(s: PlayerState, base: ClockTime): PlayerState {
    if !s.open || s.pipe.base != base then s.(net := s.net.(baseTime := base)) else s
  }

  /** With no base pending, goes to the state named, unless found there; a code outside the
      enumeration moves nothing. */
  function Obey(s: PlayerState, code: int): PlayerState {
    if s.net.baseTime != 0 then s
    else
      var e := s.QueryState();
      match StateOf(code)
      case None => e
      case Some(target) => if e.state != target then e.SetState(target) else e
  }

  /** Adopts what a heartbeat carries. */
  function Mirror(s: PlayerState, p: Packets.Packet): PlayerState {
    Obey(PendBase(Followed(s, p), p.base), p.state)
  }

  const NO_PACKET := Packets.Packet(0.0, 0.0, 0, 1, CLOCK_NONE)

  function OnMessage(s: PlayerState, message: string): PlayerState {
    if message == "" then s
    else
      var (ok, p) := Packets.Parsed(message, NO_PACKET);
      if ok then Mirror(s, p) else s
  }

  function OnMessages(s: PlayerState, messages: seq<string>): PlayerState
    decreases |messages|
  {
    if messages == [] then s else OnMessages(OnMessage(s, messages[0]), messages[1..])
  }

  function ClearClock(s: PlayerState): PlayerState {
    if !s.open then s
    else if s.kind.Client? then s.(net := s.net.(clock := false), pipe := s.pipe.(base := CLOCK_NONE))
    else s.(net := s.net.(clock := false))
  }

  /** The client slaves its pipeline to the server's clock at the pending base, unless the
      network clock cannot be made; the server starts its timeline at the current clock,
      unless it has no clock or cannot provide it. */
  function SetupClock(s: PlayerState): PlayerState {
    if !s.open || s.kind.Plain? then s
    else if s.kind.Client? then
      if s.net.baseTime == 0 then s
      else
        var t := ClearClock(s);
        var made := Answer(t.pipe) != Failed;
        t.(
          pipe := Asked(t.pipe).(base := if made then s.net.baseTime else CLOCK_NONE),
          net := t.net.(clock := made, baseTime := 0))
    else
      var t := ClearClock(s);
      var reply := Answer(t.pipe);
      t.(
        pipe := Asked(t.pipe).(base := if reply == Done then t.pipe.now else t.pipe.base),
        net := t.net.(clock := reply != Failed))
  }

  function AdoptBase(s: PlayerState): PlayerState {
    if s.net.baseTime == 0 then s
    else if s.state != Ready then s.Requested(Ready)
    else SetupClock(s)
  }

  function ClientBeforeUpdate(s: PlayerState, messages: seq<string>): PlayerState {
    if !s.open then s else AdoptBase(OnMessages(s, messages))
  }

  // ---------- Calls ----------

  /** One update; `messages` are the datagrams a client finds waiting. */
  ghost function Update(s: PlayerState, messages: seq<string>): PlayerState {
    Drain(
      match s.kind
      case Plain => s
      case Server => ServerBeforeUpdate(s)
      case Client => ClientBeforeUpdate(s, messages))
  }

  function Reset(s: PlayerState): PlayerState {
    s.(open := false, state := Null, duration := 0.0, time := 0.0, volume := 1.0, pendingSeek := -1.0,
       seekingLock := false)
  }

  function Close(s: PlayerState): PlayerState {
    Reset((if s.kind.Plain? then s else ClearClock(s)).Stop())
  }

  /** Drives a new pipeline to a state, waiting for it when it does not get there at once. */
  function Preroll(s: PlayerState, to: GstState): (PlayerState, bool) {
    var r := s.Requested(to);
    if Answer(s.pipe) == Done then (r, true) else (r.Waited(), r.Waited().pipe.state == to)
  }

  /** Puts a new pipeline in place of a closed one. */
  function Replaced(c: PlayerState): PlayerState {
    c.(open := true, pipe := Fresh(c.pipe.now, c.pipe.oracle, c.pipe.calls))
  }

  /** The same, on its clock. */
  function Install(c: PlayerState): PlayerState { SetupClock(Replaced(c)) }

  function Lasting(s: PlayerState, seconds: real): PlayerState { s.(duration := seconds) }

  function Launch(c: PlayerState, seconds: real): (PlayerState, bool) {
    var (ready, reached) := Preroll(Install(c), Ready);
    if !reached then (Close(ready), false)
    else
      var (paused, prerolled) := Preroll(ready, Paused);
      if !prerolled then (Close(paused), false) else (Lasting(paused, seconds), true)
  }

  function Open(s: PlayerState, media: Media): (PlayerState, bool) {
    if media.Uninitialised? then (s, false)
    else
      var c := Close(s);
      match media
      case Undiscovered => (c, true)
      case Unlaunchable => (Close(c), false)
      case Incomplete => (Close(Replaced(c)), false)
      case Playable(seconds) => Launch(c, seconds)
      case _ => (c, false)
  }

  /** Opening reports success without opening anything exactly when the medium could not be
      discovered. */
  lemma OpenedNothing(s: PlayerState, media: Media)
    ensures Open(s, media).1 && !Open(s, media).0.open <==> media.Undiscovered?
  {
    if media.Playable? {
      var c := Close(s);
      LaunchedOpen(c, media.seconds);
    }
  }

  lemma LaunchedOpen(c: PlayerState, seconds: real)
    ensures Launch(c, seconds).1 ==> Launch(c, seconds).0.open
  {
    var i := Install(c);
    assert i.open;
    assert Preroll(i, Ready).0.open && Preroll(Preroll(i, Ready).0, Paused).0.open;
  }
}
