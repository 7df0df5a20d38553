/** What the methods of Player, PlayerServer and PlayerClient compute, as functions on the
    state of one player. Virtual calls are resolved by the player's kind. */
module Players {
  import opened Options
  import opened Gst

  datatype Kind = Plain | Server | Client

  type UInt32 = n: int | 0 <= n < 0x1_0000_0000

  /** The fields PlayerServer and PlayerClient add, the heartbeats broadcast and the network
      seeks requested. `clock` tells whether the network clock is held. */
  datatype Net = Net(
    clock: bool,
    baseTime: ClockTime,
    pendingTime: ClockTime,
    pendingStateSeek: real,
    pendingState: GstState,
    counter: UInt32,
    frequency: UInt32,
    sent: seq<string>,
    netSeeks: seq<real>)

  /** What opening a path comes to: the library may not be initialised, and a pipeline may lack
      its bus or its video sink. */
  datatype Media =
    | Uninitialised
    | EmptyPath
    | Undiscovered
    | NoStreams
    | Unlaunchable
    | Incomplete
    | Playable(seconds: real)

  function Clamp(x: real, low: real, high: real): real {
    if x > high then high else if x < low then low else x
  }

  /** A cast from double to an integer type. */
  function Trunc(x: real): int {
    if x >= 0.0 then x.Floor else -(-x).Floor
  }

  function Seconds(ns: int): real { ns as real / 1000000000.0 }

  /** The base time a network seek commits: unsigned subtraction, a signed truncating cast
      and an unsigned addition. */
  function Rebase(base: ClockTime, at: ClockTime, seek: real): ClockTime {
    var elapsed := (at - base) % WRAP;
    (base + Trunc(elapsed as real - seek * 1000000000.0)) % WRAP
  }

  datatype PlayerState = PlayerState(
    kind: Kind,
    open: bool,
    pipe: Pipeline,
    state: GstState,
    pendingSeek: real,
    seekingLock: bool,
    duration: real,
    time: real,
    volume: real,
    mute: bool,
    loop: bool,
    saved: real,
    net: Net)
  {
    // ---------- States ----------

    /** Waits for a transition under way. */
    function Waited(): PlayerState { this.(pipe := Gst.GetState(pipe)) }

    function QueryState(): PlayerState {
      if !open then this else Waited().(state := Waited().pipe.state)
    }

    function Timed(): PlayerState {
      if !open then this
      else match Position(pipe) case None => this case Some(ns) => this.(time := Seconds(ns))
    }

    function GetTime(): real { if open then Timed().time else 0.0 }

    /** Anchors a network seek at the current clock. */
    function ArmSeek(t: real): PlayerState {
      this.(
        pendingSeek := Clamp(t, 0.0, duration),
        net := net.(pendingTime := if net.clock then pipe.now else CLOCK_NONE, netSeeks := net.netSeeks + [t]))
    }

    function Capturing(back: GstState): PlayerState { this.(net := net.(pendingState := back)) }

    function ServerSetTime(t: real): PlayerState {
      var s := ArmSeek(t).QueryState();
      s.Capturing(s.state)
    }

    function BaseSetTime(t: real): PlayerState {
      if !open then this
      else if seekingLock || duration == 0.0 then this.(pendingSeek := t)
      else
        var (p, ok) := Gst.Seek(pipe, Trunc(Clamp(t, 0.0, duration) * 1000000000.0));
        if ok then this.(pipe := p, seekingLock := true, pendingSeek := -1.0) else this.(pipe := p)
    }

    function SetTime(t: real): PlayerState {
      if kind.Server? then ServerSetTime(t) else BaseSetTime(t)
    }

    /** Owes a resume at `x`; a negative one is none. */
    function OwingResume(x: real): PlayerState { this.(net := net.(pendingStateSeek := x)) }

    function OnBeforeSetState(to: GstState): PlayerState {
      if !kind.Server? then this
      else if to == Null then OwingResume(0.0)
      else if to == Paused then Timed().OwingResume(GetTime())
      else this
    }

    function OnStateChanged(): PlayerState {
      if !kind.Server? then this
      else
        var s := QueryState();
        if s.state == Playing && s.net.pendingStateSeek >= 0.0
        then s.ServerSetTime(s.net.pendingStateSeek).OwingResume(-1.0)
        else s
    }

    /** Asks the pipeline for a state. */
    function Requested(to: GstState): PlayerState { this.(pipe := Gst.SetState(pipe, to).0) }

    function SetState(to: GstState): PlayerState {
      if !open then this
      else
        var s := OnBeforeSetState(to);
        if Answer(s.pipe) == Done then s.Requested(to).OnStateChanged() else s.Requested(to)
    }

    function Stop(): PlayerState { SetState(Null).SetState(Ready) }

    function Play(): PlayerState {
      var s := SetState(Playing);
      if !s.mute then s
      else
        var t := s.Heard();
        if s.GetVolume() != 0.0 then t.SetMute(true) else t
    }

    function Pause(): PlayerState { SetState(Paused) }

    function Replay(): PlayerState { Stop().Play() }

    // ---------- Volume ----------

    function Heard(): PlayerState { if open then this.(volume := pipe.volume) else this }

    function GetVolume(): real { if open then pipe.volume else 0.0 }

    function SetVolume(v: real): PlayerState {
      if !open && volume == v && mute then this
      else
        var c := Clamp(v, 0.0, 1.0);
        this.(volume := c, mute := false, pipe := if open then pipe.(volume := c) else pipe)
    }

    function SetMute(on: bool): PlayerState {
      if !open && !(on && saved == 0.0) then this
      else if on then Heard().(saved := GetVolume()).SetVolume(0.0).(mute := true)
      else this.(mute := false).SetVolume(saved).(saved := 1.0)
    }

    // ---------- The update loop ----------

    function Handle(m: Message): PlayerState {
      match m
      case StateChanged(before, after) =>
        var s := this.(state := after);
        if before != after then s.OnStateChanged() else s
      case AsyncDone =>
        var s := this.(seekingLock := false);
        if pendingSeek >= 0.0 then s.SetTime(pendingSeek) else s
      case DurationChanged(d) => this.(duration := d)
      case Eos => if loop then Replay() else Pause()
      case Other => this
    }

    function Popped(): PlayerState
      requires pipe.bus != []
    {
      this.(pipe := pipe.(bus := pipe.bus[1..]))
    }
  }
}
