/** The player classes as objects: the fields and methods of Player, PlayerServer and
    PlayerClient (source/nsvr), each method against the function that specifies it. A virtual
    call is resolved by the kind of the player. */
module PlayerObjects {
  import opened Options
  import opened Gst
  import opened Players
  import opened Updates
  import Packets = PacketHandler

  class Player {
    const kind: Kind
    var mOpen: bool
    var mPipeline: Pipeline
    var mState: GstState
    var mPendingSeek: real
    var mSeekingLock: bool
    var mDuration: real
    var mTime: real
    var mVolume: real
    var mMute: bool
    var mLoop: bool
    var savedVolume: real
    var mNetClock: bool
    var mBaseTime: ClockTime
    var mPendingCurrentTime: ClockTime
    var mPendingStateSeek: real
    var mPendingState: GstState
    var mHeartbeatCounter: UInt32
    var mHeartbeatFrequency: UInt32
    ghost var sent: seq<string>
    ghost var netSeeks: seq<real>

    ghost function NetModel(): Net
      reads this
    {
      Net(mNetClock, mBaseTime, mPendingCurrentTime, mPendingStateSeek, mPendingState, mHeartbeatCounter,
          mHeartbeatFrequency, sent, netSeeks)
    }

    ghost function Model(): PlayerState
      reads this
    {
      PlayerState(kind, mOpen, mPipeline, mState, mPendingSeek, mSeekingLock, mDuration, mTime, mVolume, mMute,
                  mLoop, savedVolume, NetModel())
    }

    constructor (kind: Kind, idle: Pipeline)
      ensures this.kind == kind && !mOpen && mPipeline == idle && mState == Null && mPendingSeek == -1.0
      ensures !mSeekingLock && mDuration == mTime == 0.0 && mVolume == savedVolume == 1.0 && !mMute && !mLoop
      ensures mBaseTime == 0 && !mNetClock && mHeartbeatCounter == 0 && mHeartbeatFrequency == 30
      ensures mPendingStateSeek == -1.0 && mPendingState == Null && mPendingCurrentTime == CLOCK_NONE
      ensures sent == [] && netSeeks == []
    {
      this.kind := kind;
      mOpen, mPipeline, mState, mPendingSeek, mSeekingLock := false, idle, Null, -1.0, false;
      mDuration, mTime, mVolume, mMute, mLoop, savedVolume := 0.0, 0.0, 1.0, false, false, 1.0;
      mNetClock, mBaseTime, mPendingCurrentTime := false, 0, CLOCK_NONE;
      mPendingStateSeek, mPendingState := -1.0, Null;
      mHeartbeatCounter, mHeartbeatFrequency := 0, 30;
      sent, netSeeks := [], [];
    }

    // ---------- Player: states and seeks ----------

    method QueryState() returns (state: GstState)
      modifies this
      ensures Model() == old(Model()).QueryState() && state == mState
    {
      if mOpen {
        mPipeline := Gst.GetState(mPipeline);
        mState := mPipeline.state;
      }
      state := mState;
    }

    method GetTime() returns (time: real)
      modifies this
      ensures Model() == old(Model()).Timed() && time == old(Model()).GetTime()
    {
      if !mOpen {
        return 0.0;
      }
      match Position(mPipeline) {
        case None =>
        case Some(ns) => mTime := Seconds(ns);
      }
      time := mTime;
    }

    method SetTime(time: real)
      modifies this
      ensures Model() == old(Model()).SetTime(time)
    {
      if kind.Server? {
        NetworkSetTime(time);
      } else {
        PlainSetTime(time);
      }
    }

    method NetworkSetTime(time: real)
      modifies this
      ensures Model() == old(Model()).ServerSetTime(time)
    {
      ArmSeek(time);
      mPendingState := QueryState();
    }

    method ArmSeek(time: real)
      modifies this
      ensures Model() == old(Model()).ArmSeek(time)
    {
      mPendingCurrentTime := if mNetClock then mPipeline.now else CLOCK_NONE;
      mPendingSeek := Clamp(time, 0.0, mDuration);
      netSeeks := netSeeks + [time];
    }

    method PlainSetTime(time: real)
      modifies this
      ensures Model() == old(Model()).BaseSetTime(time)
    {
      if !mOpen {
        return;
      }
      if mSeekingLock || mDuration == 0.0 {
        mPendingSeek := time;
        return;
      }
      var ok: bool;
      mPipeline, ok := SeekSimple(Trunc(Clamp(time, 0.0, mDuration) * 1000000000.0));
      if ok {
        mSeekingLock := true;
        mPendingSeek := -1.0;
      }
    }

    method SeekSimple(ns: int) returns (pipeline: Pipeline, ok: bool)
      ensures (pipeline, ok) == Gst.Seek(mPipeline, ns)
    {
      var r := Gst.Seek(mPipeline, ns);
      pipeline, ok := r.0, r.1;
    }

    method OnBeforeSetState(target: GstState)
      modifies this
      ensures Model() == old(Model()).OnBeforeSetState(target)
    {
      if kind.Server? {
        if target == Null {
          mPendingStateSeek := 0.0;
        } else if target == Paused {
          mPendingStateSeek := GetTime();
        }
      }
    }

    method OnStateChanged()
      modifies this
      ensures Model() == old(Model()).OnStateChanged()
    {
      if kind.Server? {
        var state := QueryState();
        if state == Playing && mPendingStateSeek >= 0.0 {
          SetTime(mPendingStateSeek);
          mPendingStateSeek := -1.0;
        }
      }
    }

    method SetState(target: GstState)
      modifies this
      ensures Model() == old(Model()).SetState(target)
    {
      if !mOpen {
        return;
      }
      OnBeforeSetState(target);
      var r := Gst.SetState(mPipeline, target);
      mPipeline := r.0;
      if r.1 == Done {
        OnStateChanged();
      }
    }

    method Stop()
      modifies this
      ensures Model() == old(Model()).Stop()
    {
      SetState(Null);
      SetState(Ready);
    }

    method Play()
      modifies this
      ensures Model() == old(Model()).Play()
    {
      SetState(Playing);
      if mMute {
        var volume := GetVolume();
        if volume != 0.0 {
          SetMute(true);
        }
      }
    }

    method Replay()
      modifies this
      ensures Model() == old(Model()).Replay()
    {
      Stop();
      Play();
    }

    method Pause()
      modifies this
      ensures Model() == old(Model()).Pause()
    {
      SetState(Paused);
    }

    // ---------- Player: volume ----------

    method GetVolume() returns (volume: real)
      modifies this
      ensures Model() == old(Model()).Heard() && volume == old(Model()).GetVolume()
    {
      if !mOpen {
        return 0.0;
      }
      mVolume := mPipeline.volume;
      volume := mVolume;
    }

    method SetVolume(vol: real)
      modifies this
      ensures Model() == old(Model()).SetVolume(vol)
    {
      if !(mOpen || mVolume != vol || !mMute) {
        return;
      }
      mVolume := Clamp(vol, 0.0, 1.0);
      mMute := false;
      if mOpen {
        mPipeline := mPipeline.(volume := mVolume);
      }
    }

    method SetMute(on: bool)
      modifies this
      ensures Model() == old(Model()).SetMute(on)
    {
      if !(mOpen || (on && savedVolume == 0.0)) {
        return;
      }
      if on {
        savedVolume := GetVolume();
        SetVolume(0.0);
        mMute := true;
      } else {
        mMute := false;
        SetVolume(savedVolume);
        savedVolume := 1.0;
      }
    }

    // ---------- Player: the update loop ----------

    method Handle(message: Message)
      modifies this
      ensures Model() == old(Model()).Handle(message)
    {
      match message {
        case StateChanged(before, after) =>
          mState := after;
          if before != mState {
            OnStateChanged();
          }
        case AsyncDone =>
          if mSeekingLock {
            mSeekingLock := false;
          }
          if mPendingSeek >= 0.0 {
            SetTime(mPendingSeek);
          }
        case DurationChanged(seconds) => mDuration := seconds;
        case Eos =>
          if mLoop {
            Replay();
          } else {
            Pause();
          }
        case Other =>
      }
    }

    method HandleNext()
      requires mOpen && mPipeline.bus != []
      modifies this
      ensures Model() == HandleFirst(old(Model()))
    {
      var message := mPipeline.bus[0];
      mPipeline := mPipeline.(bus := mPipeline.bus[1..]);
      Handle(message);
    }

    method Update(messages: seq<string>)
      modifies this
      ensures Model() == Updates.Update(old(Model()), messages)
    {
      OnBeforeUpdate(messages);
      ghost var start := Model();
      while mOpen && mPipeline.bus != []
        invariant Drain(Model()) == Drain(start)
        decreases Work(mPipeline)
      {
        DrainStep(Model());
        HandleWork(Model());
        HandleNext();
      }
      DrainStep(Model());
    }

    method OnBeforeUpdate(messages: seq<string>)
      modifies this
      ensures Model() ==
              match kind
              case Plain => old(Model())
              case Server => ServerBeforeUpdate(old(Model()))
              case Client => ClientBeforeUpdate(old(Model()), messages)
    {
      match kind {
        case Plain =>
        case Server => OnBeforeServerUpdate();
        case Client => OnBeforeClientUpdate(messages);
      }
    }

    // ---------- PlayerServer ----------

    method DispatchHeartbeat()
      modifies this
      ensures Model() == Updates.DispatchHeartbeat(old(Model()))
    {
      if !mOpen {
        return;
      }
      var time := GetTime();
      var volume := GetVolume();
      var text := Packets.Serialize(
        Packets.Packet(time, volume, if mMute then 1 else 0, mState.Code(), mPipeline.base));
      sent := sent + [text];
    }

    method CountHeartbeat()
      modifies this
      ensures Model() == Updates.CountHeartbeat(old(Model()))
    {
      if mHeartbeatCounter > mHeartbeatFrequency {
        DispatchHeartbeat();
        mHeartbeatCounter := 0;
      }
    }

    method OnBeforeServerUpdate()
      modifies this
      ensures Model() == ServerBeforeUpdate(old(Model()))
    {
      if !mOpen {
        return;
      }
      CountHeartbeat();
      AdvanceNetworkSeek();
      mHeartbeatCounter := (mHeartbeatCounter + 1) % 0x1_0000_0000;
    }

    method AdvanceNetworkSeek()
      modifies this
      ensures Model() == AdvanceSeek(old(Model()))
    {
      if mPendingSeek >= 0.0 {
        if mState != Ready {
          mPipeline := Gst.SetState(mPipeline, Ready).0;
        } else {
          var base := Rebase(mPipeline.base, mPendingCurrentTime, mPendingSeek);
          mPipeline := mPipeline.(base := base);
          mPipeline := Gst.SetState(mPipeline, mPendingState).0;
          mPendingSeek := -1.0;
          mPendingState := Null;
          mPendingCurrentTime := CLOCK_NONE;
        }
      }
    }

    method SetHeartbeatFrequency(frequency: UInt32)
      modifies this
      ensures Model() == Updates.SetHeartbeatFrequency(old(Model()), frequency)
    {
      if frequency == mHeartbeatFrequency {
        return;
      }
      mHeartbeatFrequency := frequency;
      mHeartbeatCounter := 0;
    }

    // ---------- PlayerClient ----------

    method OnMessage(message: string)
      modifies this
      ensures Model() == Updates.OnMessage(old(Model()), message)
    {
      if message == "" {
        return;
      }
      var ok, packet := Packets.Parse(message, NO_PACKET);
      if ok {
        MirrorPacket(packet);
      }
    }

    method MirrorPacket(packet: Packets.Packet)
      modifies this
      ensures Model() == Mirror(old(Model()), packet)
    {
      if mMute != (packet.mute != 0) {
        SetMute(packet.mute != 0);
      }
      var volume := GetVolume();
      if volume != packet.volume {
        SetVolume(packet.volume);
      }
      if !mOpen || mPipeline.base != packet.base {
        mBaseTime := packet.base;
      }
      if mBaseTime == 0 {
        var state := QueryState();
        var target := StateOf(packet.state);
        if target.Some? && state != target.value {
          SetState(target.value);
        }
      }
    }

    method OnBeforeClientUpdate(messages: seq<string>)
      modifies this
      ensures Model() == ClientBeforeUpdate(old(Model()), messages)
    {
      if !mOpen {
        return;
      }
      Iterate(messages);
      if mBaseTime != 0 {
        if mState != Ready {
          mPipeline := Gst.SetState(mPipeline, Ready).0;
        } else {
          SetupClock();
        }
      }
    }

    /** Hands over the datagrams waiting. */
    method Iterate(messages: seq<string>)
      modifies this
      ensures Model() == OnMessages(old(Model()), messages)
    {
      var i := 0;
      assert messages[0..] == messages;
      while i < |messages|
        invariant 0 <= i <= |messages|
        invariant OnMessages(Model(), messages[i..]) == OnMessages(old(Model()), messages)
      {
        assert messages[i..][1..] == messages[i + 1..];
        OnMessage(messages[i]);
        i := i + 1;
      }
    }

    method ClearClock()
      modifies this
      ensures Model() == Updates.ClearClock(old(Model()))
    {
      if !mOpen {
        return;
      }
      mNetClock := false;
      if kind.Client? {
        mPipeline := mPipeline.(base := CLOCK_NONE);
      }
    }

    method SetupClock()
      modifies this
      ensures Model() == Updates.SetupClock(old(Model()))
    {
      if !mOpen || kind.Plain? || (kind.Client? && mBaseTime == 0) {
        return;
      }
      ClearClock();
      var reply := Answer(mPipeline);
      mPipeline := Asked(mPipeline);
      mNetClock := reply != Failed;
      if kind.Client? {
        if reply != Failed {
          mPipeline := mPipeline.(base := mBaseTime);
        }
        mBaseTime := 0;
      } else if reply == Done {
        mPipeline := mPipeline.(base := mPipeline.now);
      }
    }

    // ---------- Opening and closing ----------

    method Reset()
      modifies this
      ensures Model() == Updates.Reset(old(Model()))
    {
      mState := Null;
      mOpen := false;
      ResetMedia();
      ResetSeeking();
    }

    method ResetSeeking()
      modifies this
      ensures Model() == old(Model()).(pendingSeek := -1.0, seekingLock := false)
    {
      mPendingSeek := -1.0;
      mSeekingLock := false;
    }

    method ResetMedia()
      modifies this
      ensures Model() == old(Model()).(duration := 0.0, time := 0.0, volume := 1.0)
    {
      mDuration := 0.0;
      mTime := 0.0;
      mVolume := 1.0;
    }

    method Close()
      modifies this
      ensures Model() == Updates.Close(old(Model()))
    {
      if !kind.Plain? {
        ClearClock();
      }
      Stop();
      Reset();
    }

    method Replace()
      modifies this
      ensures Model() == Replaced(old(Model()))
    {
      mOpen, mPipeline := true, Fresh(mPipeline.now, mPipeline.oracle, mPipeline.calls);
    }

    method Preroll(target: GstState) returns (reached: bool)
      modifies this
      ensures (Model(), reached) == Updates.Preroll(old(Model()), target)
    {
      var r := Gst.SetState(mPipeline, target);
      mPipeline := r.0;
      reached := true;
      if r.1 != Done {
        mPipeline := Gst.GetState(mPipeline);
        reached := mPipeline.state == target;
      }
    }

    method Open(media: Media) returns (success: bool)
      modifies this
      ensures (Model(), success) == Updates.Open(old(Model()), media)
    {
      if media.Uninitialised? {
        return false;
      }
      Close();
      match media {
        case Undiscovered => success := true;
        case Unlaunchable =>
          Close();
          success := false;
        case Incomplete =>
          Replace();
          Close();
          success := false;
        case Playable(seconds) => success := Launch(seconds);
        case _ => success := false;
      }
    }

    method Launch(seconds: real) returns (success: bool)
      modifies this
      ensures (Model(), success) == Updates.Launch(old(Model()), seconds)
    {
      Replace();
      SetupClock();
      var reached := Preroll(Ready);
      if !reached {
        Close();
        return false;
      }
      reached := Preroll(Paused);
      if !reached {
        Close();
        return false;
      }
      mDuration := seconds;
      success := true;
    }
  }
}
