/** The coupled mute and volume state (source/nsvr/nsvr_player.cpp), and how a client
    mirrors it (source/nsvr/nsvr_player_client.cpp). */
module MuteVolume {
  import opened Gst
  import opened Players
  import opened Updates
  import opened Invariants
  import opened Preservation
  import opened Runs
  import Packets = PacketHandler

  /** On an open pipeline, muted means silent. */
  predicate Silent(s: PlayerState) { s.open && s.mute ==> s.pipe.volume == 0.0 }

  lemma VolumeSilent(s: PlayerState, v: real, on: bool)
    requires s.open
    ensures Silent(s.SetVolume(v)) && !s.SetVolume(v).mute && s.SetVolume(v).pipe.volume == Clamp(v, 0.0, 1.0)
    ensures Silent(s.SetMute(on)) && s.SetMute(on).mute == on
  {}

  /** play() leaves a muted player silent whatever it found. */
  lemma PlaySilent(s: PlayerState)
    requires s.open
    ensures Silent(s.Play())
  {
    SetStateKeeps(s, Playing);
  }

  /** So does replay(). */
  lemma ReplaySilent(s: PlayerState)
    requires s.open
    ensures Silent(s.Replay())
  {
    StopKeeps(s);
    PlaySilent(s.Stop());
  }

  /** play() leaves the sound of an open player as it is, unless that is muted but audible: then
      it mutes again, and unmuting gives the volume found back. */
  lemma PlayKeepsSound(s: PlayerState)
    requires s.open && 0.0 <= s.pipe.volume <= 1.0
    ensures !s.mute || s.pipe.volume == 0.0 ==>
              var t := s.Play(); t.mute == s.mute && t.pipe.volume == s.pipe.volume && t.saved == s.saved
    ensures s.mute ==> var t := s.Play(); t.mute && t.pipe.volume == 0.0
    ensures s.mute && s.pipe.volume != 0.0 ==> s.Play().SetMute(false).pipe.volume == s.pipe.volume
  {
    SetStateKeeps(s, Playing);
  }

  /** Muting and unmuting gives the volume back; muting twice forgets it, and unmuting twice
      turns the volume up fully. */
  lemma UnmuteRestores(s: PlayerState)
    requires s.open && 0.0 <= s.pipe.volume <= 1.0
    ensures s.SetMute(true).SetMute(false).pipe.volume == s.pipe.volume
    ensures s.SetMute(true).SetMute(true).SetMute(false).pipe.volume == 0.0
    ensures s.SetMute(true).SetMute(false).SetMute(false).pipe.volume == 1.0
  {}

  /** A closed player remembers the volume it is given and is no longer muted, unless it is muted
      and has that volume already; muting and unmuting it does nothing, but that it can be muted
      where silence was saved. */
  lemma ClosedSound(s: PlayerState, v: real, on: bool)
    requires !s.open
    ensures var t := s.SetVolume(v);
            t == s.(volume := t.volume, mute := t.mute) && t.mute == (s.mute && s.volume == v) &&
            t.volume == (if t.mute then s.volume else Clamp(v, 0.0, 1.0))
    ensures var t := s.SetMute(on);
            if on && s.saved == 0.0 then t.mute && t.saved == 0.0 else t == s
    ensures s.GetVolume() == 0.0 && s.GetTime() == 0.0
  {}

  // ---------- An unmuted player ----------

  /** Not muted, at this volume. */
  predicate Audible(s: PlayerState, volume: real) { s.open && !s.mute && s.pipe.volume == volume }

  lemma PlayAudible(s: PlayerState, volume: real)
    requires Audible(s, volume)
    ensures Audible(s.Play(), volume) && Audible(s.Stop(), volume) && Audible(s.Stop().Play(), volume)
  {
    SetStateKeeps(s, Playing);
    StopKeeps(s);
    SetStateKeeps(s.Stop(), Playing);
  }

  lemma SetTimeAudible(s: PlayerState, x: real, volume: real)
    requires Audible(s, volume)
    ensures Audible(s.SetTime(x), volume)
  {
    if s.kind.Server? {
      ServerSetTimeKeeps(s, x);
    }
  }

  lemma HandleAudible(s: PlayerState, volume: real)
    requires Audible(s, volume) && Waiting(s)
    ensures Audible(HandleFirst(s), volume)
  {
    var p := s.Popped();
    match s.pipe.bus[0] {
      case StateChanged(before, after) => StateChangedKeeps(p.(state := after));
      case AsyncDone => SetTimeAudible(p.(seekingLock := false), p.pendingSeek, volume);
      case Eos =>
        PlayAudible(p, volume);
        SetStateKeeps(p, Paused);
      case _ =>
    }
  }

  lemma UpdateAudible(s: PlayerState, volume: real, messages: seq<string>)
    requires Audible(s, volume) && !s.kind.Client?
    ensures Audible(Update(s, messages), volume) && Update(s, messages).kind == s.kind
  {
    var b := if s.kind.Server? then ServerBeforeUpdate(s) else s;
    CountSameSound(s);
    AdvanceSameSound(CountHeartbeat(s));
    forall t | Audible(t, volume) && Waiting(t) ensures Audible(HandleFirst(t), volume) {
      HandleAudible(t, volume);
    }
    DrainInvariant(b, t => Audible(t, volume));
    DrainKeeps(b);
  }

  /** Calls and happenings that do not set the sound, open or close. */
  predicate Soundless(e: Event) { !e.DoSetVolume? && !e.DoSetMute? && !e.DoOpen? && !e.DoClose? }

  lemma StepAudible(s: PlayerState, volume: real, e: Event)
    requires Audible(s, volume) && !s.kind.Client? && Soundless(e)
    ensures Audible(Step(s, e), volume) && Step(s, e).kind == s.kind
  {
    match e {
      case DoUpdate(messages) => UpdateAudible(s, volume, messages);
      case DoSetState(to) => SetStateKeeps(s, to);
      case DoStop => StopKeeps(s);
      case DoPause => SetStateKeeps(s, Paused);
      case DoPlay => PlayAudible(s, volume); CommandKeeps(s, e);
      case DoReplay => PlayAudible(s, volume); CommandKeeps(s, e);
      case DoSetTime(x) => SetTimeAudible(s, x, volume); CommandKeeps(s, e);
      case _ =>
    }
  }

  /** Nothing but setting the sound changes it: an unmuted plain player or server keeps its volume
      and stays unmuted, whatever is played, replayed or sought. */
  lemma {:induction false} RunAudible(s: PlayerState, volume: real, events: seq<Event>)
    requires Audible(s, volume) && !s.kind.Client? && forall k :: 0 <= k < |events| ==> Soundless(events[k])
    ensures Audible(Run(s, events), volume)
    decreases |events|
  {
    if events != [] {
      StepAudible(s, volume, events[0]);
      RunAudible(Step(s, events[0]), volume, events[1..]);
    }
  }

  // ---------- Every run but for reopening ----------

  lemma SilentKept()
    ensures KeptByMessages(Silent) && KeptByHeartbeats(Silent)
  {}

  lemma DrainSilent(s: PlayerState)
    requires Silent(s)
    ensures Silent(Drain(s))
  {
    SilentKept();
    DrainInv(Silent, s);
  }

  lemma FollowedSoundOnly(s: PlayerState, h: Packets.Packet)
    ensures SoundOnly(s, Followed(s, h))
  {
    var a := if s.mute != (h.mute != 0) then s.SetMute(h.mute != 0) else s;
    assert SoundOnly(s, a);
    assert SoundOnly(a, Followed(s, h));
  }

  /** The rest of a heartbeat leaves mute and volume alone. */
  lemma MirrorIsFollowed(s: PlayerState, p: Packets.Packet)
    ensures var f, t := Followed(s, p), Mirror(s, p);
            t.open == f.open && t.mute == f.mute && t.pipe.volume == f.pipe.volume
  {
    ObeyKeeps(PendBase(Followed(s, p), p.base), p.state);
  }

  ghost predicate SameSound(s: PlayerState, t: PlayerState) {
    t.open == s.open && t.mute == s.mute && t.pipe.volume == s.pipe.volume
  }

  lemma CountSameSound(s: PlayerState)
    ensures SameSound(s, CountHeartbeat(s))
  {}

  lemma AdvanceSameSound(s: PlayerState)
    ensures SameSound(s, AdvanceSeek(s))
  {}

  lemma ServerBeforeSilent(s: PlayerState)
    requires Silent(s)
    ensures Silent(ServerBeforeUpdate(s))
  {
    CountSameSound(s);
    AdvanceSameSound(CountHeartbeat(s));
  }

  lemma AdoptSilent(s: PlayerState)
    requires Silent(s)
    ensures Silent(AdoptBase(s))
  {
    SetupKeepsSound(s);
  }

  lemma UpdateSilent(s: PlayerState, messages: seq<string>)
    requires Silent(s)
    ensures Silent(Update(s, messages))
  {
    match s.kind {
      case Plain => DrainSilent(s);
      case Server =>
        ServerBeforeSilent(s);
        DrainSilent(ServerBeforeUpdate(s));
      case Client =>
        SilentKept();
        MessagesInv(Silent, s, messages);
        AdoptSilent(OnMessages(s, messages));
        DrainSilent(ClientBeforeUpdate(s, messages));
    }
  }

  lemma StepSilent(s: PlayerState, e: Event)
    requires Silent(s) && !e.DoOpen?
    ensures Silent(Step(s, e))
  {
    match e {
      case DoUpdate(messages) => UpdateSilent(s, messages);
      case DoClose => StopKeeps(if s.kind.Plain? then s else ClearClock(s));
      case _ =>
        if IsCommand(e) {
          SilentKept();
          CommandInv(Silent, s, e);
        }
    }
  }

  /** Only reopening can make a muted player audible. */
  lemma {:induction false} RunSilent(s: PlayerState, events: seq<Event>)
    requires Silent(s) && forall k :: 0 <= k < |events| ==> !events[k].DoOpen?
    ensures Silent(Run(s, events))
    decreases |events|
  {
    if events != [] {
      StepSilent(s, events[0]);
      RunSilent(Step(s, events[0]), events[1..]);
    }
  }

  lemma CloseKeepsMute(s: PlayerState)
    ensures Close(s).mute == s.mute
  {
    StopKeeps(if s.kind.Plain? then s else ClearClock(s));
  }

  lemma PrerollKeepsSound(s: PlayerState, to: GstState)
    ensures SameSound(s, Preroll(s, to).0)
  {}

  lemma SetupKeepsSound(s: PlayerState)
    ensures SameSound(s, SetupClock(s))
  {}

  /** A new pipeline plays at full volume and the mute flag stays: it is silent exactly when
      the player was not muted, until play() mutes it again. */
  lemma ReopenBreaks(s: PlayerState, seconds: real)
    requires Open(s, Playable(seconds)).1
    ensures var t := Open(s, Playable(seconds)).0;
            t.open && (Silent(t) <==> !s.mute) && Silent(t.Play())
  {
    var l := Install(Close(s));
    CloseKeepsMute(s);
    SetupKeepsSound(Replaced(Close(s)));
    PrerollKeepsSound(l, Ready);
    PrerollKeepsSound(Preroll(l, Ready).0, Paused);
    PlaySilent(Open(s, Playable(seconds)).0);
  }

  // ---------- Mirroring ----------

  predicate Follows(s: PlayerState, p: Packets.Packet) {
    s.mute == (p.mute != 0) && s.pipe.volume == p.volume
  }

  /** A heartbeat a server can send: in range, and silent when muted. */
  predicate Plausible(p: Packets.Packet) {
    0.0 <= p.volume <= 1.0 && (p.mute != 0 ==> p.volume == 0.0)
  }

  /** One heartbeat is enough for a client that is silent when muted, two for any client,
      and more change nothing. */
  lemma HeartbeatFollowed(s: PlayerState, p: Packets.Packet)
    requires s.open && Plausible(p)
    ensures Silent(s) ==> Follows(Mirror(s, p), p)
    ensures Follows(Mirror(Mirror(s, p), p), p)
    ensures Follows(s, p) ==> Follows(Mirror(s, p), p)
  {
    MirrorIsFollowed(s, p);
    MirrorIsFollowed(Mirror(s, p), p);
    FollowedSilent(s, p);
    FollowedSilent(Mirror(s, p), p);
  }

  lemma FollowedSilent(s: PlayerState, p: Packets.Packet)
    requires s.open && Plausible(p)
    ensures var f := Followed(s, p);
            f.open && Silent(f) && (Silent(s) || Follows(s, p) ==> Follows(f, p))
  {}

  /** Two may be needed: unmuting through the volume costs a muted but audible client its
      mute flag. */
  lemma OneHeartbeatNotEnough(s: PlayerState, p: Packets.Packet)
    requires s.open && Plausible(p) && s.mute && p.mute != 0
    ensures Follows(Mirror(s, p), p) <==> Silent(s)
  {
    MirrorIsFollowed(s, p);
  }
}
