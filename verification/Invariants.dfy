/** An invariant principle: what the single steps of the methods keep, the methods keep. */
module Invariants {
  import opened Gst
  import opened Players
  import opened Updates
  import Packets = PacketHandler

  // ---------- State changes ----------

  /** Kept by asking the pipeline for a state, and by asking it how it is. */
  ghost predicate KeptByPipeline(inv: PlayerState -> bool) {
    && (forall s, to :: inv(s) ==> inv(s.Requested(to)))
    && (forall s :: inv(s) ==> inv(s.Waited()))
    && (forall s :: inv(s) ==> inv(s.QueryState()))
    && (forall s :: inv(s) ==> inv(s.Timed()))
  }

  /** Kept by a server's seeks, and by what it notes down to resume. */
  ghost predicate KeptByNotes(inv: PlayerState -> bool) {
    && (forall s, x :: inv(s) && s.kind.Server? ==> inv(s.ServerSetTime(x)))
    && (forall s, x :: inv(s) && s.kind.Server? ==> inv(s.OwingResume(x)))
  }

  ghost predicate KeptByRequests(inv: PlayerState -> bool) { KeptByPipeline(inv) && KeptByNotes(inv) }

  /** Kept by what a server's seek notes down before and after its query. */
  ghost predicate KeptByArming(inv: PlayerState -> bool) {
    && (forall s, x :: inv(s) && s.kind.Server? ==> inv(s.ArmSeek(x)))
    && (forall s, back :: inv(s) && s.kind.Server? ==> inv(s.Capturing(back)))
    && (forall s, x :: inv(s) && s.kind.Server? ==> inv(s.OwingResume(x)))
  }

  lemma ArmingInv(inv: PlayerState -> bool)
    requires KeptByPipeline(inv) && KeptByArming(inv)
    ensures KeptByRequests(inv)
  {
    forall s, x | inv(s) && s.kind.Server? ensures inv(s.ServerSetTime(x)) {
      var a := s.ArmSeek(x);
      assert inv(a) && inv(a.QueryState());
    }
  }

  lemma StateChangedInv(inv: PlayerState -> bool, s: PlayerState)
    requires KeptByRequests(inv) && inv(s)
    ensures inv(s.OnStateChanged())
  {
    var q := s.QueryState();
    if q.kind.Server? {
      assert inv(q.ServerSetTime(q.net.pendingStateSeek));
    }
  }

  lemma BeforeSetStateInv(inv: PlayerState -> bool, s: PlayerState, to: GstState)
    requires KeptByRequests(inv) && inv(s)
    ensures inv(s.OnBeforeSetState(to))
  {}

  lemma SetStateInv(inv: PlayerState -> bool, s: PlayerState, to: GstState)
    requires KeptByRequests(inv) && inv(s)
    ensures inv(s.SetState(to))
  {
    var b := s.OnBeforeSetState(to);
    BeforeSetStateInv(inv, s, to);
    StateChangedInv(inv, b.Requested(to));
  }

  lemma StopInv(inv: PlayerState -> bool, s: PlayerState)
    requires KeptByRequests(inv) && inv(s)
    ensures inv(s.Stop())
  {
    SetStateInv(inv, s, Null);
    SetStateInv(inv, s.SetState(Null), Ready);
  }

  lemma ObeyInv(inv: PlayerState -> bool, s: PlayerState, code: int)
    requires KeptByRequests(inv) && inv(s)
    ensures inv(Obey(s, code))
  {
    if StateOf(code).Some? {
      SetStateInv(inv, s.QueryState(), StateOf(code).value);
    }
  }

  lemma PrerollInv(inv: PlayerState -> bool, s: PlayerState, to: GstState)
    requires KeptByRequests(inv) && inv(s)
    ensures inv(Preroll(s, to).0)
  {}

  // ---------- Sound ----------

  /** Kept by setting the volume and the mute flag, and by reading the volume. */
  ghost predicate KeptBySound(inv: PlayerState -> bool) {
    && (forall s :: inv(s) ==> inv(s.Heard()))
    && (forall s, v :: inv(s) ==> inv(s.SetVolume(v)))
    && (forall s, on :: inv(s) ==> inv(s.SetMute(on)))
  }

  lemma PlayInv(inv: PlayerState -> bool, s: PlayerState)
    requires KeptByRequests(inv) && KeptBySound(inv) && inv(s)
    ensures inv(s.Play())
  {
    SetStateInv(inv, s, Playing);
    assert inv(s.SetState(Playing).Heard());
  }

  lemma ReplayInv(inv: PlayerState -> bool, s: PlayerState)
    requires KeptByRequests(inv) && KeptBySound(inv) && inv(s)
    ensures inv(s.Replay())
  {
    StopInv(inv, s);
    PlayInv(inv, s.Stop());
  }

  /** Only the sound differs. */
  ghost predicate SoundOnly(s: PlayerState, t: PlayerState) {
    t == s.(mute := t.mute, volume := t.volume, saved := t.saved, pipe := s.pipe.(volume := t.pipe.volume))
  }

  lemma SettingSound(s: PlayerState, v: real, on: bool)
    ensures SoundOnly(s, s.SetVolume(v)) && SoundOnly(s, s.SetMute(on))
  {}

  /** Playing is a state change and, for a muted player, muting again. */
  lemma PlayIsSetState(s: PlayerState)
    ensures SoundOnly(s.SetState(Playing), s.Play())
  {}

  // ---------- Messages ----------

  /** A message popped, and what it writes by itself. */
  function Read(s: PlayerState): PlayerState
    requires Waiting(s)
  {
    match s.pipe.bus[0]
    case StateChanged(_, after) => s.Popped().(state := after)
    case AsyncDone => s.Popped().(seekingLock := false)
    case DurationChanged(d) => s.Popped().(duration := d)
    case _ => s.Popped()
  }

  /** Kept by reading messages and by seeking. */
  ghost predicate KeptByReading(inv: PlayerState -> bool) {
    && (forall s :: inv(s) && Waiting(s) ==> inv(Read(s)))
    && (forall s, x :: inv(s) && !s.kind.Server? ==> inv(s.BaseSetTime(x)))
  }

  ghost predicate KeptByMessages(inv: PlayerState -> bool) {
    KeptByRequests(inv) && KeptBySound(inv) && KeptByReading(inv)
  }

  /** An invariant that only reads what a relation between states keeps. */
  lemma KeptThrough(inv: PlayerState -> bool, keeping: PlayerState -> (PlayerState -> bool))
    requires forall s :: KeptByMessages(keeping(s)) && keeping(s)(s)
    requires forall s, t :: inv(s) && keeping(s)(t) ==> inv(t)
    ensures KeptByMessages(inv)
  {
    forall s | inv(s) ensures KeptByMessages(keeping(s)) && keeping(s)(s) {
    }
  }

  lemma SetTimeInv(inv: PlayerState -> bool, s: PlayerState, x: real)
    requires KeptByMessages(inv) && inv(s)
    ensures inv(s.SetTime(x))
  {}

  lemma HandleInv(inv: PlayerState -> bool, s: PlayerState)
    requires KeptByMessages(inv) && inv(s) && Waiting(s)
    ensures inv(HandleFirst(s))
  {
    var p := Read(s);
    assert inv(p);
    match s.pipe.bus[0] {
      case StateChanged(_, _) => StateChangedInv(inv, p);
      case AsyncDone => SetTimeInv(inv, p, p.pendingSeek);
      case Eos => ReplayInv(inv, p); SetStateInv(inv, p, Paused);
      case _ =>
    }
  }

  /** What single steps keep, the bus loop keeps. */
  lemma DrainInv(inv: PlayerState -> bool, s: PlayerState)
    requires KeptByMessages(inv) && inv(s)
    ensures inv(Drain(s)) && !Waiting(Drain(s))
  {
    forall t | inv(t) && Waiting(t) ensures inv(HandleFirst(t)) {
      HandleInv(inv, t);
    }
    DrainInvariant(s, inv);
  }

  // ---------- Heartbeats ----------

  /** Kept by noting down a pending base besides. */
  ghost predicate KeptByHeartbeats(inv: PlayerState -> bool) {
    KeptByRequests(inv) && KeptBySound(inv) && forall s, base :: inv(s) ==> inv(PendBase(s, base))
  }

  lemma FollowedInv(inv: PlayerState -> bool, s: PlayerState, p: Packets.Packet)
    requires KeptBySound(inv) && inv(s)
    ensures inv(Followed(s, p))
  {
    var a := if s.mute != (p.mute != 0) then s.SetMute(p.mute != 0) else s;
    assert inv(a) && inv(a.Heard());
  }

  lemma MirrorInv(inv: PlayerState -> bool, s: PlayerState, p: Packets.Packet)
    requires KeptByHeartbeats(inv) && inv(s)
    ensures inv(Mirror(s, p))
  {
    FollowedInv(inv, s, p);
    ObeyInv(inv, PendBase(Followed(s, p), p.base), p.state);
  }

  /** What single steps keep, a client hearing its messages keeps. */
  lemma {:induction false} MessagesInv(inv: PlayerState -> bool, s: PlayerState, messages: seq<string>)
    requires KeptByHeartbeats(inv) && inv(s)
    ensures inv(OnMessages(s, messages))
    decreases |messages|
  {
    if messages != [] {
      MirrorInv(inv, s, Packets.Parsed(messages[0], NO_PACKET).1);
      MessagesInv(inv, OnMessage(s, messages[0]), messages[1..]);
    }
  }

  // ---------- Opening and closing ----------

  /** Kept by taking a pipeline and its clock into use and by giving them up. */
  ghost predicate KeptByInstalling(inv: PlayerState -> bool) {
    && (forall s :: inv(s) ==> inv(ClearClock(s)))
    && (forall s :: inv(s) ==> inv(SetupClock(s)))
    && (forall s :: inv(s) ==> inv(Reset(s)))
    && (forall s :: inv(s) ==> inv(Replaced(s)))
    && (forall s, d :: inv(s) ==> inv(Lasting(s, d)))
  }

  ghost predicate KeptByOpening(inv: PlayerState -> bool) { KeptByRequests(inv) && KeptByInstalling(inv) }

  lemma CloseInv(inv: PlayerState -> bool, s: PlayerState)
    requires KeptByOpening(inv) && inv(s)
    ensures inv(Close(s))
  {
    StopInv(inv, if s.kind.Plain? then s else ClearClock(s));
  }

  lemma LaunchInv(inv: PlayerState -> bool, c: PlayerState, seconds: real)
    requires KeptByOpening(inv) && inv(c)
    ensures inv(Launch(c, seconds).0)
  {
    var i := Install(c);
    var r := Preroll(i, Ready).0;
    assert inv(Replaced(c));
    PrerollInv(inv, i, Ready);
    PrerollInv(inv, r, Paused);
    CloseInv(inv, r);
    CloseInv(inv, Preroll(r, Paused).0);
  }

  /** What single steps keep, opening keeps, whatever it comes to. */
  lemma OpenInv(inv: PlayerState -> bool, s: PlayerState, media: Media)
    requires KeptByOpening(inv) && inv(s)
    ensures inv(Open(s, media).0)
  {
    var c := Close(s);
    CloseInv(inv, s);
    CloseInv(inv, c);
    CloseInv(inv, Replaced(c));
    if media.Playable? {
      LaunchInv(inv, c, media.seconds);
    }
  }
}
