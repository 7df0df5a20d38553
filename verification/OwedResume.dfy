/** When a server in PLAYING can owe a resume seek (source/nsvr/nsvr_player_server.cpp). */
module OwedResume {
  import opened Gst
  import opened Players
  import opened Updates
  import opened Invariants
  import opened Preservation
  import opened Runs
  import opened NetworkSeek

  ghost predicate Proper(m: Message) { m.StateChanged? ==> m.before != m.after }

  ghost predicate ProperBus(bus: seq<Message>) { forall k :: 0 <= k < |bus| ==> Proper(bus[k]) }

  /** In PLAYING to stay, owing a resume that no queued notification will start. */
  ghost predicate Forgotten(s: PlayerState) {
    s.pipe.state == s.pipe.target == Playing && s.net.pendingStateSeek >= 0.0 && !HasChange(s.pipe.bus)
  }

  /** A server whose requests do not fail, forgetting no resume. */
  ghost predicate Mindful(s: PlayerState) {
    && s.kind.Server? && s.open && Unfailing(s.pipe) && ProperBus(s.pipe.bus) && CacheFollows(s) && !Forgotten(s)
    && (AllDone(s.pipe) ==> s.pipe.state == s.pipe.target) && (s.loop ==> AllDone(s.pipe))
  }

  lemma ReachProper(p: Pipeline, to: GstState)
    requires ProperBus(p.bus)
    ensures ProperBus(Reach(p, to).bus)
    ensures to != Null && (p.state != to || HasChange(p.bus)) ==> HasChange(Reach(p, to).bus)
  {
    PathShape(p.state, to);
    var bus := Reach(p, to).bus;
    if to != Null && p.state != to {
      assert bus[|bus| - 1] == Path(p.state, to)[|Path(p.state, to)| - 1];
    } else if to != Null && HasChange(p.bus) {
      var k :| 0 <= k < |p.bus| && p.bus[k].StateChanged?;
      assert bus[k] == p.bus[k];
    }
  }

  /** As `Mindful`, with the cache not yet written. */
  ghost predicate Found(s: PlayerState) {
    && s.kind.Server? && s.open && Unfailing(s.pipe) && ProperBus(s.pipe.bus)
    && (AllDone(s.pipe) ==> s.pipe.state == s.pipe.target) && (s.loop ==> AllDone(s.pipe))
  }

  lemma QueryMindful(s: PlayerState)
    requires Mindful(s)
    ensures Mindful(s.QueryState())
  {
    ReachProper(Asked(s.pipe), s.pipe.target);
  }

  lemma QueryFound(s: PlayerState)
    requires Found(s)
    ensures Found(s.QueryState()) && CacheFollows(s.QueryState())
    ensures s.QueryState().net == s.net && s.QueryState().pipe == Gst.GetState(s.pipe)
  {
    ReachProper(Asked(s.pipe), s.pipe.target);
  }

  /** A state change handled leaves no resume owed in PLAYING. */
  lemma ChangedMindful(s: PlayerState)
    requires Found(s)
    ensures Mindful(s.OnStateChanged())
  {
    var u := s.QueryState();
    QueryFound(s);
    QueryFound(u.ArmSeek(u.net.pendingStateSeek));
  }

  lemma SetTimeMindful(s: PlayerState, x: real)
    requires Mindful(s)
    ensures Mindful(s.SetTime(x))
  {
    QueryMindful(s.ArmSeek(x));
  }

  /** PLAYING is asked for while the pipeline is leaving it. */
  predicate Hurried(s: PlayerState, to: GstState) {
    to == Playing && s.pipe.state == Playing && s.pipe.target != Playing
  }

  lemma SetStateMindful(s: PlayerState, to: GstState)
    requires Mindful(s) && (Hurried(s, to) ==> AllDone(s.pipe))
    ensures Mindful(s.SetState(to))
  {
    var b := s.OnBeforeSetState(to);
    ReachProper(Asked(b.pipe), to);
    if Answer(b.pipe) == Done {
      ChangedMindful(b.(pipe := Reach(Asked(b.pipe), to)));
    }
  }

  lemma PlayMindful(s: PlayerState)
    requires Mindful(s) && (Hurried(s, Playing) ==> AllDone(s.pipe))
    ensures Mindful(s.Play())
  {
    SetStateMindful(s, Playing);
    PlayIsSetState(s);
  }

  lemma StopMindful(s: PlayerState)
    requires Mindful(s)
    ensures Mindful(s.Stop()) && s.Stop().pipe.oracle == s.pipe.oracle && s.Stop().loop == s.loop
  {
    SetStateMindful(s, Null);
    SetStateMindful(s.SetState(Null), Ready);
    StopKeeps(s);
  }

  lemma ReplayMindful(s: PlayerState)
    requires Mindful(s) && (Hurried(s.Stop(), Playing) ==> AllDone(s.pipe))
    ensures Mindful(s.Replay())
  {
    StopMindful(s);
    PlayMindful(s.Stop());
  }

  lemma TailMindful(s: PlayerState)
    requires Mindful(s) && Waiting(s)
    ensures Found(s.Popped()) && (!s.pipe.bus[0].StateChanged? ==> Mindful(s.Popped()))
  {
    var bus := s.pipe.bus;
    if HasChange(bus) && !bus[0].StateChanged? {
      var k :| 0 <= k < |bus| && bus[k].StateChanged?;
      assert bus[1..][k - 1] == bus[k];
    }
  }

  lemma HandleMindful(s: PlayerState)
    requires Mindful(s) && Waiting(s)
    ensures Mindful(HandleFirst(s))
  {
    var p := s.Popped();
    TailMindful(s);
    match s.pipe.bus[0] {
      case StateChanged(before, after) =>
        assert Proper(s.pipe.bus[0]);
        ChangedMindful(p.(state := after));
      case AsyncDone => SetTimeMindful(p.(seekingLock := false), p.pendingSeek);
      case Eos =>
        if p.loop {
          ReplayMindful(p);
        } else {
          SetStateMindful(p, Paused);
        }
      case _ =>
    }
  }

  lemma DrainMindful(s: PlayerState)
    requires Mindful(s)
    ensures Mindful(Drain(s))
  {
    forall t | Mindful(t) && Waiting(t) ensures Mindful(HandleFirst(t)) {
      HandleMindful(t);
    }
    DrainInvariant(s, t => Mindful(t));
  }

  lemma CommitMindful(s: PlayerState)
    requires Mindful(s) && s.state == Ready
    ensures Mindful(CommitSeek(s))
  {
    ReachProper(Asked(s.pipe.(base := Rebase(s.pipe.base, s.net.pendingTime, s.pendingSeek))), s.net.pendingState);
  }

  lemma ParkMindful(s: PlayerState)
    requires Mindful(s)
    ensures Mindful(s.(pipe := Gst.SetState(s.pipe, Ready).0))
  {
    ReachProper(Asked(s.pipe), Ready);
  }

  lemma AdvanceMindful(s: PlayerState)
    requires Mindful(s)
    ensures Mindful(AdvanceSeek(s))
  {
    if s.state == Ready {
      CommitMindful(s);
    } else {
      ParkMindful(s);
    }
  }

  lemma UpdateMindful(s: PlayerState, messages: seq<string>)
    requires Mindful(s)
    ensures Mindful(Update(s, messages))
  {
    BeforeUpdateIs(s);
    AdvanceMindful(s);
    DrainMindful(ServerBeforeUpdate(s));
  }

  /** State changes are reported by the pipeline only; unless requests succeed at once, PLAYING
      is not asked for while the pipeline is still leaving it. */
  ghost predicate Orderly(s: PlayerState, e: Event) {
    match e
    case DoOpen(_) => false
    case DoClose => false
    case DoPlay => Hurried(s, Playing) ==> AllDone(s.pipe)
    case DoSetState(to) => Hurried(s, to) ==> AllDone(s.pipe)
    case DoReplay => Hurried(s.Stop(), Playing) ==> AllDone(s.pipe)
    case DoSetLoop(on) => on ==> AllDone(s.pipe)
    case Meanwhile(h) => h.Post? ==> Proper(h.message)
    case _ => true
  }

  ghost predicate AllOrderly(s: PlayerState, events: seq<Event>)
    decreases |events|
  {
    events == [] || (Orderly(s, events[0]) && AllOrderly(Step(s, events[0]), events[1..]))
  }

  lemma HappenMindful(s: PlayerState, h: Happening)
    requires Mindful(s) && (h.Post? ==> Proper(h.message))
    ensures Mindful(s.(pipe := Happen(s.pipe, h)))
  {
    match h {
      case Tick(_) =>
      case Settle => ReachProper(s.pipe, s.pipe.target);
      case SeekDone => ChangeStays(s.pipe.bus, AsyncDone);
      case Post(m) => ChangeStays(s.pipe.bus, m);
    }
  }

  lemma StepMindful(s: PlayerState, e: Event)
    requires Mindful(s) && Orderly(s, e)
    ensures Mindful(Step(s, e))
  {
    match e {
      case DoUpdate(messages) => UpdateMindful(s, messages);
      case DoSetState(to) => SetStateMindful(s, to);
      case DoPause => SetStateMindful(s, Paused);
      case DoStop => StopMindful(s);
      case DoPlay => PlayMindful(s);
      case DoReplay => ReplayMindful(s);
      case DoQueryState => QueryMindful(s);
      case DoSetTime(x) => SetTimeMindful(s, x);
      case Meanwhile(h) => HappenMindful(s, h);
      case _ =>
    }
  }

  /** From opening to closing, in every orderly run whose requests do not fail, whatever is
      sought, posted or finished late: a server in PLAYING to stay owes no resume once its bus
      is drained. */
  lemma {:induction false} NoResumeForgotten(s: PlayerState, events: seq<Event>)
    requires Mindful(s) && AllOrderly(s, events)
    ensures Mindful(Run(s, events))
    ensures var t := Run(s, events);
            t.pipe.bus == [] && t.pipe.state == t.pipe.target == Playing ==> t.net.pendingStateSeek < 0.0
    decreases |events|
  {
    if events != [] {
      StepMindful(s, events[0]);
      NoResumeForgotten(Step(s, events[0]), events[1..]);
    }
  }

  /** Asking for PLAYING while the pipeline is leaving it forgets the resume exactly when that
      request does not succeed at once. */
  lemma HurriedPlayForgets(s: PlayerState)
    requires s.kind.Server? && s.open && Unfailing(s.pipe) && Hurried(s, Playing)
    requires s.net.pendingStateSeek >= 0.0 && !HasChange(s.pipe.bus)
    ensures Forgotten(s.SetState(Playing)) <==> Answer(s.pipe) != Done
  {}

  // ---------- Opening ----------

  /** A pipeline in a state to stay, with only path messages on its bus. */
  ghost predicate Rolled(s: PlayerState, to: GstState) {
    && s.open && s.pipe.state == s.pipe.target == to && (to != Null ==> HasChange(s.pipe.bus))
    && MildBus(s.pipe.bus, 0.0) && (forall k :: 0 <= k < |s.pipe.bus| ==> s.pipe.bus[k].StateChanged?)
  }

  ghost predicate SameButPipe(s: PlayerState, t: PlayerState) {
    t == s.(pipe := t.pipe) && t.pipe.oracle == s.pipe.oracle
  }

  lemma PathRolls(p: Pipeline, to: GstState)
    requires p.bus == [] || MildBus(p.bus, 0.0)
    requires (forall k :: 0 <= k < |p.bus| ==> p.bus[k].StateChanged?) && p.state != to && to != Null
    ensures var bus := Reach(p, to).bus;
            HasChange(bus) && MildBus(bus, 0.0) && forall k :: 0 <= k < |bus| ==> bus[k].StateChanged?
  {
    PathShape(p.state, to);
    ReachMild(p, to, 0.0);
  }

  lemma PrerollRolls(s: PlayerState, from: GstState, to: GstState)
    requires Rolled(s, from) && from != to && to != Null
    ensures SameButPipe(s, Preroll(s, to).0)
    ensures Preroll(s, to).1 ==> Rolled(Preroll(s, to).0, to)
  {
    PathRolls(Asked(s.pipe), to);
    PathRolls(Asked(Asked(s.pipe).(target := to)), to);
  }

  lemma InstallRolls(c: PlayerState)
    requires c.kind.Server?
    ensures var t := Install(c);
            Rolled(t, Null) && t.kind.Server? && t.pipe.oracle == c.pipe.oracle && t.pendingSeek == c.pendingSeek &&
            t.loop == c.loop && t.state == c.state
  {}

  /** However long it takes, an opening that succeeds gives such a server, in PAUSED and ready
      for a seek. */
  lemma OpenMindful(s: PlayerState, seconds: real)
    requires s.kind.Server? && seconds >= 0.0 && Open(s, Playable(seconds)).1
    ensures var t := Open(s, Playable(seconds)).0;
            Seekable(t, 0.0) && t.pendingSeek < 0.0 && t.pipe.state == t.pipe.target == Paused &&
            (Unfailing(s.pipe) && !s.loop ==> Mindful(t))
  {
    StopKeeps(ClearClock(s));
    var c := Close(s);
    InstallRolls(c);
    PrerollRolls(Install(c), Null, Ready);
    PrerollRolls(Preroll(Install(c), Ready).0, Ready, Paused);
  }
}
