/** What the end of the stream leads to (source/nsvr/nsvr_player.cpp): a replay when looping, a
    pause otherwise. Requests succeed at once. */
module EndOfStream {
  import opened Gst
  import opened Players
  import opened Updates
  import opened Invariants
  import opened Runs
  import opened CachedState
  import opened NetworkSeek
  import opened Resuming
  import opened Overtaking

  function Ending(loop: bool): GstState { if loop then Playing else Paused }

  // ---------- Plain players and clients ----------

  /** A prompt player with no transition under way. */
  ghost predicate Prompted(s: PlayerState) {
    !s.kind.Server? && s.open && AllDone(s.pipe) && s.pipe.state == s.pipe.target
  }

  /** The end of the stream is still to be read, or has been acted upon. */
  ghost predicate Ended(s: PlayerState, loop: bool) {
    Prompted(s) && s.loop == loop &&
    if EosCount(s.pipe.bus) == 0 then s.pipe.state == Ending(loop)
    else EosCount(s.pipe.bus) == 1 && s.pipe.state == Playing
  }

  lemma PromptSetState(s: PlayerState, to: GstState)
    requires Prompted(s)
    ensures var t := s.SetState(to);
            Prompted(t) && t.loop == s.loop && t.pipe.state == to &&
            EosCount(t.pipe.bus) == if to == Null then 0 else EosCount(s.pipe.bus)
  {
    PathShape(s.pipe.state, to);
    EosCountConcat(s.pipe.bus, Path(s.pipe.state, to));
    assert s.SetState(to) == s.(pipe := Reach(Asked(s.pipe), to));
  }

  lemma PromptReplay(s: PlayerState)
    requires Prompted(s)
    ensures var t := s.Replay();
            Prompted(t) && t.loop == s.loop && t.pipe.state == Playing && EosCount(t.pipe.bus) == 0
  {
    PromptSetState(s, Null);
    PromptSetState(s.SetState(Null), Ready);
    PromptSetState(s.Stop(), Playing);
    PlayIsSetState(s.Stop());
  }

  lemma HandleEnded(s: PlayerState, loop: bool)
    requires Ended(s, loop) && Waiting(s)
    ensures Ended(HandleFirst(s), loop)
  {
    var p := s.Popped();
    if s.pipe.bus[0].Eos? {
      PromptReplay(p);
      PromptSetState(p, Paused);
    }
  }

  /** An update that reads the end of the stream leaves a player that was playing in PLAYING
      exactly when it loops, and in PAUSED otherwise, and the cache says so. */
  lemma StreamEnds(s: PlayerState)
    requires Prompted(s) && s.pipe.state == Playing && EosCount(s.pipe.bus) == 1 && Cached(s)
    requires s.kind.Client? ==> s.net.baseTime == 0
    ensures var t := Update(s, []);
            t.pipe.state == t.state == (if s.loop then Playing else Paused) && t.pipe.bus == []
  {
    forall t | Ended(t, s.loop) && Waiting(t) ensures Ended(HandleFirst(t), s.loop) {
      HandleEnded(t, s.loop);
    }
    DrainInvariant(s, t => Ended(t, s.loop));
    DrainCached(s);
  }

  // ---------- A server ----------

  /** A prompt server playing to the end of its stream, with no seek waiting and no resume owed. */
  ghost predicate PlayedOut(s: PlayerState) {
    s.kind.Server? && s.open && AllDone(s.pipe) && s.pipe.state == s.pipe.target == Playing && s.pipe.bus == [Eos] &&
    s.duration >= 0.0 && s.pendingSeek < 0.0 && s.net.pendingStateSeek < 0.0
  }

  /** The server when it reads the end of the stream. */
  function AtEnd(s: PlayerState): PlayerState
    requires s.open && s.pipe.bus == [Eos]
  {
    var b := ServerBeforeUpdate(s);
    b.(pipe := b.pipe.(bus := []))
  }

  lemma AtEndIs(s: PlayerState)
    requires PlayedOut(s)
    ensures var p := AtEnd(s);
            Undisturbed(p, 0.0) && p.pipe == s.pipe.(bus := []) && p.loop == s.loop &&
            p.pendingSeek == s.pendingSeek && p.duration == s.duration &&
            p.net.netSeeks == s.net.netSeeks && p.net.clock == s.net.clock && p.net.pendingStateSeek < 0.0
    ensures Update(s, []) == Drain(if s.loop then AtEnd(s).Replay() else AtEnd(s).Pause())
  {
    BeforeUpdateIs(s);
    var b := ServerBeforeUpdate(s);
    assert b.Popped() == AtEnd(s);
    DrainStep(b);
  }

  /** Not looping, a server pauses, and owes a resume from there. */
  lemma ServerPauses(s: PlayerState)
    requires PlayedOut(s) && !s.loop
    ensures var t := Update(s, []);
            t.pipe.state == t.state == Paused && t.net.netSeeks == s.net.netSeeks &&
            t.net.pendingStateSeek == AtEnd(s).GetTime()
  {
    var p := AtEnd(s);
    AtEndIs(s);
    PauseHalts(p, 0.0);
    assert p.Pause().pipe.state == Paused;
    DrainSmooth(p.Pause(), 0.0);
  }

  lemma ReplayFires(p: PlayerState)
    requires Undisturbed(p, 0.0) && AllDone(p.pipe) && p.pendingSeek < 0.0 && p.pipe.bus == []
    ensures var r, q := p.Stop(), p.Replay();
            Fired(r, q, 0.0, 0.0) && q.pipe.state == q.pipe.target == Playing &&
            q.pipe.now == r.pipe.now == p.pipe.now &&
            r.net.netSeeks == p.net.netSeeks && r.net.clock == p.net.clock && AllDone(q.pipe)
  {
    var r := p.Stop();
    StopHalts(p, 0.0);
    PlayFires(r, 0.0, 0.0);
    PlayIsSetState(r);
    SoundIsNoMatter(r, r.SetState(Playing), r.Play(), 0.0, 0.0);
    PlayingNow(r);
  }

  lemma PlayingNow(r: PlayerState)
    requires r.kind.Server? && r.open && AllDone(r.pipe)
    ensures r.SetState(Playing).pipe.state == r.SetState(Playing).pipe.target == Playing
  {}

  lemma DrainFired(r: PlayerState, q: PlayerState)
    requires Fired(r, q, 0.0, 0.0) && q.pipe.state == q.pipe.target
    ensures Drain(q).pipe.oracle == q.pipe.oracle
    ensures Fired(r, Drain(q), 0.0, 0.0) && Drain(q).pipe.state == q.pipe.state && Drain(q).pipe.now == q.pipe.now
  {
    var inv := (t: PlayerState) => Fired(r, t, 0.0, 0.0) && t.pipe.now == q.pipe.now;
    forall t | inv(t) && Waiting(t) ensures inv(HandleFirst(t)) {
      HandleFired(r, t, 0.0, 0.0);
    }
    DrainInvariant(q, inv);
    DrainSteady(q, 0.0);
  }

  /** Looping, a server plays on at once and asks for one network seek, to 0. */
  lemma ServerReplays(s: PlayerState)
    requires PlayedOut(s) && s.loop
    ensures var r, t := AtEnd(s).Stop(), Update(s, []);
            t.pipe.state == Playing && t.net.netSeeks == s.net.netSeeks + [0.0] && t.pendingSeek == 0.0 &&
            t.pipe.now == r.pipe.now == s.pipe.now && r.net.clock == s.net.clock &&
            Fired(r, t, 0.0, 0.0) && AllDone(t.pipe)
  {
    var p := AtEnd(s);
    AtEndIs(s);
    ReplayFires(p);
    DrainFired(p.Stop(), p.Replay());
  }

  lemma RunReplayed(r: PlayerState, u: PlayerState, at: ClockTime, after: seq<Event>)
    requires Fired(r, u, 0.0, 0.0) && at == r.pipe.now == u.pipe.now < CLOCK_NONE && AllDone(u.pipe)
    requires r.net.clock && AllCalm(u, after, 0.0) && UpdateCount(after) >= 2
    ensures var t := Run(u, after);
            t.pipe.state == Playing && t.net.netSeeks == u.net.netSeeks && PlaysFrom(t, 0, at)
  {
    RunWithin(u, ResumePlan(r, 0.0, at), 0.0, 4, Prompt, after);
    PhasesGone(1, UpdateCount(after) - 1, Prompt);
    RunResumed(r, u, 0.0, 0.0, at, after);
    CommittedPlaysFrom(r, Run(u, after), 0, 0.0, at);
  }

  /** Two updates later it plays from 0, counting from the clock at which it read the end of its
      stream, whatever the base was. */
  lemma ServerLoops(s: PlayerState, after: seq<Event>)
    requires PlayedOut(s) && s.loop && s.net.clock && s.pipe.now < CLOCK_NONE
    requires AllCalm(Update(s, []), after, 0.0) && UpdateCount(after) >= 2
    ensures var t := Run(Update(s, []), after);
            t.pipe.state == Playing && t.net.netSeeks == s.net.netSeeks + [0.0] && PlaysFrom(t, 0, s.pipe.now)
  {
    ServerReplays(s);
    RunReplayed(AtEnd(s).Stop(), Update(s, []), s.pipe.now, after);
  }
}
