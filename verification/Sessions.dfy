/** What an application gets from a player object that it commands and updates in a loop: the
    theorems about runs, read off the fields of the object. Nothing else happens meanwhile; the
    pipeline answers what it likes. */
module Sessions {
  import opened Options
  import opened Gst
  import opened Players
  import opened Updates
  import opened Runs
  import opened Rebasing
  import opened NetworkSeek
  import opened SeekRuns
  import opened Resuming
  import opened Overtaking
  import opened Heartbeats
  import opened MuteVolume
  import opened ClientSync
  import opened SeekCoalescing
  import opened PlayerObjects
  import Packets = PacketHandler

  // ---------- Updating in a loop ----------

  /** Updates that each find nothing. */
  function Polls(n: nat): (events: seq<Event>)
    ensures |events| == n && UpdateCount(events) == n && forall k :: 0 <= k < n ==> events[k] == DoUpdate([])
  {
    if n == 0 then [] else [DoUpdate([])] + Polls(n - 1)
  }

  lemma {:induction false} PollsAreCalm(s: PlayerState, n: nat, length: real)
    ensures AllCalm(s, Polls(n), length)
    decreases n
  {
    if n > 0 {
      assert Polls(n)[1..] == Polls(n - 1);
      PollsAreCalm(Update(s, []), n - 1, length);
    }
  }

  method Poll(p: Player, n: nat)
    modifies p
    ensures p.Model() == Run(old(p.Model()), Polls(n))
  {
    ghost var s := p.Model();
    var i := 0;
    while i < n
      invariant 0 <= i <= n && Run(p.Model(), Polls(n - i)) == Run(s, Polls(n))
    {
      assert Polls(n - i)[1..] == Polls(n - i - 1);
      p.Update([]);
      i := i + 1;
    }
  }

  /** A server updated `n` times from counter 0 broadcasts at its frequency. */
  method Broadcast(p: Player, n: nat)
    requires p.kind.Server? && p.mOpen && p.mHeartbeatCounter == 0 && p.mHeartbeatFrequency < 0xFFFF_FFFF
    modifies p
    ensures |p.sent| == |old(p.sent)| + (if n == 0 then 0 else (n - 1) / (old(p.mHeartbeatFrequency) + 1))
  {
    HeartbeatCount(p.Model(), Polls(n));
    Poll(p, n);
  }

  // ---------- Seeking ----------

  /** At the clamped target plus the time since `s`, to less than a nanosecond. */
  ghost predicate AtTarget(s: PlayerState, t: PlayerState, x: real) {
    Position(t.pipe).Some? &&
    var target := Nanoseconds(Clamp(x, 0.0, s.duration));
    -1.0 < Position(t.pipe).value as real - (target + (t.pipe.now - s.pipe.now) as real) < 1.0
  }

  lemma SeekEnds(s: PlayerState, x: real, n: nat, length: real)
    requires s.kind.Server? && s.open && s.duration >= 0.0 && s.net.clock && s.pipe.now < CLOCK_NONE
    ensures var t := Run(s.SetTime(x), Polls(n));
            (t.net.netSeeks == s.net.netSeeks + [x] && t.pendingSeek < 0.0 && t.pipe.state == Playing ==>
               (AtTarget(s, t, x) <==> Reached(s.pipe.base, s.pipe.now, Clamp(x, 0.0, s.duration)))) &&
            (Seekable(s, length) && AllDone(s.pipe) && s.pipe.state == s.pipe.target && n >= 2 ==>
               t.net.netSeeks == s.net.netSeeks + [x] && t.pendingSeek < 0.0 && t.pipe.state == s.pipe.state)
  {
    var t := Run(s.SetTime(x), Polls(n));
    if t.net.netSeeks == s.net.netSeeks + [x] && t.pendingSeek < 0.0 && t.pipe.state == Playing {
      SeekPosition(s, x, Polls(n));
    }
    if Seekable(s, length) && AllDone(s.pipe) && s.pipe.state == s.pipe.target && n >= 2 {
      PollsAreCalm(s.SetTime(x), n, length);
      CalmSeek(s, x, length, Polls(n));
      SetTimeArms(s, x, length);
      RunWithin(s.SetTime(x), PlanOf(s, x), length, 4, Any, Polls(n));
    }
  }

  /** A seek and `n` updates: once no seek waits and no other was made, a playing server is at the
      target exactly when its clock had run for it. A prompt one gets there in two updates. */
  method SeekServer(p: Player, x: real, n: nat, ghost length: real)
    requires p.kind.Server? && p.mOpen && p.mDuration >= 0.0 && p.mNetClock && p.mPipeline.now < CLOCK_NONE
    modifies p
    ensures p.netSeeks == old(p.netSeeks) + [x] && p.mPendingSeek < 0.0 && p.mPipeline.state == Playing ==>
              (AtTarget(old(p.Model()), p.Model(), x) <==>
                 Reached(old(p.mPipeline.base), old(p.mPipeline.now), Clamp(x, 0.0, old(p.mDuration))))
    ensures Seekable(old(p.Model()), length) && old(AllDone(p.mPipeline)) && n >= 2 &&
            old(p.mPipeline.state) == old(p.mPipeline.target) ==>
              p.netSeeks == old(p.netSeeks) + [x] && p.mPendingSeek < 0.0 &&
              p.mPipeline.state == old(p.mPipeline.state)
  {
    SeekEnds(p.Model(), x, n, length);
    p.SetTime(x);
    Poll(p, n);
  }

  // ---------- Pausing and playing ----------

  /** In PLAYING at `ns`, on a clock, no seek waiting nor its end queued. */
  ghost predicate PlayingAt(s: PlayerState, ns: nat, length: real) {
    Undisturbed(s, length) && s.pendingSeek < 0.0 && AsyncDone !in s.pipe.bus && s.net.clock &&
    s.pipe.state == Playing && Position(s.pipe) == Some(ns) && Seconds(ns) <= length
  }

  /** Playing on from `ns`, from some clock on, by one network seek to there. */
  ghost predicate PlaysOn(s: PlayerState, t: PlayerState, ns: nat) {
    t.pipe.state == Playing && t.net.netSeeks == s.net.netSeeks + [Seconds(ns)] &&
    exists at :: s.pipe.now <= at <= t.pipe.now && PlaysFrom(t, ns, at)
  }

  /** Out of PLAYING, with no seek waiting. */
  predicate HasHalted(r: PlayerState) { r.pendingSeek < 0.0 && r.pipe.state != Playing }

  /** No resume owed, no seek waiting. */
  predicate HasResumed(t: PlayerState) {
    t.net.pendingStateSeek < 0.0 && t.pendingSeek < 0.0 && t.pipe.state == Playing && t.pipe.now < CLOCK_NONE
  }

  ghost function Held(s: PlayerState): PlayerState { Update(s.Pause(), []) }

  lemma HeldHalts(s: PlayerState, ns: nat, length: real)
    requires PlayingAt(s, ns, length) && (HasHalted(Held(s)) || AllDone(s.pipe))
    ensures var p, r := s.Pause(), Held(s);
            HasHalted(r) && Halting(p, Seconds(ns), length) && r.net.netSeeks == p.net.netSeeks == s.net.netSeeks &&
            p.net.clock && p.pipe.now == s.pipe.now && p.pipe.oracle == s.pipe.oracle && r.pipe.bus == []
  {
    var p := s.Pause();
    PauseHalts(s, length);
    PauseSeeksIff(s, length, []);
    HeldLeaves(s, length);
    UpdateHalting(p, p, Seconds(ns), length, []);
    DrainInvariant(ServerBeforeUpdate(p), t => true);
  }

  /** A pause that leaves PLAYING has not been refused. */
  lemma HeldLeaves(s: PlayerState, length: real)
    requires Undisturbed(s, length) && AsyncDone !in s.pipe.bus && s.pipe.state == Playing && s.pendingSeek < 0.0
    ensures AllDone(s.pipe) ==> Held(s).pipe.state != Playing
    ensures Held(s).pipe.state != Playing ==> s.Pause().pipe.target != Playing
  {
    var p := s.Pause();
    PauseHalts(s, length);
    BeforeUpdateIs(p);
    if p.pipe.state == p.pipe.target {
      DrainSteady(ServerBeforeUpdate(p), length);
    }
  }

  lemma PauseEnds(s: PlayerState, ns: nat, m: nat, length: real)
    requires PlayingAt(s, ns, length) && (HasHalted(Held(s)) || AllDone(s.pipe))
    ensures var t := Run(Held(s).Play(), Polls(m));
            (HasResumed(t) ==> PlaysOn(s, t, ns)) &&
            (AllDone(s.pipe) && m >= 2 && t.pipe.now < CLOCK_NONE ==> HasResumed(t))
  {
    var p, r := s.Pause(), Held(s);
    var t := Run(r.Play(), Polls(m));
    HeldHalts(s, ns, length);
    assert [DoUpdate([])][1..] == [];
    assert Run(p, [DoUpdate([])]) == r;
    PollsAreCalm(r.Play(), m, length);
    RunHalting(p, p, Seconds(ns), length, [DoUpdate([])]);
    if t.pipe.now < CLOCK_NONE {
      HaltResumes(p, ns, length, [DoUpdate([])], Polls(m));
    }
    if AllDone(s.pipe) && m >= 2 {
      PromptResume(r, Seconds(ns), length, Polls(m));
    }
  }

  /** Pause and update; if that has halted the pipeline without a seek, play and update `m` times:
      once no seek waits and no resume is owed, a playing server plays on from where it was paused,
      by one network seek. A prompt one gets there in two updates. */
  method PauseThenPlay(p: Player, m: nat, ghost ns: nat, ghost length: real) returns (halted: bool)
    requires PlayingAt(p.Model(), ns, length)
    modifies p
    ensures halted && HasResumed(p.Model()) ==> PlaysOn(old(p.Model()), p.Model(), ns)
    ensures old(AllDone(p.mPipeline)) && m >= 2 && p.mPipeline.now < CLOCK_NONE ==> halted && HasResumed(p.Model())
  {
    ghost var s := p.Model();
    halted := Hold(p);
    if halted {
      PauseEnds(s, ns, m, length);
      p.Play();
      Poll(p, m);
    } else if AllDone(s.pipe) {
      HeldHalts(s, ns, length);
    }
  }

  method Hold(p: Player) returns (halted: bool)
    modifies p
    ensures p.Model() == Held(old(p.Model())) && halted == HasHalted(p.Model())
  {
    p.Pause();
    p.Update([]);
    halted := p.mPendingSeek < 0.0 && p.mPipeline.state != Playing;
  }

  // ---------- Following a server ----------

  /** An update for each text. */
  function Listening(texts: seq<string>): (events: seq<Event>)
    ensures Beats(events) == |texts|
    ensures |events| == |texts| && forall k :: 0 <= k < |events| ==> events[k] == DoUpdate([texts[k]])
  {
    if texts == [] then []
    else
      var rest := Listening(texts[1..]);
      assert ([DoUpdate([texts[0]])] + rest)[1..] == rest;
      [DoUpdate([texts[0]])] + rest
  }

  method Listen(p: Player, texts: seq<string>)
    modifies p
    ensures p.Model() == Run(old(p.Model()), Listening(texts))
  {
    ghost var s := p.Model();
    var i := 0;
    assert texts[0..] == texts;
    while i < |texts|
      invariant 0 <= i <= |texts|
      invariant Run(p.Model(), Listening(texts[i..])) == Run(s, Listening(texts))
    {
      ghost var rest := Listening(texts[i + 1..]);
      assert texts[i..][1..] == texts[i + 1..];
      assert Listening(texts[i..]) == [DoUpdate([texts[i]])] + rest;
      assert ([DoUpdate([texts[i]])] + rest)[1..] == rest;
      p.Update([texts[i]]);
      i := i + 1;
    }
  }

  /** A client that finds a heartbeat at each update: five found with no transition under way, or
      four by a prompt client, leave it with the server's base, mute flag and volume, and in its
      state or on the way there. */
  method FollowServer(p: Player, texts: seq<string>, h: Packets.Packet, to: GstState)
    requires Following(p.Model(), false) && AllSay(texts, h)
    requires h.base != 0 && StateOf(h.state) == Some(to) && Plausible(h)
    modifies p
    ensures HeardEnough(old(p.Model()), Listening(texts)) ==>
              p.mPipeline.base == h.base && p.mBaseTime == 0 && p.mPipeline.target == to &&
              (p.mMute <==> h.mute != 0) && p.mPipeline.volume == h.volume
    ensures Following(old(p.Model()), true) && |texts| >= 4 ==>
              HeardEnough(old(p.Model()), Listening(texts)) && p.mPipeline.state == to
  {
    ghost var s := p.Model();
    if HeardEnough(s, Listening(texts)) {
      Convergence(s, h, to, Listening(texts));
    }
    if Following(s, true) {
      RunNearer(s, h, to, true, Listening(texts));
    }
    Listen(p, texts);
  }

  // ---------- Scrubbing ----------

  /** After some requests in one go: the first has been issued, the last is parked. */
  ghost predicate Dragged(s: PlayerState, t: PlayerState, times: seq<real>) {
    if times == [] then t == s
    else
      && t.kind == s.kind && t.open == s.open && t.duration == s.duration && t.seekingLock
      && t.pipe.inFlight == 1 && t.pipe.bus == [] && t.pipe.oracle == s.pipe.oracle
      && t.pipe.seeks == s.pipe.seeks + [Target(times[0], s.duration)]
      && t.pendingSeek == if |times| == 1 then -1.0 else times[|times| - 1]
  }

  lemma DragOnce(s: PlayerState, t: PlayerState, times: seq<real>, x: real)
    requires Unasked(s) && Unfailing(s.pipe) && s.kind.Plain? && s.duration > 0.0
    requires s.pipe.bus == [] && Dragged(s, t, times)
    ensures Dragged(s, t.SetTime(x), times + [x])
  {
    assert (times + [x])[|times|] == x;
  }

  /** A completion read: the parked request, if there is one, is issued. */
  lemma CompletionRead(s: PlayerState)
    requires s.kind.Plain? && s.open && s.pipe.bus == [AsyncDone]
    ensures var u := s.(seekingLock := false, pipe := s.pipe.(bus := []));
            Update(s, []) == if s.pendingSeek >= 0.0 then u.SetTime(s.pendingSeek) else u
  {
    assert s.Popped() == s.(pipe := s.pipe.(bus := []));
    DrainStep(s);
    DrainStep(HandleFirst(s));
  }

  /** The two completions, each read by an update. */
  ghost function Completed(t: PlayerState): PlayerState {
    Update(t.(pipe := Happen(t.pipe, SeekDone)), [])
  }

  lemma DragEnds(s: PlayerState, t: PlayerState, times: seq<real>)
    requires Unasked(s) && Unfailing(s.pipe) && s.kind.Plain? && s.duration > 0.0
    requires times != [] && Dragged(s, t, times)
    requires forall k :: 0 <= k < |times| ==> times[k] >= 0.0
    ensures var u := Completed(t);
            u.kind == s.kind && u.open && u.pipe.bus == [] && u.pendingSeek == -1.0 &&
            u.pipe.seeks == s.pipe.seeks + IssuedBy(times, s.duration) &&
            u.pipe.inFlight == (if u.seekingLock then 1 else 0)
  {
    CompletionRead(t.(pipe := Happen(t.pipe, SeekDone)));
  }

  /** The first request, and the last if it is another. */
  function IssuedBy(times: seq<real>, duration: real): seq<int>
    requires times != []
  {
    if |times| == 1 then [Target(times[0], duration)]
    else [Target(times[0], duration), Target(times[|times| - 1], duration)]
  }

  lemma LastCompletion(u: PlayerState)
    requires u.kind.Plain? && u.open && u.pipe.bus == [] && u.pendingSeek == -1.0
    requires u.pipe.inFlight == (if u.seekingLock then 1 else 0)
    ensures var v := Completed(u);
            !v.seekingLock && v.pendingSeek == -1.0 && v.pipe.seeks == u.pipe.seeks
  {
    var d := u.(pipe := Happen(u.pipe, SeekDone));
    if u.seekingLock {
      CompletionRead(d);
    } else {
      DrainStep(d);
    }
  }

  /** Requests in one go, as from a dragged slider, then the completion of a seek and an
      update, twice: however many the requests, no more than two seeks are issued, and the last
      of them is the last request. */
  method Scrub(p: Player, times: seq<real>)
    requires Unasked(p.Model()) && Unfailing(p.mPipeline) && p.kind.Plain?
    requires times != [] && forall k :: 0 <= k < |times| ==> times[k] >= 0.0
    requires p.mDuration > 0.0 && p.mPipeline.bus == []
    modifies p
    ensures !p.mSeekingLock && p.mPendingSeek < 0.0
    ensures p.mPipeline.seeks == old(p.mPipeline.seeks) + IssuedBy(times, old(p.mDuration))
  {
    ghost var s := p.Model();
    var i := 0;
    while i < |times|
      invariant 0 <= i <= |times| && Dragged(s, p.Model(), times[..i])
    {
      DragOnce(s, p.Model(), times[..i], times[i]);
      assert times[..i] + [times[i]] == times[..i + 1];
      p.SetTime(times[i]);
      i := i + 1;
    }
    assert times[..i] == times;
    DragEnds(s, p.Model(), times);
    Complete(p);
    LastCompletion(p.Model());
    Complete(p);
  }

  /** The pipeline completes a seek, if one is in flight, and the player is updated. */
  method Complete(p: Player)
    requires p.kind.Plain?
    modifies p
    ensures p.Model() == Completed(old(p.Model()))
  {
    p.mPipeline := Happen(p.mPipeline, SeekDone);
    p.Update([]);
  }
}
