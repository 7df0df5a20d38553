/** What opening and closing a player leave behind (source/nsvr/nsvr_player.cpp), and what a
    closed one does. */
module Lifecycle {
  import opened Options
  import opened Gst
  import opened Players
  import opened Updates
  import opened Preservation
  import opened Runs
  import opened NetworkSeek
  import opened Resuming
  import opened OwedResume
  import opened SeekCoalescing

  // ---------- Closing ----------

  /** Nothing open, sought, locked or known of a medium. */
  ghost predicate Closed(t: PlayerState) {
    !t.open && t.state == Null && t.duration == 0.0 && t.time == 0.0 && t.volume == 1.0 && t.pendingSeek < 0.0 &&
    !t.seekingLock
  }

  /** What opening and closing leave alone: the settings, the heartbeats and the clock reading. */
  ghost predicate SettingsKept(s: PlayerState, t: PlayerState) {
    && t.kind == s.kind && t.mute == s.mute && t.saved == s.saved && t.loop == s.loop
    && t.net.sent == s.net.sent && t.net.counter == s.net.counter && t.net.frequency == s.net.frequency
    && t.net.netSeeks == s.net.netSeeks && t.pipe.now == s.pipe.now && t.pipe.oracle == s.pipe.oracle
  }

  /** What a server owes once closed: stopping owes a resume at 0. */
  function OwedOnceClosed(s: PlayerState): real {
    if s.kind.Server? && s.open then 0.0 else s.net.pendingStateSeek
  }

  lemma StopOwes(s: PlayerState)
    ensures s.Stop().net.pendingStateSeek == OwedOnceClosed(s) && s.Stop().net.netSeeks == s.net.netSeeks
  {
    if s.kind.Server? && s.open {
      var b := s.OnBeforeSetState(Null);
      assert s.SetState(Null).net == b.net;
    }
  }

  lemma CloseResets(s: PlayerState)
    ensures var t := Close(s);
            Closed(t) && SettingsKept(s, t) && t.net.baseTime == s.net.baseTime &&
            t.net.pendingStateSeek == OwedOnceClosed(s) && (s.open && !s.kind.Plain? ==> !t.net.clock) &&
            t.pipe.base == if s.open && s.kind.Client? then CLOCK_NONE else s.pipe.base
  {
    var c := if s.kind.Plain? then s else ClearClock(s);
    StopKeeps(c);
    StopOwes(c);
  }

  /** A closed player answers no call that needs its pipeline, and updates nothing. */
  lemma ClosedIgnores(s: PlayerState, to: GstState, x: real, messages: seq<string>)
    requires !s.open
    ensures s.SetState(to) == s.Stop() == s.Play() == s.Pause() == s.Replay() == s.QueryState() == s
    ensures !s.kind.Server? ==> s.SetTime(x) == s
    ensures Update(s, messages) == s && DispatchHeartbeat(s) == s
  {
    DrainStep(s);
  }

  // ---------- Whether opening succeeds ----------

  /** The next request is answered at once, or later but in time. */
  predicate Reaches(p: Pipeline) { Answer(p) == Done || (Answer(p) == Async && Answer(Asked(p)) == Done) }

  /** The replies a pipeline gives to a request that is answered so. */
  function Replies(p: Pipeline): nat { if Answer(p) == Done then 1 else 2 }

  /** So are the requests for READY and for PAUSED that follow it. */
  predicate Prerolls(p: Pipeline) {
    Reaches(p) && Reaches(p.(calls := p.calls + Replies(p)))
  }

  lemma ReachesIn(p: Pipeline, to: GstState)
    requires p.state == p.target != to
    ensures var r := Gst.SetState(p, to).0;
            var q := if Answer(p) == Done then r else Gst.GetState(r);
            (q.state == to <==> Reaches(p)) && q.oracle == p.oracle &&
            (Reaches(p) ==> q.target == to && q.calls == p.calls + Replies(p))
  {}

  lemma PrerollReaches(s: PlayerState, to: GstState)
    requires s.pipe.state == s.pipe.target != to
    ensures var (t, reached) := Preroll(s, to);
            reached == Reaches(s.pipe) && t.pipe.oracle == s.pipe.oracle &&
            (reached ==> t.pipe.state == t.pipe.target == to && t.pipe.calls == s.pipe.calls + Replies(s.pipe))
  {
    var r := Gst.SetState(s.pipe, to).0;
    ReachesIn(s.pipe, to);
    assert Preroll(s, to).0.pipe == if Answer(s.pipe) == Done then r else Gst.GetState(r);
  }

  lemma InstallIs(c: PlayerState)
    ensures var t := Install(c);
            t.open && t.pipe.state == t.pipe.target == Null && t.pipe.bus == [] && t.pipe.seeks == [] &&
            t.pipe.inFlight == 0 && t.pipe.volume == 1.0 && t == c.(open := true, pipe := t.pipe, net := t.net) &&
            SettingsKept(c, t) && t.net.pendingStateSeek == c.net.pendingStateSeek
  {}

  lemma LaunchesIff(c: PlayerState, seconds: real)
    ensures Launch(c, seconds).1 <==> Prerolls(Install(c).pipe)
  {
    var i := Install(c);
    InstallIs(c);
    TwiceReached(i);
  }

  lemma TwiceReached(i: PlayerState)
    requires i.pipe.state == i.pipe.target == Null
    ensures var (ready, reached) := Preroll(i, Ready);
            reached && Preroll(ready, Paused).1 <==> Prerolls(i.pipe)
  {
    PrerollReaches(i, Ready);
    if Reaches(i.pipe) {
      PrerollReaches(Preroll(i, Ready).0, Paused);
    }
  }

  /** Opening succeeds exactly for a medium that cannot be discovered, and for one whose pipeline
      reaches READY and then PAUSED, at once or within the time waited. */
  lemma OpensIff(s: PlayerState, media: Media)
    ensures Open(s, media).1 <==> media.Undiscovered? || (media.Playable? && Prerolls(Install(Close(s)).pipe))
  {
    if media.Playable? {
      LaunchesIff(Close(s), media.seconds);
    }
  }

  lemma LaunchFailed(c: PlayerState, seconds: real)
    requires Closed(c) && !Launch(c, seconds).1
    ensures var t := Launch(c, seconds).0;
            Closed(t) && t.mute == c.mute && t.loop == c.loop && t.net.sent == c.net.sent
  {
    var i := Install(c);
    InstallIs(c);
    PrerollKeeps(i, Ready);
    CloseResets(Preroll(i, Ready).0);
    PrerollKeeps(Preroll(i, Ready).0, Paused);
    CloseResets(Preroll(Preroll(i, Ready).0, Paused).0);
  }

  /** An opening that fails, or finds nothing to open, leaves the player closed; without the
      library it leaves it as it was. */
  lemma FailedOpenCloses(s: PlayerState, media: Media)
    requires !Open(s, media).1 || media.Undiscovered?
    ensures var t := Open(s, media).0;
            if media.Uninitialised? then t == s
            else Closed(t) && t.mute == s.mute && t.loop == s.loop && t.net.sent == s.net.sent
  {
    var c := Close(s);
    CloseResets(s);
    CloseResets(c);
    CloseResets(Replaced(c));
    if media.Playable? {
      LaunchFailed(c, media.seconds);
    }
  }

  // ---------- What a successful opening gives ----------

  /** In PAUSED to stay, on a medium of this length, with nothing sought, locked or parked; the
      cache still says NULL. */
  ghost predicate Opened(t: PlayerState, seconds: real) {
    && t.open && t.duration == seconds && t.pipe.state == t.pipe.target == Paused && t.state == Null
    && t.pipe.seeks == [] && t.pipe.inFlight == 0 && t.pendingSeek < 0.0 && !t.seekingLock
    && t.time == 0.0 && t.pipe.volume == 1.0
  }

  lemma PrerollPipe(s: PlayerState, to: GstState)
    ensures var t := Preroll(s, to).0; t == s.(pipe := t.pipe)
    ensures var p := Preroll(s, to).0.pipe;
            p.base == s.pipe.base && p.volume == s.pipe.volume && p.seeks == s.pipe.seeks &&
            p.inFlight == s.pipe.inFlight && p.now == s.pipe.now && p.oracle == s.pipe.oracle
  {
    PrerollKeeps(s, to);
  }

  /** What the pipeline is installed with, an opening ends with. */
  lemma LaunchPipe(c: PlayerState, seconds: real)
    requires Launch(c, seconds).1
    ensures var i, t := Install(c), Launch(c, seconds).0;
            t == i.(duration := seconds, pipe := t.pipe) && t.pipe.state == t.pipe.target == Paused &&
            t.pipe.base == i.pipe.base && t.pipe.volume == i.pipe.volume && t.pipe.seeks == i.pipe.seeks &&
            t.pipe.inFlight == i.pipe.inFlight && t.pipe.now == i.pipe.now && t.pipe.oracle == i.pipe.oracle
  {
    var i := Install(c);
    InstallIs(c);
    PrerollPipe(i, Ready);
    PrerollPipe(Preroll(i, Ready).0, Paused);
    PrerollReaches(i, Ready);
    PrerollReaches(Preroll(i, Ready).0, Paused);
  }

  lemma OpenIsFresh(s: PlayerState, seconds: real)
    requires Open(s, Playable(seconds)).1
    ensures var t := Open(s, Playable(seconds)).0;
            Opened(t, seconds) && SettingsKept(s, t) && t.net.pendingStateSeek == OwedOnceClosed(s)
  {
    CloseResets(s);
    InstallIs(Close(s));
    LaunchPipe(Close(s), seconds);
  }

  /** The first request after an opening is acted upon, within the medium's length: a server notes
      it down, other players issue it unless the pipeline refuses. */
  lemma SeekAfterOpening(s: PlayerState, seconds: real, x: real)
    requires Open(s, Playable(seconds)).1 && seconds > 0.0
    ensures var t := Open(s, Playable(seconds)).0;
            var at := if x < 0.0 then 0.0 else if x <= seconds then x else seconds;
            if s.kind.Server? then t.SetTime(x).pendingSeek == at && t.SetTime(x).net.netSeeks == s.net.netSeeks + [x]
            else
              Answer(t.pipe) != Failed ==> t.SetTime(x).pipe.seeks == [Target(at, seconds)] && t.SetTime(x).seekingLock
  {
    OpenIsFresh(s, seconds);
  }

  /** So a player whose lock was taken for good seeks again once reopened. */
  lemma StuckUntilReopened(s: PlayerState, seeks: seq<int>, seconds: real, x: real)
    requires Stuck(s, seeks) && Open(s, Playable(seconds)).1 && 0.0 <= x <= seconds && seconds > 0.0
    ensures var t := Open(s, Playable(seconds)).0;
            s.SetTime(x).pipe.seeks == seeks &&
            (Answer(t.pipe) != Failed ==> t.SetTime(x).pipe.seeks == [Target(x, seconds)])
  {
    SeekAfterOpening(s, seconds, x);
  }

  // ---------- The timeline an opening starts ----------

  /** A server's timeline starts at the clock of the opening exactly when it could provide its
      clock; a client's at the base pending, if there is one and the clock can be made. */
  lemma OpenTimeline(s: PlayerState, seconds: real)
    requires Open(s, Playable(seconds)).1
    ensures var t, reply := Open(s, Playable(seconds)).0, Answer(Replaced(Close(s)).pipe);
            match s.kind
            case Plain => t.pipe.base == CLOCK_NONE
            case Server =>
              t.pipe.base == (if reply == Done then s.pipe.now else CLOCK_NONE) && (t.net.clock <==> reply != Failed)
            case Client =>
              t.net.baseTime == 0 &&
              t.pipe.base == if s.net.baseTime != 0 && reply != Failed then s.net.baseTime else CLOCK_NONE
  {
    CloseResets(s);
    LaunchPipe(Close(s), seconds);
  }

  /** Later, with the clock at `at`. */
  function Ticked(s: PlayerState, at: ClockTime): PlayerState { s.(pipe := Happen(s.pipe, Tick(at))) }

  /** A server opened for the first time, once put to PLAYING, shows the time since it was opened,
      and makes no seek. */
  lemma FirstPlay(s: PlayerState, seconds: real, at: ClockTime)
    requires s.kind.Server? && s.net.pendingStateSeek < 0.0 && !s.open && Open(s, Playable(seconds)).1
    requires Answer(Replaced(Close(s)).pipe) == Done && s.pipe.now <= at && s.pipe.now < CLOCK_NONE
    requires Answer(Open(s, Playable(seconds)).0.pipe) == Done
    ensures var t := Ticked(Open(s, Playable(seconds)).0, at).SetState(Playing);
            t.state == Playing && t.GetTime() == Seconds(at - s.pipe.now) && t.net.netSeeks == s.net.netSeeks &&
            t.pendingSeek < 0.0
  {
    OpenIsFresh(s, seconds);
    OpenTimeline(s, seconds);
  }

  lemma ReopenedRests(s: PlayerState, seconds: real)
    requires s.kind.Server? && s.open && AllDone(s.pipe) && seconds >= 0.0
    ensures var r := Open(s, Playable(seconds)).0;
            Resting(r, 0.0, 0.0) && r.net.clock && r.pipe.now == s.pipe.now && AllDone(r.pipe) &&
            r.pipe.state == Paused && AsyncDone !in r.pipe.bus && r.net.netSeeks == s.net.netSeeks
  {
    CloseResets(s);
    OpensIff(s, Playable(seconds));
    OpenIsFresh(s, seconds);
    OpenTimeline(s, seconds);
    OpenMindful(s, seconds);
  }

  /** A server that was open before owes a resume at 0 from having been closed: its first play makes
      a network seek, and it plays from 0 as of that play. */
  lemma ReopenedPlay(s: PlayerState, seconds: real, after: seq<Event>)
    requires s.kind.Server? && s.open && AllDone(s.pipe) && seconds >= 0.0 && UpdateCount(after) >= 2
    requires var r := Open(s, Playable(seconds)).0;
             AllCalm(r.Play(), after, 0.0) && Run(r.Play(), after).pipe.now < CLOCK_NONE
    ensures var t := Run(Open(s, Playable(seconds)).0.Play(), after);
            t.pipe.state == Playing && t.net.netSeeks == s.net.netSeeks + [0.0] && PlaysFrom(t, 0, s.pipe.now)
  {
    var r := Open(s, Playable(seconds)).0;
    ReopenedRests(s, seconds);
    assert Seconds(0) == 0.0;
    RestResumes(r, 0, 0.0, after);
    PromptResume(r, 0.0, 0.0, after);
  }

  // ---------- The time shown ----------

  /** A player shows its pipeline's position, and goes on showing the last one it has shown when
      a stop leaves none. */
  lemma TimeRemembered(s: PlayerState, ns: int)
    requires s.open && Position(s.pipe) == Some(ns)
    ensures s.GetTime() == Seconds(ns)
    ensures !s.kind.Server? && AllDone(s.pipe) ==>
              s.Timed().Stop().GetTime() == Seconds(ns) && s.Stop().GetTime() == s.time
  {}
}
