/** Commands made while a server's seek waits (source/nsvr/nsvr_player_server.cpp): the commit
    goes back to the state the seek captured. Requests succeed at once. */
module Overtaking {
  import opened Gst
  import opened Players
  import opened Updates
  import opened Invariants
  import opened Runs
  import opened NetworkSeek
  import opened Resuming
  import opened SeekRuns

  /** A prompt server with a seek waiting, in any state, its cache right. */
  ghost predicate Overtaken(s: PlayerState, k: SeekPlan, length: real) {
    Undisturbed(s, length) && AllDone(s.pipe) && s.state == s.pipe.state == s.pipe.target &&
    AsyncDone !in s.pipe.bus && Awaits(s, k) && (s.pipe.state == Playing ==> s.net.pendingStateSeek < 0.0)
  }

  // ---------- The commands ----------

  /** Calls that change the state or a setting, and time passing. */
  predicate NoSeek(e: Event) {
    match e
    case DoSetState(_) => true
    case DoStop => true
    case DoPlay => true
    case DoPause => true
    case DoReplay => true
    case DoQueryState => true
    case DoGetTime => true
    case DoSetVolume(_) => true
    case DoSetMute(_) => true
    case Meanwhile(h) => h.Tick?
    case _ => false
  }

  /** Still waiting, or another seek has been made. */
  ghost predicate OvertakenOr(s: PlayerState, k: SeekPlan, length: real, n: nat) {
    s.kind.Server? && s.open && (|s.net.netSeeks| > n || (|s.net.netSeeks| == n && Overtaken(s, k, length)))
  }

  lemma SetStateOvertakes(s: PlayerState, k: SeekPlan, length: real, n: nat, to: GstState)
    requires Overtaken(s, k, length) && |s.net.netSeeks| == n
    ensures OvertakenOr(s.SetState(to), k, length, n)
  {
    var b := s.OnBeforeSetState(to);
    ReachMild(Asked(b.pipe), to, length);
    assert b.Requested(to).pipe == Reach(Asked(b.pipe), to);
  }

  lemma StopOvertakes(s: PlayerState, k: SeekPlan, length: real, n: nat)
    requires Overtaken(s, k, length) && |s.net.netSeeks| == n
    ensures Overtaken(s.Stop(), k, length) && |s.Stop().net.netSeeks| == n
  {
    SetStateOvertakes(s, k, length, n, Null);
    StaysWhere(s, Null);
    SetStateOvertakes(s.SetState(Null), k, length, n, Ready);
    StaysWhere(s.SetState(Null), Ready);
  }

  lemma ChangedElsewhere(s: PlayerState)
    requires s.kind.Server? && s.open && s.pipe.state == s.pipe.target != Playing
    ensures s.OnStateChanged().net.netSeeks == s.net.netSeeks
  {}

  /** Going anywhere but to PLAYING makes no seek. */
  lemma StaysWhere(s: PlayerState, to: GstState)
    requires s.kind.Server? && s.open && AllDone(s.pipe) && to != Playing
    ensures s.SetState(to).net.netSeeks == s.net.netSeeks
  {
    ChangedElsewhere(s.OnBeforeSetState(to).Requested(to));
  }

  lemma PlayOvertakes(s: PlayerState, k: SeekPlan, length: real, n: nat)
    requires Overtaken(s, k, length) && |s.net.netSeeks| == n
    ensures OvertakenOr(s.Play(), k, length, n)
  {
    SetStateOvertakes(s, k, length, n, Playing);
    PlayIsSetState(s);
  }

  lemma StepOvertakes(s: PlayerState, k: SeekPlan, length: real, n: nat, e: Event)
    requires OvertakenOr(s, k, length, n) && NoSeek(e)
    ensures OvertakenOr(Step(s, e), k, length, n)
  {
    if |s.net.netSeeks| > n {
      StepSought(s, n + 1, e);
    } else {
      match e {
        case DoSetState(to) => SetStateOvertakes(s, k, length, n, to);
        case DoStop => StopOvertakes(s, k, length, n);
        case DoPlay => PlayOvertakes(s, k, length, n);
        case DoPause => SetStateOvertakes(s, k, length, n, Paused);
        case DoReplay =>
          StopOvertakes(s, k, length, n);
          PlayOvertakes(s.Stop(), k, length, n);
        case DoSetVolume(v) => SettingSound(s, v, false);
        case DoSetMute(on) => SettingSound(s, 0.0, on);
        case _ =>
      }
    }
  }

  lemma {:induction false} RunOvertakes(s: PlayerState, k: SeekPlan, length: real, n: nat, events: seq<Event>)
    requires OvertakenOr(s, k, length, n) && forall i :: 0 <= i < |events| ==> NoSeek(events[i])
    ensures OvertakenOr(Run(s, events), k, length, n)
    decreases |events|
  {
    if events != [] {
      StepOvertakes(s, k, length, n, events[0]);
      RunOvertakes(Step(s, events[0]), k, length, n, events[1..]);
    }
  }

  // ---------- The commit ----------

  /** The updates up to and including the commit. */
  ghost function UpToCommit(s: PlayerState): PlayerState {
    if s.state == Ready then Update(s, []) else Update(Update(s, []), [])
  }

  /** A prompt pipeline with no transition under way stays where it is while messages are read. */
  lemma DrainSteady(b: PlayerState, length: real)
    requires Undisturbed(b, length) && AsyncDone !in b.pipe.bus && b.pipe.state == b.pipe.target
    ensures Drain(b).pipe.state == b.pipe.state
  {
    var inv := (t: PlayerState) =>
      Undisturbed(t, length) && AsyncDone !in t.pipe.bus && t.pipe.state == t.pipe.target == b.pipe.state;
    forall t | inv(t) && Waiting(t) ensures inv(HandleFirst(t)) {
    }
    DrainInvariant(b, inv);
  }

  lemma ParkOvertaken(s: PlayerState, k: SeekPlan, length: real)
    requires Overtaken(s, k, length) && s.state != Ready
    ensures var t := Update(s, []);
            Overtaken(t, k, length) && t.state == Ready && t.net.netSeeks == s.net.netSeeks &&
            t.net.pendingStateSeek == s.net.pendingStateSeek
  {
    BeforeUpdateIs(s);
    ReachMild(Asked(s.pipe), Ready, length);
    DrainSmooth(ServerBeforeUpdate(s), length);
  }

  /** The seek a server owes once it is back in PLAYING. */
  function SecondSeek(s: PlayerState, back: GstState): seq<real> {
    if back == Playing && s.net.pendingStateSeek >= 0.0 then [s.net.pendingStateSeek] else []
  }

  lemma CommitOvertaken(s: PlayerState, k: SeekPlan, length: real)
    requires Overtaken(s, k, length) && s.state == Ready
    ensures var t := Update(s, []);
            t.pipe.state == k.back && t.net.netSeeks == s.net.netSeeks + SecondSeek(s, k.back) &&
            if SecondSeek(s, k.back) == [] then Applied(t, k) else t.pendingSeek >= 0.0 && t.net.pendingState == Playing
  {
    var base := Rebase(s.pipe.base, s.net.pendingTime, s.pendingSeek);
    var b := ServerBeforeUpdate(s);
    BeforeUpdateIs(s);
    ReachMild(Asked(s.pipe.(base := base)), k.back, length);
    DrainSteady(b, length);
    if SecondSeek(s, k.back) == [] {
      DrainSmooth(b, length);
    } else {
      DrainResumesIff(b, length);
    }
  }

  lemma OvertakenCommits(s: PlayerState, k: SeekPlan, length: real)
    requires Overtaken(s, k, length)
    ensures var t := UpToCommit(s);
            t.pipe.state == k.back && t.net.netSeeks == s.net.netSeeks + SecondSeek(s, k.back) &&
            if SecondSeek(s, k.back) == [] then Applied(t, k) else t.pendingSeek >= 0.0 && t.net.pendingState == Playing
  {
    if s.state != Ready {
      ParkOvertaken(s, k, length);
      CommitOvertaken(Update(s, []), k, length);
    } else {
      CommitOvertaken(s, k, length);
    }
  }

  /** Whatever the pipeline answers: when the update that commits a seek finds a resume owed, and
      leaves the pipeline in PLAYING or not on its way there, it starts the resume seek exactly
      when a state change is queued and the pipeline is found in PLAYING. */
  lemma CommitSeeksIff(s: PlayerState, length: real, messages: seq<string>)
    requires Undisturbed(s, length) && AsyncDone !in s.pipe.bus && s.pendingSeek >= 0.0 && s.state == Ready
    requires s.net.pendingStateSeek >= 0.0
    requires var b := ServerBeforeUpdate(s).pipe; b.state == Playing || b.target != Playing
    ensures var b, t := ServerBeforeUpdate(s), Update(s, messages);
            t.net.netSeeks == s.net.netSeeks +
              if HasChange(b.pipe.bus) && Gst.GetState(b.pipe).state == Playing
              then [s.net.pendingStateSeek] else []
  {
    BeforeUpdateIs(s);
    var base := Rebase(s.pipe.base, s.net.pendingTime, s.pendingSeek);
    ReachMild(Asked(s.pipe.(base := base)), s.net.pendingState, length);
    DrainResumesIff(ServerBeforeUpdate(s), length);
  }

  /** A prompt server that can be asked for a seek. */
  ghost predicate Settled(s: PlayerState, length: real) {
    Undisturbed(s, length) && AllDone(s.pipe) && s.pipe.state == s.pipe.target && AsyncDone !in s.pipe.bus &&
    (s.pipe.state == Playing ==> s.net.pendingStateSeek < 0.0)
  }

  /** Whatever state changes are commanded while a seek waits, unless they make another seek,
      the commit goes back to the state the seek captured: they are undone exactly when they
      led anywhere else. A second seek starts, to where the resume is owed, exactly when that
      state is PLAYING and they left a resume owed. */
  lemma CommandsUndone(s: PlayerState, x: real, length: real, commands: seq<Event>)
    requires Settled(s, length) && forall i :: 0 <= i < |commands| ==> NoSeek(commands[i])
    requires Run(s.SetTime(x), commands).net.netSeeks == s.net.netSeeks + [x]
    ensures var c, t := Run(s.SetTime(x), commands), UpToCommit(Run(s.SetTime(x), commands));
            t.pipe.state == s.pipe.state && t.net.netSeeks == c.net.netSeeks + SecondSeek(c, s.pipe.state) &&
            if SecondSeek(c, s.pipe.state) == [] then Applied(t, PlanOf(s, x))
            else t.pendingSeek >= 0.0 && t.net.pendingState == Playing
  {
    var a, k := s.SetTime(x), PlanOf(s, x);
    RunOvertakes(a, k, length, |s.net.netSeeks| + 1, commands);
    OvertakenCommits(Run(a, commands), k, length);
  }

  /** A command to play, of a server that is not playing and owes a resume, makes another seek
      while the first one waits: back to where the resume is owed, into PLAYING. */
  lemma PlayReplacesSeek(s: PlayerState, x: real, length: real)
    requires Settled(s, length) && s.net.pendingStateSeek >= 0.0
    ensures var t := UpToCommit(s.SetTime(x).Play());
            t.net.netSeeks == s.net.netSeeks + [x, s.net.pendingStateSeek] && t.pipe.state == Playing &&
            t.pendingSeek < 0.0
  {
    var a := s.SetTime(x);
    var p := a.SetState(Playing);
    ReachMild(Asked(a.pipe), Playing, length);
    PlayIsSetState(a);
    var k := PlanIn(p);
    assert Overtaken(a.Play(), k, length);
    OvertakenCommits(a.Play(), k, length);
  }

  /** For example, a pause while a playing server seeks is undone, and the seek is replaced by
      one back to where the pause was. */
  lemma PauseWhileSeeking(s: PlayerState, x: real, length: real)
    requires Settled(s, length) && s.pipe.state == Playing && s.GetTime() >= 0.0
    ensures var t := Update(Update(s.SetTime(x).Pause(), []), []);
            t.pipe.state == Playing && t.net.netSeeks == s.net.netSeeks + [x, s.GetTime()] &&
            t.pendingSeek >= 0.0 && t.net.pendingState == Playing
  {
    var a := s.SetTime(x);
    StaysWhere(a, Paused);
    assert [DoPause][1..] == [];
    assert Run(a, [DoPause]) == a.Pause();
    CommandsUndone(s, x, length, [DoPause]);
  }
}
