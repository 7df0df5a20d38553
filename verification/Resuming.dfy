/** How a server resumes after a pause or a stop (source/nsvr/nsvr_player_server.cpp), whatever
    the pipeline answers and whenever it gets there. */
module Resuming {
  import opened Options
  import opened Gst
  import opened Players
  import opened Updates
  import opened Invariants
  import opened Runs
  import opened Rebasing
  import opened NetworkSeek
  import opened SeekRuns

  // ---------- Pausing and stopping ----------

  /** Owing a resume at `from` that no notification can start, nothing pending. */
  ghost predicate Resting(s: PlayerState, from: real, length: real) {
    Undisturbed(s, length) && NoResume(s) && s.pendingSeek < 0.0 && s.net.pendingStateSeek == from >= 0.0
  }

  /** What pausing or stopping has done before any message is handled. */
  ghost predicate Halted(s: PlayerState, p: PlayerState, from: real, length: real) {
    && Undisturbed(p, length) && p.pendingSeek == s.pendingSeek && p.net.pendingStateSeek == from
    && p.net.netSeeks == s.net.netSeeks && p.net.clock == s.net.clock && p.duration == s.duration
    && p.pipe.base == s.pipe.base && p.pipe.now == s.pipe.now && p.pipe.oracle == s.pipe.oracle
    && (AsyncDone !in s.pipe.bus ==> AsyncDone !in p.pipe.bus)
    && (s.pipe.state == Playing || s.pipe.target != Playing ==> p.pipe.state == Playing || p.pipe.target != Playing)
    && (AllDone(s.pipe) ==> p.pipe.state == p.pipe.target != Playing)
  }

  /** A request for a state other than PLAYING. */
  lemma RequestHalts(b: PlayerState, to: GstState, length: real)
    requires Undisturbed(b, length) && to != Playing
    ensures Halted(b, b.(pipe := Gst.SetState(b.pipe, to).0), b.net.pendingStateSeek, length)
    ensures Answer(b.pipe) == Done ==>
              var t := b.(pipe := Gst.SetState(b.pipe, to).0);
              t.OnStateChanged() == t.(state := to)
  {
    ReachMild(Asked(b.pipe), to, length);
  }

  lemma PauseHalts(s: PlayerState, length: real)
    requires Undisturbed(s, length)
    ensures Halted(s, s.Pause(), s.GetTime(), length)
  {
    RequestHalts(s.OnBeforeSetState(Paused), Paused, length);
  }

  lemma NullHalts(s: PlayerState, length: real)
    requires Undisturbed(s, length)
    ensures Halted(s, s.SetState(Null), 0.0, length)
  {
    RequestHalts(s.OnBeforeSetState(Null), Null, length);
  }

  lemma ReadyHalts(s: PlayerState, length: real)
    requires Undisturbed(s, length)
    ensures Halted(s, s.SetState(Ready), s.net.pendingStateSeek, length)
  {
    RequestHalts(s, Ready, length);
  }

  lemma StopHalts(s: PlayerState, length: real)
    requires Undisturbed(s, length)
    ensures Halted(s, s.Stop(), 0.0, length)
  {
    NullHalts(s, length);
    ReadyHalts(s.SetState(Null), length);
  }

  /** The messages before the first state change do not touch the pipeline. */
  ghost predicate Unread(p: PlayerState, t: PlayerState, length: real) {
    && Undisturbed(t, length) && AsyncDone !in t.pipe.bus && t.pipe == p.pipe.(bus := t.pipe.bus)
    && t.pendingSeek == p.pendingSeek && t.net == p.net && (HasChange(t.pipe.bus) <==> HasChange(p.pipe.bus))
  }

  /** The state the resume seek captures: the query is made twice. */
  function Captured(p: PlayerState): GstState { Gst.GetState(Gst.GetState(p.pipe)).state }

  /** The first state change decided whether a resume seek starts. */
  ghost predicate Decided(p: PlayerState, t: PlayerState, length: real) {
    && Undisturbed(t, length) && AsyncDone !in t.pipe.bus && NoResume(t) && HasChange(p.pipe.bus)
    && if Gst.GetState(p.pipe).state == Playing
       then t.net.pendingStateSeek < 0.0 && t.net.netSeeks == p.net.netSeeks + [p.net.pendingStateSeek] &&
            t.pendingSeek >= 0.0 && t.net.pendingState == Captured(p)
       else t.net.pendingStateSeek == p.net.pendingStateSeek && t.net.netSeeks == p.net.netSeeks &&
            t.pendingSeek == p.pendingSeek
  }

  /** A resume seek armed by a server that has found itself PLAYING. */
  lemma ResumeArmed(q: PlayerState, length: real)
    requires Undisturbed(q, length) && AsyncDone !in q.pipe.bus && q.net.pendingStateSeek >= 0.0
    ensures var x := q.net.pendingStateSeek;
            var u := q.ServerSetTime(x);
            var t := u.(net := u.net.(pendingStateSeek := -1.0));
            Undisturbed(t, length) && AsyncDone !in t.pipe.bus && t.pendingSeek >= 0.0 &&
            t.net.pendingState == Gst.GetState(q.pipe).state && t.net.netSeeks == q.net.netSeeks + [x]
  {
    ReachMild(Asked(q.pipe), q.pipe.target, length);
  }

  /** What a state change does to a server that owes a resume. */
  lemma OnChange(u: PlayerState, length: real)
    requires Undisturbed(u, length) && AsyncDone !in u.pipe.bus && u.net.pendingStateSeek >= 0.0
    ensures var q := u.QueryState();
            Undisturbed(q, length) && AsyncDone !in q.pipe.bus && q.pipe == Gst.GetState(u.pipe) &&
            u.OnStateChanged() ==
              if q.pipe.state != Playing then q
              else var t := q.ServerSetTime(q.net.pendingStateSeek); t.(net := t.net.(pendingStateSeek := -1.0))
  {
    ReachMild(Asked(u.pipe), u.pipe.target, length);
  }

  lemma FirstChange(p: PlayerState, t: PlayerState, length: real)
    requires p.pendingSeek < 0.0 <= p.net.pendingStateSeek && (p.pipe.state == Playing || p.pipe.target != Playing)
    requires Unread(p, t, length) && Waiting(t) && t.pipe.bus[0].StateChanged?
    ensures Decided(p, HandleFirst(t), length)
  {
    var u := t.Popped().(state := t.pipe.bus[0].after);
    OnChange(u, length);
    SameQueries(p.pipe, u.pipe);
    if Gst.GetState(u.pipe).state == Playing {
      ResumeArmed(u.QueryState(), length);
    }
  }

  /** The queue does not decide what a query finds. */
  lemma SameQueries(p: Pipeline, u: Pipeline)
    requires u == p.(bus := u.bus)
    ensures Gst.GetState(u).state == Gst.GetState(p).state
    ensures Gst.GetState(Gst.GetState(u)).state == Gst.GetState(Gst.GetState(p)).state
  {}

  lemma HandleHalted(p: PlayerState, t: PlayerState, length: real)
    requires p.pendingSeek < 0.0 <= p.net.pendingStateSeek && (p.pipe.state == Playing || p.pipe.target != Playing)
    requires (Unread(p, t, length) || Decided(p, t, length)) && Waiting(t)
    ensures Unread(p, HandleFirst(t), length) || Decided(p, HandleFirst(t), length)
  {
    if Decided(p, t, length) {
      HandleSmooth(t, length);
    } else if t.pipe.bus[0].StateChanged? {
      FirstChange(p, t, length);
    } else {
      ChangeInTail(t.pipe.bus);
    }
  }

  lemma ChangeInTail(bus: seq<Message>)
    requires bus != [] && !bus[0].StateChanged?
    ensures HasChange(bus[1..]) <==> HasChange(bus)
  {
    if HasChange(bus) {
      var k :| 0 <= k < |bus| && bus[k].StateChanged?;
      assert bus[1..][k - 1] == bus[k];
    }
    if HasChange(bus[1..]) {
      var k :| 0 <= k < |bus[1..]| && bus[1..][k].StateChanged?;
      assert bus[k + 1].StateChanged?;
    }
  }

  lemma DrainResumesIff(b: PlayerState, length: real)
    requires Undisturbed(b, length) && AsyncDone !in b.pipe.bus
    requires b.pendingSeek < 0.0 <= b.net.pendingStateSeek && (b.pipe.state == Playing || b.pipe.target != Playing)
    ensures Unread(b, Drain(b), length) || Decided(b, Drain(b), length)
    ensures Drain(b).pipe.bus == []
  {
    var inv := (t: PlayerState) => Unread(b, t, length) || Decided(b, t, length);
    forall t | inv(t) && Waiting(t) ensures inv(HandleFirst(t)) {
      HandleHalted(b, t, length);
    }
    DrainInvariant(b, inv);
  }

  /** An update of a server that owes a resume, and is in PLAYING or not on its way there,
      starts the resume seek exactly when a state change is queued and the pipeline is still
      found in PLAYING. */
  lemma UpdateResumesIff(p: PlayerState, length: real, messages: seq<string>)
    requires Undisturbed(p, length) && AsyncDone !in p.pipe.bus
    requires p.pendingSeek < 0.0 <= p.net.pendingStateSeek && (p.pipe.state == Playing || p.pipe.target != Playing)
    ensures var t := Update(p, messages);
            if HasChange(p.pipe.bus) && Gst.GetState(p.pipe).state == Playing
            then t.net.netSeeks == p.net.netSeeks + [p.net.pendingStateSeek] && t.pendingSeek >= 0.0 &&
                 t.net.pendingState == Captured(p) && t.net.pendingStateSeek < 0.0
            else t.net.netSeeks == p.net.netSeeks && t.pendingSeek < 0.0 &&
                 t.net.pendingStateSeek == p.net.pendingStateSeek
  {
    BeforeUpdateIs(p);
    DrainResumesIff(ServerBeforeUpdate(p), length);
  }

  /** A pause makes a network seek of its own, back to where it was asked for, exactly when a
      state change was still queued and the pipeline is late in leaving PLAYING. */
  lemma PauseSeeksIff(s: PlayerState, length: real, messages: seq<string>)
    requires Undisturbed(s, length) && AsyncDone !in s.pipe.bus && s.pendingSeek < 0.0 && s.GetTime() >= 0.0
    requires s.pipe.state == Playing || s.pipe.target != Playing
    ensures var p, t := s.Pause(), Update(s.Pause(), messages);
            if HasChange(p.pipe.bus) && Gst.GetState(p.pipe).state == Playing
            then t.net.netSeeks == s.net.netSeeks + [s.GetTime()] && t.net.pendingState == Captured(p) &&
                 t.pendingSeek >= 0.0
            else t.net.netSeeks == s.net.netSeeks && t.net.pendingStateSeek == s.GetTime() && t.pendingSeek < 0.0
  {
    PauseHalts(s, length);
    UpdateResumesIff(s.Pause(), length, messages);
  }

  /** For example, when the notification of reaching PLAYING has not been read and the pause
      takes longer than the queries wait; that seek goes back to PLAYING. */
  lemma LatePauseSeeks(s: PlayerState, length: real)
    requires Undisturbed(s, length) && s.pendingSeek < 0.0 && s.GetTime() >= 0.0
    requires s.pipe.state == s.pipe.target == Playing && s.pipe.bus == [StateChanged(Paused, Playing)]
    requires forall n :: s.pipe.calls <= n < s.pipe.calls + 3 ==> s.pipe.oracle(n) == Async
    ensures var t := Update(s.Pause(), []);
            t.net.netSeeks == s.net.netSeeks + [s.GetTime()] && t.net.pendingState == Playing
  {
    LatePause(s);
    PauseSeeksIff(s, length, []);
  }

  lemma LatePause(s: PlayerState)
    requires s.kind.Server? && s.open
    requires s.pipe.state == s.pipe.target == Playing && s.pipe.bus == [StateChanged(Paused, Playing)]
    requires forall n :: s.pipe.calls <= n < s.pipe.calls + 3 ==> s.pipe.oracle(n) == Async
    ensures HasChange(s.Pause().pipe.bus) && Gst.GetState(s.Pause().pipe).state == Playing
    ensures Captured(s.Pause()) == Playing
  {
    assert s.pipe.bus[0].StateChanged?;
    assert s.Pause().pipe == Asked(s.pipe).(target := Paused);
  }

  /** Between the halt and the next play nothing moves, however late the pipeline halts. */
  lemma {:induction false} RestKeeps(s: PlayerState, from: real, length: real, events: seq<Event>)
    requires Resting(s, from, length) && AllCalm(s, events, length)
    ensures Resting(Run(s, events), from, length) && Drifts(s, Run(s, events))
    decreases |events|
  {
    if events != [] {
      if events[0].DoUpdate? {
        UpdateIdle(s, length, events[0].messages);
      } else {
        CalmSmooth(s, events[0], length);
      }
      RestKeeps(Step(s, events[0]), from, length, events[1..]);
    }
  }

  // ---------- A rest that no notification has cut short ----------

  /** Asked to halt, owing a resume at `from`; a notification may yet start it. */
  ghost predicate Halting(s: PlayerState, from: real, length: real) {
    Undisturbed(s, length) && s.pendingSeek < 0.0 && s.net.pendingStateSeek == from >= 0.0 && s.pipe.target != Playing
  }

  /** Halting since `p`, or a seek has been made. */
  ghost predicate HaltingSince(p: PlayerState, s: PlayerState, from: real, length: real) {
    Sought(s, |p.net.netSeeks| + 1) || (Halting(s, from, length) && Drifts(p, s))
  }

  /** Updates, reading, settings, and what a pipeline does by itself but for the end of its
      stream. */
  predicate Gentle(e: Event, length: real) {
    match e
    case DoUpdate(_) => true
    case DoQueryState => true
    case DoGetTime => true
    case DoSetVolume(_) => true
    case DoSetMute(_) => true
    case DoSetLoop(_) => true
    case DoSetFrequency(_) => true
    case Meanwhile(h) => h.Post? ==> Mild(h.message, length)
    case _ => false
  }

  ghost predicate AllGentle(events: seq<Event>, length: real) {
    forall k :: 0 <= k < |events| ==> Gentle(events[k], length)
  }

  lemma ChangeHalting(p: PlayerState, s: PlayerState, from: real, length: real)
    requires Halting(s, from, length) && Drifts(p, s) && Waiting(s) && s.pipe.bus[0].StateChanged?
    ensures HaltingSince(p, HandleFirst(s), from, length)
  {
    var u := s.Popped().(state := s.pipe.bus[0].after);
    ReachMild(Asked(u.pipe), u.pipe.target, length);
  }

  lemma HandleHalting(p: PlayerState, s: PlayerState, from: real, length: real)
    requires HaltingSince(p, s, from, length) && Waiting(s)
    ensures HaltingSince(p, HandleFirst(s), from, length)
  {
    var n := |p.net.netSeeks| + 1;
    if Sought(s, n) {
      SoughtKept(n);
      HandleInv(HavingSought(n), s);
    } else if s.pipe.bus[0].StateChanged? {
      ChangeHalting(p, s, from, length);
    }
  }

  lemma UpdateHalting(p: PlayerState, s: PlayerState, from: real, length: real, messages: seq<string>)
    requires Halting(s, from, length) && Drifts(p, s)
    ensures HaltingSince(p, Update(s, messages), from, length)
  {
    BeforeUpdateIs(s);
    var inv := (t: PlayerState) => HaltingSince(p, t, from, length);
    forall t | inv(t) && Waiting(t) ensures inv(HandleFirst(t)) {
      HandleHalting(p, t, from, length);
    }
    DrainInvariant(ServerBeforeUpdate(s), inv);
  }

  lemma SoundHalting(s: PlayerState, t: PlayerState, from: real, length: real)
    requires Halting(s, from, length) && SoundOnly(s, t)
    ensures Halting(t, from, length) && Drifts(s, t)
  {}

  lemma HappenHalting(s: PlayerState, from: real, length: real, h: Happening)
    requires Halting(s, from, length) && (h.Post? ==> Mild(h.message, length))
    ensures var t := s.(pipe := Happen(s.pipe, h)); Halting(t, from, length) && Drifts(s, t)
  {
    ReachMild(s.pipe, s.pipe.target, length);
  }

  lemma QueryHalting(s: PlayerState, from: real, length: real)
    requires Halting(s, from, length)
    ensures Halting(s.QueryState(), from, length) && Drifts(s, s.QueryState())
  {
    ReachMild(Asked(s.pipe), s.pipe.target, length);
  }

  lemma EventHalting(s: PlayerState, from: real, length: real, e: Event)
    requires Halting(s, from, length) && Gentle(e, length) && !e.DoUpdate?
    ensures Halting(Step(s, e), from, length) && Drifts(s, Step(s, e))
  {
    match e {
      case DoQueryState => QueryHalting(s, from, length);
      case DoSetVolume(v) =>
        SettingSound(s, v, false);
        SoundHalting(s, Step(s, e), from, length);
      case DoSetMute(on) =>
        SettingSound(s, 0.0, on);
        SoundHalting(s, Step(s, e), from, length);
      case Meanwhile(h) => HappenHalting(s, from, length, h);
      case _ =>
    }
  }

  lemma StepHalting(p: PlayerState, s: PlayerState, from: real, length: real, e: Event)
    requires HaltingSince(p, s, from, length) && Gentle(e, length)
    ensures HaltingSince(p, Step(s, e), from, length)
  {
    if Sought(s, |p.net.netSeeks| + 1) {
      StepSought(s, |p.net.netSeeks| + 1, e);
    } else if e.DoUpdate? {
      UpdateHalting(p, s, from, length, e.messages);
    } else {
      EventHalting(s, from, length, e);
    }
  }

  /** As long as no seek is made the server halts, and nothing that decides a seek changes. */
  lemma {:induction false} RunHalting(p: PlayerState, s: PlayerState, from: real, length: real, events: seq<Event>)
    requires HaltingSince(p, s, from, length) && AllGentle(events, length)
    ensures HaltingSince(p, Run(s, events), from, length)
    decreases |events|
  {
    if events != [] {
      StepHalting(p, s, from, length, events[0]);
      RunHalting(p, Step(s, events[0]), from, length, events[1..]);
    }
  }

  // ---------- Playing again ----------

  /** Asked to play, the resume seek not yet started. */
  ghost predicate Owing(s: PlayerState, from: real, length: real) {
    && Undisturbed(s, length) && s.pendingSeek < 0.0 && s.net.pendingStateSeek == from >= 0.0
    && (s.pipe.target == Playing ==> AsyncDone !in s.pipe.bus)
    && (s.pipe.state == Playing ==> s.pipe.target == Playing && HasChange(s.pipe.bus))
  }

  /** Since `r` the resume seek has not started. */
  ghost predicate Owes(r: PlayerState, s: PlayerState, from: real, length: real) {
    && Owing(s, from, length) && s.net.netSeeks == r.net.netSeeks && s.pipe.base == r.pipe.base
    && s.net.clock == r.net.clock && s.pipe.oracle == r.pipe.oracle && r.pipe.now <= s.pipe.now
  }

  /** The seek a resume makes when the server finds itself PLAYING at clock `at`. */
  function ResumePlan(r: PlayerState, from: real, at: ClockTime): SeekPlan {
    SeekPlan(from, if r.net.clock then at else CLOCK_NONE, r.pipe.base, Playing)
  }

  /** Since `r` one network seek has been made, the resume, asked for at clock `at`. */
  ghost predicate Resumed(r: PlayerState, s: PlayerState, from: real, length: real, at: ClockTime) {
    && Within(s, ResumePlan(r, from, at), length, 4) && s.net.pendingStateSeek < 0.0
    && s.net.netSeeks == r.net.netSeeks + [from] && s.net.clock == r.net.clock && s.pipe.oracle == r.pipe.oracle
    && r.pipe.now <= at <= s.pipe.now
  }

  /** As `Resumed`, in the update that started the seek. */
  ghost predicate Fired(r: PlayerState, s: PlayerState, from: real, length: real) {
    Resumed(r, s, from, length, s.pipe.now) && Pending(s, ResumePlan(r, from, s.pipe.now), length) &&
    AsyncDone !in s.pipe.bus
  }

  lemma FoundPlaying(r: PlayerState, u: PlayerState, from: real, length: real)
    requires u.kind.Server? && u.open && u.pipe.state == u.pipe.target == Playing && 0.0 <= from <= length
    requires Undisturbed(u, length) && u.net.pendingStateSeek == from && AsyncDone !in u.pipe.bus
    requires u.net.netSeeks == r.net.netSeeks && u.pipe.base == r.pipe.base && u.net.clock == r.net.clock
    requires u.pipe.oracle == r.pipe.oracle && r.pipe.now <= u.pipe.now
    ensures Fired(r, u.OnStateChanged(), from, length) && u.OnStateChanged().pipe.now == u.pipe.now
  {}

  lemma PlayFires(s: PlayerState, from: real, length: real)
    requires Resting(s, from, length) && from <= length && s.pipe.state != Playing && AsyncDone !in s.pipe.bus
    ensures var t := s.SetState(Playing);
            if Answer(s.pipe) == Done then Fired(s, t, from, length) && t.pipe.now == s.pipe.now
            else Owes(s, t, from, length)
  {
    ReachMild(Asked(s.pipe), Playing, length);
    if Answer(s.pipe) == Done {
      FoundPlaying(s, s.(pipe := Reach(Asked(s.pipe), Playing)), from, length);
    }
  }

  lemma SoundIsNoMatter(r: PlayerState, s: PlayerState, t: PlayerState, from: real, length: real)
    requires SoundOnly(s, t)
    ensures Fired(r, s, from, length) ==> Fired(r, t, from, length)
    ensures Owes(r, s, from, length) ==> Owes(r, t, from, length)
  {}

  lemma HandleOwing(r: PlayerState, s: PlayerState, from: real, length: real)
    requires Owes(r, s, from, length) && from <= length && Waiting(s)
    ensures var t := HandleFirst(s);
            (Owes(r, t, from, length) || Fired(r, t, from, length)) && t.pipe.now == s.pipe.now
  {
    var p, m := s.Popped(), s.pipe.bus[0];
    if m.StateChanged? {
      HandleChangeOwing(r, s, from, length);
    } else {
      ChangeInTail(s.pipe.bus);
    }
  }

  lemma HandleChangeOwing(r: PlayerState, s: PlayerState, from: real, length: real)
    requires Owes(r, s, from, length) && from <= length && Waiting(s) && s.pipe.bus[0].StateChanged?
    ensures var t := HandleFirst(s);
            (Owes(r, t, from, length) || Fired(r, t, from, length)) && t.pipe.now == s.pipe.now
  {
    var p := s.Popped().(state := s.pipe.bus[0].after);
    var u := p.QueryState();
    ReachMild(Asked(p.pipe), p.pipe.target, length);
    if u.pipe.state == Playing {
      FoundPlaying(r, u, from, length);
      QueriedTwice(p);
    }
  }

  /** A query of a pipeline that is where it is going changes nothing. */
  lemma QueriedTwice(p: PlayerState)
    requires p.kind.Server? && p.QueryState().pipe.state == p.QueryState().pipe.target
    ensures p.OnStateChanged() == p.QueryState().OnStateChanged()
  {}

  lemma HandleFired(r: PlayerState, s: PlayerState, from: real, length: real)
    requires Fired(r, s, from, length) && Waiting(s)
    ensures Fired(r, HandleFirst(s), from, length) && HandleFirst(s).pipe.now == s.pipe.now
  {
    HandleSmooth(s, length);
  }

  /** One update: the resume seek starts if PLAYING has been reached. */
  lemma UpdateOwing(r: PlayerState, s: PlayerState, from: real, length: real, messages: seq<string>)
    requires Owes(r, s, from, length) && from <= length
    ensures var t := Update(s, messages);
            (Owes(r, t, from, length) || Fired(r, t, from, length)) && t.pipe.bus == [] && t.pipe.now == s.pipe.now
  {
    BeforeUpdateIs(s);
    var b := ServerBeforeUpdate(s);
    var inv := (t: PlayerState) =>
      (Owes(r, t, from, length) || Fired(r, t, from, length)) && t.pipe.now == s.pipe.now;
    forall t | inv(t) && Waiting(t) ensures inv(HandleFirst(t)) {
      if Fired(r, t, from, length) {
        HandleFired(r, t, from, length);
      } else {
        HandleOwing(r, t, from, length);
      }
    }
    DrainInvariant(b, inv);
  }

  lemma SettleOwing(r: PlayerState, s: PlayerState, from: real, length: real)
    requires Owes(r, s, from, length)
    ensures Owes(r, s.(pipe := Happen(s.pipe, Settle)), from, length)
  {
    ReachMild(s.pipe, s.pipe.target, length);
  }

  lemma PostOwing(r: PlayerState, s: PlayerState, from: real, length: real, m: Message)
    requires Owes(r, s, from, length) && Mild(m, length) && (m.AsyncDone? ==> s.pipe.target != Playing)
    ensures Owes(r, s.(pipe := s.pipe.(bus := s.pipe.bus + [m])), from, length)
  {
    ChangeStays(s.pipe.bus, m);
  }

  lemma QueryOwing(r: PlayerState, s: PlayerState, from: real, length: real)
    requires Owes(r, s, from, length)
    ensures Owes(r, s.QueryState(), from, length)
  {
    ReachMild(Asked(s.pipe), s.pipe.target, length);
  }

  lemma HappenOwing(r: PlayerState, s: PlayerState, from: real, length: real, h: Happening)
    requires Owes(r, s, from, length) && Calm(s, Meanwhile(h), length)
    ensures Owes(r, s.(pipe := Happen(s.pipe, h)), from, length)
  {
    match h {
      case Settle => SettleOwing(r, s, from, length);
      case Post(m) => PostOwing(r, s, from, length, m);
      case SeekDone =>
        var n := if s.pipe.inFlight == 0 then 0 else s.pipe.inFlight - 1;
        PostOwing(r, s.(pipe := s.pipe.(inFlight := n)), from, length, AsyncDone);
      case _ =>
    }
  }

  lemma CalmOwing(r: PlayerState, s: PlayerState, from: real, length: real, e: Event)
    requires Owes(r, s, from, length) && Calm(s, e, length) && !e.DoUpdate?
    ensures Owes(r, Step(s, e), from, length)
  {
    match e {
      case DoQueryState => QueryOwing(r, s, from, length);
      case DoSetVolume(v) => SettingSound(s, v, false); SoundIsNoMatter(r, s, Step(s, e), from, length);
      case DoSetMute(on) => SettingSound(s, 0.0, on); SoundIsNoMatter(r, s, Step(s, e), from, length);
      case Meanwhile(h) => HappenOwing(r, s, from, length, h);
      case _ =>
    }
  }

  lemma RunResumed(
    r: PlayerState, s: PlayerState, from: real, length: real, at: ClockTime, events: seq<Event>)
    requires Resumed(r, s, from, length, at) && AllCalm(s, events, length)
    ensures Resumed(r, Run(s, events), from, length, at)
  {
    RunWithin(s, ResumePlan(r, from, at), length, 4, Any, events);
    AnyPace(4, UpdateCount(events));
  }

  /** Either the resume is still owed, or it has been made once. */
  ghost predicate AtMostOnce(r: PlayerState, s: PlayerState, from: real, length: real) {
    Owes(r, s, from, length) || exists at :: Resumed(r, s, from, length, at)
  }

  lemma {:induction false} RunOwing(r: PlayerState, s: PlayerState, from: real, length: real, events: seq<Event>)
    requires Owes(r, s, from, length) && from <= length && AllCalm(s, events, length)
    ensures AtMostOnce(r, Run(s, events), from, length)
    decreases |events|
  {
    if events != [] {
      var t := Step(s, events[0]);
      if events[0].DoUpdate? {
        UpdateOwing(r, s, from, length, events[0].messages);
      } else {
        CalmOwing(r, s, from, length, events[0]);
      }
      if Owes(r, t, from, length) {
        RunOwing(r, t, from, length, events[1..]);
      } else {
        RunResumed(r, t, from, length, t.pipe.now, events[1..]);
      }
    }
  }

  lemma RunOnce(r: PlayerState, from: real, length: real, after: seq<Event>)
    requires Resting(r, from, length) && from <= length && r.pipe.state != Playing && AsyncDone !in r.pipe.bus
    requires AllCalm(r.Play(), after, length)
    ensures AtMostOnce(r, Run(r.Play(), after), from, length)
  {
    var u := r.SetState(Playing);
    PlayFires(r, from, length);
    PlayIsSetState(r);
    SoundIsNoMatter(r, u, r.Play(), from, length);
    if Answer(r.pipe) == Done {
      RunResumed(r, r.Play(), from, length, r.pipe.now, after);
    } else {
      RunOwing(r, r.Play(), from, length, after);
    }
  }

  /** A notification that names no change starts no resume, though the server is PLAYING. */
  lemma NoChangeNoResume(s: PlayerState, a: GstState, messages: seq<string>)
    requires s.kind.Server? && s.open && s.pipe.bus == [StateChanged(a, a)] && s.pendingSeek < 0.0
    ensures var t := Update(s, messages);
            t.state == a && t.net.netSeeks == s.net.netSeeks && t.net.pendingStateSeek == s.net.pendingStateSeek &&
            t.pipe.bus == []
  {
    BeforeUpdateIs(s);
    var b := ServerBeforeUpdate(s);
    assert HandleFirst(b) == b.Popped().(state := a);
    DrainStep(b);
    DrainStep(HandleFirst(b));
  }

  /** Playing after a rest makes at most one network seek, to where the rest began, whatever
      the pipeline answers and however many state notifications arrive: it is made exactly when
      the resume is owed no more, and by the time PLAYING is reached and the bus drained. The
      seek's own return to PLAYING starts no other. */
  lemma ResumesOnce(s: PlayerState, from: real, length: real, before: seq<Event>, after: seq<Event>)
    requires Resting(s, from, length) && from <= length && AllCalm(s, before, length)
    requires Run(s, before).pipe.state != Playing && AsyncDone !in Run(s, before).pipe.bus
    requires AllCalm(Run(s, before).Play(), after, length)
    ensures var t := Run(Run(s, before).Play(), after);
            t.net.netSeeks == s.net.netSeeks + (if t.net.pendingStateSeek < 0.0 then [from] else []) &&
            (t.net.pendingStateSeek >= 0.0 ==> t.net.pendingStateSeek == from && t.pendingSeek < 0.0) &&
            (t.pipe.state == Playing && t.pipe.bus == [] ==> t.net.pendingStateSeek < 0.0)
  {
    RestKeeps(s, from, length, before);
    RunOnce(Run(s, before), from, length, after);
  }

  /** A prompt pipeline starts the seek in play() itself and commits it in two updates. */
  lemma PromptResume(r: PlayerState, from: real, length: real, after: seq<Event>)
    requires Resting(r, from, length) && from <= length && r.pipe.state != Playing && AsyncDone !in r.pipe.bus
    requires AllCalm(r.Play(), after, length) && AllDone(r.pipe) && UpdateCount(after) >= 2
    ensures Committed(Run(r.Play(), after), ResumePlan(r, from, r.pipe.now), length)
    ensures Resumed(r, Run(r.Play(), after), from, length, r.pipe.now)
  {
    var u := r.SetState(Playing);
    PlayFires(r, from, length);
    PlayIsSetState(r);
    SoundIsNoMatter(r, u, r.Play(), from, length);
    RunResumed(r, r.Play(), from, length, r.pipe.now, after);
    RunWithin(r.Play(), ResumePlan(r, from, r.pipe.now), length, 4, Prompt, after);
    PhasesGone(1, UpdateCount(after) - 1, Prompt);
  }

  /** The server resumed at `ns` when the clock showed `at`. */
  ghost predicate PlaysFrom(t: PlayerState, ns: nat, at: ClockTime) {
    t.pipe.base == at - ns && (t.pipe.state == Playing ==> Position(t.pipe) == Some(ns + (t.pipe.now - at)))
  }

  lemma CommittedPlaysFrom(r: PlayerState, t: PlayerState, ns: nat, length: real, at: ClockTime)
    requires Resumed(r, t, Seconds(ns), length, at) && t.pendingSeek < 0.0 && r.net.clock
    requires ns <= at < CLOCK_NONE
    ensures PlaysFrom(t, ns, at)
  {
    RebaseExact(r.pipe.base, at, ns);
  }

  lemma RestResumes(r: PlayerState, ns: nat, length: real, after: seq<Event>)
    requires Resting(r, Seconds(ns), length) && Seconds(ns) <= length && r.net.clock && ns <= r.pipe.now
    requires r.pipe.state != Playing && AsyncDone !in r.pipe.bus && AllCalm(r.Play(), after, length)
    requires Run(r.Play(), after).pipe.now < CLOCK_NONE
    ensures var t := Run(r.Play(), after);
            (t.net.pendingStateSeek < 0.0 && t.pendingSeek < 0.0 ==>
               exists at :: r.pipe.now <= at <= t.pipe.now && PlaysFrom(t, ns, at)) &&
            (AllDone(r.pipe) && UpdateCount(after) >= 2 ==> t.pipe.state == Playing && PlaysFrom(t, ns, r.pipe.now))
  {
    var t := Run(r.Play(), after);
    RunOnce(r, Seconds(ns), length, after);
    if t.net.pendingStateSeek < 0.0 && t.pendingSeek < 0.0 {
      var at :| Resumed(r, t, Seconds(ns), length, at);
      CommittedPlaysFrom(r, t, ns, length, at);
    }
    if AllDone(r.pipe) && UpdateCount(after) >= 2 {
      PromptResume(r, Seconds(ns), length, after);
      CommittedPlaysFrom(r, t, ns, length, r.pipe.now);
    }
  }

  /** Playing after a halt during which no seek was made resumes where the halt began. */
  lemma HaltResumes(p: PlayerState, ns: nat, length: real, before: seq<Event>, after: seq<Event>)
    requires Halting(p, Seconds(ns), length) && Seconds(ns) <= length && p.net.clock && ns <= p.pipe.now
    requires AllGentle(before, length) && Run(p, before).net.netSeeks == p.net.netSeeks
    requires var r := Run(p, before);
             r.pipe.state != Playing && AsyncDone !in r.pipe.bus && AllCalm(r.Play(), after, length) &&
             Run(r.Play(), after).pipe.now < CLOCK_NONE
    ensures var r := Run(p, before);
            var t := Run(r.Play(), after);
            t.net.netSeeks == p.net.netSeeks + (if t.net.pendingStateSeek < 0.0 then [Seconds(ns)] else []) &&
            (t.net.pendingStateSeek < 0.0 && t.pendingSeek < 0.0 ==>
               exists at :: r.pipe.now <= at <= t.pipe.now && PlaysFrom(t, ns, at)) &&
            (AllDone(p.pipe) && UpdateCount(after) >= 2 ==> t.pipe.state == Playing && PlaysFrom(t, ns, r.pipe.now))
  {
    RunHalting(p, p, Seconds(ns), length, before);
    var r := Run(p, before);
    assert Resting(r, Seconds(ns), length);
    RunOnce(r, Seconds(ns), length, after);
    RestResumes(r, ns, length, after);
  }

  /** Pause then play resumes at the position of the pause, from the clock at which the server
      finds itself PLAYING; with a prompt pipeline that is the clock of play(). It does so
      unless the pause is refused, has not been reached by then, or made a seek of its own. */
  lemma PausePlayResumes(s: PlayerState, ns: nat, length: real, before: seq<Event>, after: seq<Event>)
    requires Undisturbed(s, length) && s.pendingSeek < 0.0 && s.net.clock
    requires s.pipe.state == Playing && Position(s.pipe) == Some(ns) && Seconds(ns) <= length
    requires s.Pause().pipe.target != Playing && AllGentle(before, length)
    requires var r := Run(s.Pause(), before);
             r.net.netSeeks == s.net.netSeeks && r.pipe.state != Playing && AsyncDone !in r.pipe.bus &&
             AllCalm(r.Play(), after, length) && Run(r.Play(), after).pipe.now < CLOCK_NONE
    ensures var r := Run(s.Pause(), before);
            var t := Run(r.Play(), after);
            t.net.netSeeks == s.net.netSeeks + (if t.net.pendingStateSeek < 0.0 then [Seconds(ns)] else []) &&
            (t.net.pendingStateSeek < 0.0 && t.pendingSeek < 0.0 ==>
               exists at :: r.pipe.now <= at <= t.pipe.now && PlaysFrom(t, ns, at)) &&
            (AllDone(s.pipe) && UpdateCount(after) >= 2 ==> t.pipe.state == Playing && PlaysFrom(t, ns, r.pipe.now))
  {
    PauseHalts(s, length);
    HaltResumes(s.Pause(), ns, length, before, after);
  }

  /** Stop then play resumes at the start, whatever the base was. */
  lemma StopPlayResumes(s: PlayerState, length: real, before: seq<Event>, after: seq<Event>)
    requires Undisturbed(s, length) && s.pendingSeek < 0.0 && s.net.clock
    requires s.Stop().pipe.target != Playing && AllGentle(before, length)
    requires var r := Run(s.Stop(), before);
             r.net.netSeeks == s.net.netSeeks && r.pipe.state != Playing && AsyncDone !in r.pipe.bus &&
             AllCalm(r.Play(), after, length) && Run(r.Play(), after).pipe.now < CLOCK_NONE
    ensures var r := Run(s.Stop(), before);
            var t := Run(r.Play(), after);
            t.net.netSeeks == s.net.netSeeks + (if t.net.pendingStateSeek < 0.0 then [0.0] else []) &&
            (t.net.pendingStateSeek < 0.0 && t.pendingSeek < 0.0 ==>
               exists at :: r.pipe.now <= at <= t.pipe.now && PlaysFrom(t, 0, at)) &&
            (AllDone(s.pipe) && UpdateCount(after) >= 2 ==> t.pipe.state == Playing && PlaysFrom(t, 0, r.pipe.now))
  {
    assert Seconds(0) == 0.0;
    StopHalts(s, length);
    HaltResumes(s.Stop(), 0, length, before, after);
  }

  /** A seek made while paused is not what the next play resumes from: that seeks back to
      where the pause was. */
  lemma PausedSeekForgotten(s: PlayerState, from: real, x: real, length: real, before: seq<Event>, after: seq<Event>)
    requires Resting(s, from, length) && from <= length && s.pipe.state == s.pipe.target && AsyncDone !in s.pipe.bus
    requires AllCalm(s.SetTime(x), before, length)
    requires var r := Run(s.SetTime(x), before);
             r.pendingSeek < 0.0 && r.pipe.state != Playing && AsyncDone !in r.pipe.bus &&
             AllCalm(r.Play(), after, length)
    ensures var t := Run(Run(s.SetTime(x), before).Play(), after);
            t.net.netSeeks == s.net.netSeeks + [x] + (if t.net.pendingStateSeek < 0.0 then [from] else []) &&
            (t.pipe.state == Playing && t.pipe.bus == [] ==> t.net.pendingStateSeek < 0.0)
  {
    CalmSeek(s, x, length, before);
    SetTimeArms(s, x, length);
    RunWithin(s.SetTime(x), PlanOf(s, x), length, 4, Any, before);
    RunOnce(Run(s.SetTime(x), before), from, length, after);
  }
}
