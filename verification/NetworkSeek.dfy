/** The server's two-phase network seek (source/nsvr/nsvr_player_server.cpp), whatever the
    pipeline answers and whenever it gets there. */
module NetworkSeek {
  import opened Gst
  import opened Players
  import opened Updates
  import opened Invariants
  import opened Runs

  // ---------- An undisturbed server ----------

  /** Messages of a stream that does not end, from a medium of at least `length` seconds. */
  predicate Mild(m: Message, length: real) {
    match m
    case StateChanged(before, after) => before != after
    case DurationChanged(seconds) => seconds >= length
    case Eos => false
    case _ => true
  }

  ghost predicate MildBus(bus: seq<Message>, length: real) {
    forall k :: 0 <= k < |bus| ==> Mild(bus[k], length)
  }

  ghost predicate HasChange(bus: seq<Message>) { exists k :: 0 <= k < |bus| && bus[k].StateChanged? }

  ghost predicate Undisturbed(s: PlayerState, length: real) {
    s.kind.Server? && s.open && 0.0 <= length <= s.duration && MildBus(s.pipe.bus, length)
  }

  /** No notification can start a resume seek: none is owed, or the pipeline is leaving
      PLAYING with none queued, or has left it. */
  ghost predicate NoResume(s: PlayerState) {
    s.net.pendingStateSeek < 0.0 ||
    (s.pipe.target != Playing && (s.pipe.state == Playing ==> !HasChange(s.pipe.bus)))
  }

  /** Nothing that decides a seek changes, but for a transition under way coming to its end. */
  ghost predicate Drifts(s: PlayerState, t: PlayerState) {
    && t.kind == s.kind && t.open == s.open && t.pendingSeek == s.pendingSeek
    && t.pipe.target == s.pipe.target && (t.pipe.state == s.pipe.state || t.pipe.state == s.pipe.target)
    && t.pipe.base == s.pipe.base && t.pipe.oracle == s.pipe.oracle && s.pipe.now <= t.pipe.now
    && t.net.clock == s.net.clock && t.net.pendingTime == s.net.pendingTime && t.net.pendingState == s.net.pendingState
    && t.net.pendingStateSeek == s.net.pendingStateSeek && t.net.netSeeks == s.net.netSeeks
  }

  /** On a server every state change makes the cache right; entering NULL is not reported. */
  ghost predicate CacheFollows(s: PlayerState) {
    s.state == s.pipe.state || s.pipe.state == Null || HasChange(s.pipe.bus)
  }

  /** What handling messages keeps. */
  ghost predicate Smooth(s: PlayerState, t: PlayerState, length: real) {
    && Drifts(s, t) && Undisturbed(t, length) && NoResume(t)
    && (CacheFollows(s) ==> CacheFollows(t)) && (AsyncDone !in s.pipe.bus ==> AsyncDone !in t.pipe.bus)
  }

  lemma ReachMild(p: Pipeline, to: GstState, length: real)
    requires MildBus(p.bus, length)
    ensures MildBus(Reach(p, to).bus, length)
    ensures AsyncDone !in p.bus ==> AsyncDone !in Reach(p, to).bus
    ensures to != Null && (p.state != to || HasChange(p.bus)) ==> HasChange(Reach(p, to).bus)
  {
    PathShape(p.state, to);
    var bus := Reach(p, to).bus;
    if to != Null && p.state != to {
      assert bus[|bus| - 1] == Path(p.state, to)[|Path(p.state, to)| - 1];
    } else if to != Null && HasChange(p.bus) {
      var k :| 0 <= k < |p.bus| && p.bus[k].StateChanged?;
      assert bus[k] == p.bus[k];
    }
  }

  lemma QuerySmooth(s: PlayerState, length: real)
    requires Undisturbed(s, length) && NoResume(s)
    ensures Smooth(s, s.QueryState(), length) && s.QueryState().state == s.QueryState().pipe.state
    ensures s.QueryState().pipe.now == s.pipe.now
  {
    ReachMild(Asked(s.pipe), s.pipe.target, length);
  }

  lemma TailSmooth(s: PlayerState, length: real)
    requires Undisturbed(s, length) && NoResume(s) && Waiting(s)
    ensures Smooth(s, s.Popped(), length) || s.pipe.bus[0].StateChanged?
    ensures Undisturbed(s.Popped(), length) && NoResume(s.Popped()) && Drifts(s, s.Popped())
    ensures AsyncDone !in s.pipe.bus ==> AsyncDone !in s.Popped().pipe.bus
  {
    var bus := s.pipe.bus;
    if HasChange(bus) && !bus[0].StateChanged? {
      var k :| 0 <= k < |bus| && bus[k].StateChanged?;
      assert bus[1..][k - 1] == bus[k];
    }
    if HasChange(bus[1..]) {
      var k :| 0 <= k < |bus[1..]| && bus[1..][k].StateChanged?;
      assert bus[k + 1].StateChanged?;
    }
  }

  lemma HandleSmooth(s: PlayerState, length: real)
    requires Undisturbed(s, length) && NoResume(s) && Waiting(s)
    requires s.pipe.bus[0].AsyncDone? ==> s.pendingSeek < 0.0
    ensures Smooth(s, HandleFirst(s), length) && HandleFirst(s).pipe.now == s.pipe.now
  {
    var p, m := s.Popped(), s.pipe.bus[0];
    TailSmooth(s, length);
    if m.StateChanged? {
      assert HasChange(s.pipe.bus);
      QuerySmooth(p.(state := m.after), length);
    }
  }

  lemma DrainSmooth(s: PlayerState, length: real)
    requires Undisturbed(s, length) && NoResume(s)
    requires AsyncDone in s.pipe.bus ==> s.pendingSeek < 0.0
    ensures var t := Drain(s);
            Smooth(s, t, length) && t.pipe.now == s.pipe.now && t.pipe.bus == [] &&
            (CacheFollows(s) ==> t.state == t.pipe.state || t.pipe.state == Null)
  {
    var inv := (t: PlayerState) =>
      Smooth(s, t, length) && t.pipe.now == s.pipe.now && (AsyncDone in t.pipe.bus ==> s.pendingSeek < 0.0);
    forall t | inv(t) && Waiting(t) ensures inv(HandleFirst(t)) {
      HandleSmooth(t, length);
    }
    DrainInvariant(s, inv);
  }

  // ---------- Calm events ----------

  /** The end of an earlier seek does no harm: nothing is pending nor about to be, or the
      server is parked and the next update commits before it handles any message. */
  predicate Idle(s: PlayerState) {
    Parked(s) || (s.pendingSeek < 0.0 && (s.net.pendingStateSeek < 0.0 || s.pipe.target != Playing))
  }

  /** Events that neither seek, nor change state, nor close; no state is announced while the
      pipeline is leaving PLAYING and owes a resume. */
  predicate Calm(s: PlayerState, e: Event, length: real) {
    match e
    case DoUpdate(_) => true
    case DoQueryState => true
    case DoGetTime => true
    case DoSetVolume(_) => true
    case DoSetMute(_) => true
    case DoSetLoop(_) => true
    case DoSetFrequency(_) => true
    case Meanwhile(h) =>
      (match h
       case Tick(_) => true
       case Settle => true
       case SeekDone => Idle(s)
       case Post(m) =>
         Mild(m, length) && (m.AsyncDone? ==> Idle(s)) &&
         (m.StateChanged? ==> s.net.pendingStateSeek < 0.0 || s.pipe.state != Playing || s.pipe.target == Playing))
    case _ => false
  }

  ghost predicate AllCalm(s: PlayerState, events: seq<Event>, length: real)
    decreases |events|
  {
    events == [] || (Calm(s, events[0], length) && AllCalm(Step(s, events[0]), events[1..], length))
  }

  lemma {:induction false} CalmParts(s: PlayerState, a: seq<Event>, b: seq<Event>, length: real)
    requires AllCalm(s, a + b, length)
    ensures AllCalm(s, a, length) && AllCalm(Run(s, a), b, length)
    decreases |a|
  {
    if a == [] {
      assert a + b == b;
    } else {
      assert (a + b)[1..] == a[1..] + b;
      CalmParts(Step(s, a[0]), a[1..], b, length);
    }
  }

  lemma ChangeStays(bus: seq<Message>, m: Message)
    ensures HasChange(bus) ==> HasChange(bus + [m])
  {
    if HasChange(bus) {
      var k :| 0 <= k < |bus| && bus[k].StateChanged?;
      assert (bus + [m])[k] == bus[k];
    }
  }

  /** A message arriving. */
  lemma PostSmooth(s: PlayerState, m: Message, length: real)
    requires Undisturbed(s, length) && NoResume(s) && Mild(m, length)
    requires m.StateChanged? ==> s.net.pendingStateSeek < 0.0 || s.pipe.state != Playing || s.pipe.target == Playing
    ensures var t := s.(pipe := s.pipe.(bus := s.pipe.bus + [m]));
            Drifts(s, t) && Undisturbed(t, length) && NoResume(t) && (CacheFollows(s) ==> CacheFollows(t)) &&
            (AsyncDone in t.pipe.bus ==> AsyncDone in s.pipe.bus || m.AsyncDone?)
  {
    ChangeStays(s.pipe.bus, m);
  }

  lemma SettleSmooth(s: PlayerState, length: real)
    requires Undisturbed(s, length) && NoResume(s)
    ensures Smooth(s, s.(pipe := Happen(s.pipe, Settle)), length)
  {
    ReachMild(s.pipe, s.pipe.target, length);
  }

  /** As `Smooth`, but that a completion may arrive. */
  ghost predicate Calmly(s: PlayerState, t: PlayerState, length: real) {
    Drifts(s, t) && Undisturbed(t, length) && NoResume(t) && (CacheFollows(s) ==> CacheFollows(t)) &&
    (AsyncDone in t.pipe.bus ==> AsyncDone in s.pipe.bus || Idle(s)) && (Parked(s) ==> Parked(t))
  }

  lemma SeekDoneSmooth(s: PlayerState, length: real)
    requires Undisturbed(s, length) && NoResume(s) && Idle(s)
    ensures Calmly(s, s.(pipe := Happen(s.pipe, SeekDone)), length)
  {
    if s.pipe.inFlight > 0 {
      PostSmooth(s.(pipe := s.pipe.(inFlight := s.pipe.inFlight - 1)), AsyncDone, length);
    }
  }

  lemma HappenSmooth(s: PlayerState, h: Happening, length: real)
    requires Calm(s, Meanwhile(h), length) && Undisturbed(s, length) && NoResume(s)
    ensures Calmly(s, s.(pipe := Happen(s.pipe, h)), length)
  {
    match h {
      case Tick(_) =>
      case Settle => SettleSmooth(s, length);
      case SeekDone => SeekDoneSmooth(s, length);
      case Post(m) => PostSmooth(s, m, length);
    }
  }

  lemma SoundSmooth(s: PlayerState, t: PlayerState, length: real)
    requires SoundOnly(s, t) && Undisturbed(s, length) && NoResume(s)
    ensures Calmly(s, t, length)
  {}

  lemma SettingSmooth(s: PlayerState, e: Event, length: real)
    requires e.DoGetTime? || e.DoSetLoop? || e.DoSetFrequency?
    requires Undisturbed(s, length) && NoResume(s)
    ensures Calmly(s, Step(s, e), length)
  {}

  /** A calm event other than an update. */
  lemma CalmSmooth(s: PlayerState, e: Event, length: real)
    requires Calm(s, e, length) && !e.DoUpdate? && Undisturbed(s, length) && NoResume(s)
    ensures Calmly(s, Step(s, e), length)
  {
    match e {
      case DoQueryState => QuerySmooth(s, length);
      case DoSetVolume(v) => SettingSound(s, v, false); SoundSmooth(s, Step(s, e), length);
      case DoSetMute(on) => SettingSound(s, 0.0, on); SoundSmooth(s, Step(s, e), length);
      case Meanwhile(h) => HappenSmooth(s, h, length);
      case _ => SettingSmooth(s, e, length);
    }
  }

  // ---------- The phases of a seek ----------

  /** A seek to `target` seconds asked for at clock `at`, on base `from`, in state `back`. */
  datatype SeekPlan = SeekPlan(target: real, at: ClockTime, from: ClockTime, back: GstState)

  /** The seek waits, as planned. */
  predicate Awaits(s: PlayerState, k: SeekPlan) {
    s.pendingSeek == k.target >= 0.0 && s.net.pendingTime == k.at && s.net.pendingState == k.back &&
    s.pipe.base == k.from
  }

  /** The base has been moved as planned, and nothing waits. */
  predicate Applied(s: PlayerState, k: SeekPlan) {
    s.pendingSeek < 0.0 && s.net.pendingTime == CLOCK_NONE && s.net.pendingState == Null &&
    s.pipe.base == Rebase(k.from, k.at, k.target)
  }

  ghost predicate Pending(s: PlayerState, k: SeekPlan, length: real) {
    Undisturbed(s, length) && NoResume(s) && Awaits(s, k) && CacheFollows(s) &&
    (k.back == Playing ==> s.net.pendingStateSeek < 0.0) && (AsyncDone in s.pipe.bus ==> Parked(s))
  }

  ghost predicate Committed(s: PlayerState, k: SeekPlan, length: real) {
    Undisturbed(s, length) && NoResume(s) && Applied(s, k) && CacheFollows(s) &&
    (k.back == Playing ==> s.net.pendingStateSeek < 0.0) && (Unfailing(s.pipe) ==> s.pipe.target == k.back) &&
    (AllDone(s.pipe) ==> s.pipe.state == s.pipe.target)
  }

  /** Committed, or pending and no further from it than: 1 parked in READY, 2 in READY, 3 on
      its way to READY, 4 not yet asked to. */
  ghost predicate Within(s: PlayerState, k: SeekPlan, length: real, n: nat) {
    Committed(s, k, length) ||
    (n >= 1 && Pending(s, k, length) && (n <= 3 ==> s.pipe.target == Ready) && (n <= 2 ==> s.pipe.state == Ready) &&
     (n == 1 ==> s.state == Ready))
  }

  /** What a heartbeat and the count of updates touch. */
  ghost predicate OnlyBeat(s: PlayerState, t: PlayerState) {
    t == s.(time := t.time, volume := t.volume, net := s.net.(counter := t.net.counter, sent := t.net.sent))
  }

  lemma CountBeats(s: PlayerState)
    ensures OnlyBeat(s, CountHeartbeat(s))
  {}

  lemma AdvanceBeats(s: PlayerState, c: PlayerState)
    requires OnlyBeat(s, c)
    ensures OnlyBeat(AdvanceSeek(s), AdvanceSeek(c))
  {}

  lemma BeforeUpdateIs(s: PlayerState)
    requires s.open
    ensures OnlyBeat(AdvanceSeek(s), ServerBeforeUpdate(s))
  {
    CountBeats(s);
    AdvanceBeats(s, CountHeartbeat(s));
  }

  lemma Park(s: PlayerState, k: SeekPlan, length: real)
    requires Pending(s, k, length) && s.state != Ready
    ensures var t := AdvanceSeek(s);
            Pending(t, k, length) && AsyncDone !in t.pipe.bus && t.net == s.net && t.pipe.now == s.pipe.now &&
            t.pipe.oracle == s.pipe.oracle &&
            (Answer(s.pipe) != Failed || s.pipe.target == Ready ==> t.pipe.target == Ready) &&
            (Answer(s.pipe) == Done || s.pipe.state == Ready ==> t.pipe.state == Ready)
  {
    ReachMild(Asked(s.pipe), Ready, length);
  }

  lemma Commit(s: PlayerState, k: SeekPlan, length: real)
    requires Pending(s, k, length) && s.state == Ready
    ensures var t := AdvanceSeek(s);
            Committed(t, k, length) && t.net.clock == s.net.clock && t.net.netSeeks == s.net.netSeeks &&
            t.net.pendingStateSeek == s.net.pendingStateSeek && t.pipe.now == s.pipe.now &&
            t.pipe.oracle == s.pipe.oracle &&
            (s.pipe.state == s.pipe.target == k.back ==> t.pipe.state == t.pipe.target == k.back)
  {
    ReachMild(Asked(s.pipe.(base := Rebase(s.pipe.base, s.net.pendingTime, s.pendingSeek))), k.back, length);
  }

  /** The server has been asked for the same seeks, owes the same resume, and keeps its clock. */
  ghost predicate SameRequests(s: PlayerState, t: PlayerState) {
    t.net.netSeeks == s.net.netSeeks && t.net.pendingStateSeek == s.net.pendingStateSeek &&
    t.net.clock == s.net.clock && t.pipe.oracle == s.pipe.oracle && s.pipe.now <= t.pipe.now
  }

  /** How sure and how quick the pipeline is. */
  datatype Pace = Prompt | Sure | Any

  ghost predicate Paced(s: PlayerState, pace: Pace) {
    match pace case Prompt => AllDone(s.pipe) case Sure => Unfailing(s.pipe) case Any => true
  }

  function NextPhase(n: nat, pace: Pace): nat {
    if n == 0 then 0 else if n <= 2 then n - 1
    else match pace case Prompt => 1 case Sure => 3 case Any => n
  }

  lemma UpdatePending(s: PlayerState, k: SeekPlan, length: real, n: nat, pace: Pace, messages: seq<string>)
    requires Within(s, k, length, n) && Pending(s, k, length) && s.state != Ready && Paced(s, pace)
    ensures var t := Update(s, messages);
            Pending(t, k, length) && Within(t, k, length, NextPhase(n, pace)) && SameRequests(s, t) &&
            t.pipe.bus == [] &&
            (t.state == t.pipe.state || t.pipe.state == Null)
  {
    BeforeUpdateIs(s);
    Park(s, k, length);
    DrainSmooth(ServerBeforeUpdate(s), length);
  }

  lemma UpdateCommits(s: PlayerState, k: SeekPlan, length: real, messages: seq<string>)
    requires Pending(s, k, length) && s.state == Ready
    ensures var t := Update(s, messages);
            Committed(t, k, length) && SameRequests(s, t) && t.pipe.bus == [] &&
            (s.pipe.state == s.pipe.target == k.back ==> t.pipe.state == t.pipe.target == k.back)
  {
    BeforeUpdateIs(s);
    Commit(s, k, length);
    DrainSmooth(ServerBeforeUpdate(s), length);
  }

  /** An update with nothing pending. */
  lemma UpdateIdle(s: PlayerState, length: real, messages: seq<string>)
    requires Undisturbed(s, length) && NoResume(s) && s.pendingSeek < 0.0
    ensures var t := Update(s, messages);
            Smooth(s, t, length) && t.pipe.bus == [] && t.pipe.now == s.pipe.now &&
            (CacheFollows(s) ==> t.state == t.pipe.state || t.pipe.state == Null)
  {
    BeforeUpdateIs(s);
    DrainSmooth(ServerBeforeUpdate(s), length);
  }

  lemma UpdateWithin(s: PlayerState, k: SeekPlan, length: real, n: nat, pace: Pace, messages: seq<string>)
    requires Within(s, k, length, n) && Paced(s, pace)
    ensures Within(Update(s, messages), k, length, NextPhase(n, pace)) && SameRequests(s, Update(s, messages))
  {
    if Committed(s, k, length) {
      UpdateIdle(s, length, messages);
    } else if s.state == Ready {
      UpdateCommits(s, k, length, messages);
    } else {
      UpdatePending(s, k, length, n, pace, messages);
    }
  }

  lemma CalmWithin(s: PlayerState, k: SeekPlan, length: real, n: nat, e: Event)
    requires Within(s, k, length, n) && Calm(s, e, length) && !e.DoUpdate?
    ensures Within(Step(s, e), k, length, n) && SameRequests(s, Step(s, e))
  {
    CalmSmooth(s, e, length);
  }

  lemma StepWithin(s: PlayerState, k: SeekPlan, length: real, n: nat, pace: Pace, e: Event)
    requires Within(s, k, length, n) && Calm(s, e, length) && Paced(s, pace)
    ensures Within(Step(s, e), k, length, if e.DoUpdate? then NextPhase(n, pace) else n)
    ensures SameRequests(s, Step(s, e))
  {
    if e.DoUpdate? {
      UpdateWithin(s, k, length, n, pace, e.messages);
    } else {
      CalmWithin(s, k, length, n, e);
    }
  }

  function PhaseAfter(n: nat, updates: nat, pace: Pace): nat
    decreases updates
  {
    if updates == 0 then n else PhaseAfter(NextPhase(n, pace), updates - 1, pace)
  }

  lemma {:induction false} RunWithin(
    s: PlayerState, k: SeekPlan, length: real, n: nat, pace: Pace, events: seq<Event>)
    requires Within(s, k, length, n) && AllCalm(s, events, length) && Paced(s, pace)
    ensures Within(Run(s, events), k, length, PhaseAfter(n, UpdateCount(events), pace))
    ensures SameRequests(s, Run(s, events))
    decreases |events|
  {
    if events != [] {
      StepWithin(s, k, length, n, pace, events[0]);
      var next := if events[0].DoUpdate? then NextPhase(n, pace) else n;
      RunWithin(Step(s, events[0]), k, length, next, pace, events[1..]);
    }
  }

  lemma {:induction false} PhasesGone(n: nat, updates: nat, pace: Pace)
    requires n <= updates
    ensures n <= 2 ==> PhaseAfter(n, updates, pace) == 0
    decreases updates
  {
    if 0 < n <= 2 {
      PhasesGone(n - 1, updates - 1, pace);
    } else if n == 0 && updates > 0 {
      PhasesGone(0, updates - 1, pace);
    }
  }

  lemma {:induction false} AnyPace(n: nat, updates: nat)
    requires n >= 3
    ensures PhaseAfter(n, updates, Any) == n
    decreases updates
  {
    if updates > 0 {
      AnyPace(n, updates - 1);
    }
  }

  lemma {:induction false} SurePace(updates: nat)
    ensures PhaseAfter(3, updates, Sure) == 3
    decreases updates
  {
    if updates > 0 {
      SurePace(updates - 1);
    }
  }

  lemma SureAsks(updates: nat)
    requires updates >= 1
    ensures PhaseAfter(4, updates, Sure) == 3
  {
    SurePace(updates - 1);
  }

  // ---------- A calm seek ----------

  /** The plan a call to setTime(x) makes; the state is the one the query finds. */
  function PlanOf(s: PlayerState, x: real): SeekPlan {
    SeekPlan(Clamp(x, 0.0, s.duration), if s.net.clock then s.pipe.now else CLOCK_NONE, s.pipe.base,
             Gst.GetState(s.pipe).state)
  }

  /** No resume seek is in the way, nor the end of an earlier seek. */
  ghost predicate Seekable(s: PlayerState, length: real) {
    Undisturbed(s, length) && NoResume(s) && AsyncDone !in s.pipe.bus &&
    (Gst.GetState(s.pipe).state == Playing ==> s.net.pendingStateSeek < 0.0)
  }

  /** Updates a seek needs of a prompt pipeline: one from READY, two from elsewhere. */
  function UpdatesNeeded(p: Pipeline): nat { if p.state == p.target == Ready then 1 else 2 }

  lemma SetTimeArms(s: PlayerState, x: real, length: real)
    requires Seekable(s, length)
    ensures Within(s.SetTime(x), PlanOf(s, x), length, if s.pipe.state == s.pipe.target == Ready then 1 else 4)
    ensures Pending(s.SetTime(x), PlanOf(s, x), length)
    ensures s.SetTime(x).net.netSeeks == s.net.netSeeks + [x] && s.SetTime(x).pipe.now == s.pipe.now
    ensures s.SetTime(x).pipe.oracle == s.pipe.oracle && s.SetTime(x).net.clock == s.net.clock
  {
    QuerySmooth(s.ArmSeek(x), length);
  }

  /** Whatever the pipeline answers and however long it takes, in every calm run a seek stays
      pending as planned or is committed as planned, and no other seek starts; and when
      requests succeed at once it is committed after two updates. */
  lemma CalmSeek(s: PlayerState, x: real, length: real, events: seq<Event>)
    requires Seekable(s, length) && AllCalm(s.SetTime(x), events, length)
    ensures var k, t := PlanOf(s, x), Run(s.SetTime(x), events);
            (Pending(t, k, length) || Committed(t, k, length)) && t.net.netSeeks == s.net.netSeeks + [x] &&
            (AllDone(s.pipe) && UpdateCount(events) >= UpdatesNeeded(s.pipe) ==> Committed(t, k, length))
  {
    SetTimeArms(s, x, length);
    var n := UpdatesNeeded(s.pipe);
    RunWithin(s.SetTime(x), PlanOf(s, x), length, 4, Any, events);
    AnyPace(4, UpdateCount(events));
    if AllDone(s.pipe) && UpdateCount(events) >= n {
      RunWithin(s.SetTime(x), PlanOf(s, x), length, if n == 1 then 1 else 4, Prompt, events);
      PhasesGone(1, UpdateCount(events) - (n - 1), Prompt);
    }
  }

  lemma CommitsOnceReady(a: PlayerState, k: SeekPlan, length: real, before: seq<Event>, after: seq<Event>)
    requires Within(a, k, length, 4) && Unfailing(a.pipe) && AllCalm(a, before + after, length)
    requires UpdateCount(before) >= 1 && UpdateCount(after) >= 2
    requires Run(a, before).pendingSeek >= 0.0 ==> Run(a, before).pipe.state == Run(a, before).pipe.target
    ensures Committed(Run(a, before + after), k, length)
  {
    CalmParts(a, before, after, length);
    RunWithin(a, k, length, 4, Sure, before);
    SureAsks(UpdateCount(before));
    RunWithin(Run(a, before), k, length, 2, Sure, after);
    PhasesGone(2, UpdateCount(after), Sure);
    RunConcat(a, before, after);
  }

  /** When requests do not fail but may take their time: once an update has asked for READY
      and no transition is outstanding, two more updates commit the seek. */
  lemma SeekCommitsOnceReady(s: PlayerState, x: real, length: real, before: seq<Event>, after: seq<Event>)
    requires Seekable(s, length) && Unfailing(s.pipe) && AllCalm(s.SetTime(x), before + after, length)
    requires UpdateCount(before) >= 1 && UpdateCount(after) >= 2
    requires var r := Run(s.SetTime(x), before);
             r.pendingSeek >= 0.0 ==> r.pipe.state == r.pipe.target
    ensures Committed(Run(s.SetTime(x), before + after), PlanOf(s, x), length)
  {
    SetTimeArms(s, x, length);
    CommitsOnceReady(s.SetTime(x), PlanOf(s, x), length, before, after);
  }

  // ---------- Seeks and completions landing after the READY transition ----------

  /** Pending or committed with READY captured, and in READY. */
  ghost predicate Stranded(s: PlayerState, k: SeekPlan, length: real) {
    Within(s, k, length, 2) && k.back == Ready && s.pipe.state == s.pipe.target == Ready
  }

  lemma StepStranded(s: PlayerState, k: SeekPlan, length: real, e: Event)
    requires Stranded(s, k, length) && Calm(s, e, length)
    ensures Stranded(Step(s, e), k, length)
  {
    StepWithin(s, k, length, 2, Any, e);
    if !e.DoUpdate? {
      CalmSmooth(s, e, length);
    } else if Committed(s, k, length) {
      UpdateIdle(s, length, e.messages);
    } else if s.state == Ready {
      UpdateCommits(s, k, length, e.messages);
    } else {
      UpdatePending(s, k, length, 2, Any, e.messages);
    }
  }

  lemma {:induction false} RunStranded(s: PlayerState, k: SeekPlan, length: real, events: seq<Event>)
    requires Stranded(s, k, length) && AllCalm(s, events, length)
    ensures Stranded(Run(s, events), k, length)
    decreases |events|
  {
    if events != [] {
      StepStranded(s, k, length, events[0]);
      RunStranded(Step(s, events[0]), k, length, events[1..]);
    }
  }

  /** A seek landing once READY has been reached captures READY: whatever state the first one
      captured, the server is in READY from then on. */
  lemma SeekWhileParked(s: PlayerState, k: SeekPlan, x: real, length: real, events: seq<Event>)
    requires Pending(s, k, length) && s.pipe.state == s.pipe.target == Ready && AsyncDone !in s.pipe.bus
    requires AllCalm(s.SetTime(x), events, length)
    ensures var t := Run(s.SetTime(x), events);
            t.pipe.state == t.pipe.target == Ready && (UpdateCount(events) >= 1 ==> t.pendingSeek < 0.0)
  {
    var a, re := s.SetTime(x), PlanOf(s, x);
    SetTimeArms(s, x, length);
    RunStranded(a, re, length, events);
    RunWithin(a, re, length, 1, Any, events);
    if UpdateCount(events) >= 1 {
      PhasesGone(1, UpdateCount(events), Any);
    }
  }

  /** In READY with a seek pending that has captured READY, or is about to. */
  ghost predicate Recapturing(s: PlayerState, length: real) {
    Undisturbed(s, length) && NoResume(s) && CacheFollows(s) && s.pipe.state == s.pipe.target == Ready &&
    s.pendingSeek >= 0.0 && (AsyncDone in s.pipe.bus || s.net.pendingState == Ready)
  }

  lemma HandleRecaptures(s: PlayerState, length: real)
    requires Recapturing(s, length) && Waiting(s)
    ensures Recapturing(HandleFirst(s), length)
  {
    var p := s.Popped();
    if s.pipe.bus[0].AsyncDone? {
      TailSmooth(s, length);
    } else {
      HandleSmooth(s, length);
      assert AsyncDone in s.pipe.bus ==> AsyncDone in p.pipe.bus;
    }
  }

  lemma DrainRecaptures(s: PlayerState, length: real)
    requires Recapturing(s, length)
    ensures Recapturing(Drain(s), length) && Drain(s).pipe.bus == []
  {
    forall t | Recapturing(t, length) && Waiting(t) ensures Recapturing(HandleFirst(t), length) {
      HandleRecaptures(t, length);
    }
    DrainInvariant(s, t => Recapturing(t, length));
  }

  /** The end of an earlier seek, handled by the update that reaches READY, is such a seek:
      whatever state had been captured, the server is in READY from then on. */
  lemma AsyncDoneStrands(s: PlayerState, length: real, messages: seq<string>, events: seq<Event>)
    requires Undisturbed(s, length) && NoResume(s) && CacheFollows(s) && s.pendingSeek >= 0.0
    requires s.state != Ready && Answer(s.pipe) == Done && AsyncDone in s.pipe.bus
    requires AllCalm(Update(s, messages), events, length)
    ensures var t := Run(Update(s, messages), events);
            t.pipe.state == t.pipe.target == Ready && (UpdateCount(events) >= 1 ==> t.pendingSeek < 0.0)
  {
    BeforeUpdateIs(s);
    ReachMild(Asked(s.pipe), Ready, length);
    DrainRecaptures(ServerBeforeUpdate(s), length);
    var t := Update(s, messages);
    var re := SeekPlan(t.pendingSeek, t.net.pendingTime, t.pipe.base, Ready);
    RunStranded(t, re, length, events);
    RunWithin(t, re, length, 1, Any, events);
    if UpdateCount(events) >= 1 {
      PhasesGone(1, UpdateCount(events), Any);
    }
  }
}
