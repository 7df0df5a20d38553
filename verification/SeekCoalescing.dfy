/** Coalesced seeks of a player that is not a server (source/nsvr/nsvr_player.cpp). */
module SeekCoalescing {
  import opened Options
  import opened Gst
  import opened Players
  import opened Updates
  import opened Invariants
  import opened Runs
  import opened MuteVolume
  import Packets = PacketHandler

  // ---------- Bookkeeping ----------

  lemma {:induction false} CompletionsConcat(a: seq<Message>, b: seq<Message>)
    ensures Completions(a + b) == Completions(a) + Completions(b)
  {
    if a == [] {
      assert a + b == b;
    } else {
      assert (a + b)[1..] == a[1..] + b;
      CompletionsConcat(a[1..], b);
    }
  }

  /** No duration is announced but these. */
  ghost predicate Lasting(bus: seq<Message>, ds: set<real>) {
    forall m :: m in bus && m.DurationChanged? ==> m.seconds in ds
  }

  lemma {:induction false} NoCompletions(bus: seq<Message>)
    requires forall k :: 0 <= k < |bus| ==> bus[k].StateChanged?
    ensures Completions(bus) == 0
  {
    if bus != [] {
      NoCompletions(bus[1..]);
    }
  }

  /** Nothing about seeking changes, except that queued completions may be flushed. */
  ghost predicate SeekKeeps(s: PlayerState, t: PlayerState) {
    && t.kind == s.kind && t.open == s.open && t.duration == s.duration
    && t.pendingSeek == s.pendingSeek && t.seekingLock == s.seekingLock
    && t.pipe.seeks == s.pipe.seeks && t.pipe.inFlight == s.pipe.inFlight && t.pipe.oracle == s.pipe.oracle
    && s.pipe.flushed <= t.pipe.flushed
    && Completions(t.pipe.bus) + t.pipe.flushed == Completions(s.pipe.bus) + s.pipe.flushed
    && (forall m :: m in t.pipe.bus && m.DurationChanged? ==> m in s.pipe.bus)
  }

  lemma ReachSeeks(p: Pipeline, to: GstState)
    ensures Completions(Reach(p, to).bus) + Reach(p, to).flushed == Completions(p.bus) + p.flushed
    ensures p.flushed <= Reach(p, to).flushed
    ensures forall m :: m in Reach(p, to).bus && m.DurationChanged? ==> m in p.bus
  {
    PathShape(p.state, to);
    NoCompletions(Path(p.state, to));
    CompletionsConcat(p.bus, Path(p.state, to));
  }

  ghost function KeepingSeeks(s: PlayerState): PlayerState -> bool { t => !s.kind.Server? && SeekKeeps(s, t) }

  lemma SeeksKeptByPipeline(s: PlayerState)
    ensures KeptByPipeline(KeepingSeeks(s))
  {
    var inv := KeepingSeeks(s);
    forall t, to | inv(t) ensures inv(t.Requested(to)) {
      ReachSeeks(Asked(t.pipe), to);
    }
    forall t | inv(t) ensures inv(t.Waited()) && inv(t.QueryState()) {
      ReachSeeks(Asked(t.pipe), t.pipe.target);
    }
  }

  lemma SeeksKeptBySound(s: PlayerState)
    ensures KeptBySound(KeepingSeeks(s))
  {}

  lemma SeeksKept(s: PlayerState)
    ensures KeptByHeartbeats(KeepingSeeks(s))
  {
    SeeksKeptByPipeline(s);
    SeeksKeptBySound(s);
  }

  lemma SetStateSeeks(s: PlayerState, to: GstState)
    requires !s.kind.Server?
    ensures SeekKeeps(s, s.SetState(to))
  {
    SeeksKept(s);
    SetStateInv(KeepingSeeks(s), s, to);
  }

  lemma StopSeeks(s: PlayerState)
    requires !s.kind.Server?
    ensures SeekKeeps(s, s.Stop()) && SeekKeeps(s, s.Replay())
  {
    SeeksKept(s);
    StopInv(KeepingSeeks(s), s);
    ReplayInv(KeepingSeeks(s), s);
  }

  // ---------- The requests ----------

  datatype Fate = Stored | Issued | Refused

  /** The last request, what came of it at once, and the seeks issued and the request parked
      before it. */
  datatype Request = NoRequest | Request(seconds: real, fate: Fate, issued: seq<int>, parked: real)

  function Target(seconds: real, duration: real): int { Trunc(Clamp(seconds, 0.0, duration) * 1000000000.0) }

  /** A request within the medium is met to the nanosecond below it; one before or beyond it goes
      to its start or its end. */
  lemma TargetIs(seconds: real, duration: real)
    requires duration >= 0.0
    ensures 0.0 <= seconds <= duration ==>
              seconds - 0.000000001 < Seconds(Target(seconds, duration)) <= seconds
    ensures seconds < 0.0 ==> Target(seconds, duration) == 0
    ensures seconds > duration ==> Target(seconds, duration) == Target(duration, duration)
  {
    var at := Clamp(seconds, 0.0, duration);
    assert 0.0 <= at * 1000000000.0 - Target(seconds, duration) as real < 1.0;
  }

  /** Parked requests wait for a completion or a duration. */
  predicate Parking(s: PlayerState) { s.seekingLock || s.duration == 0.0 }

  function FateOf(s: PlayerState): Fate {
    if Parking(s) then Stored else if Answer(s.pipe) == Failed then Refused else Issued
  }

  function After(s: PlayerState, r: Request, e: Event): Request {
    match e
    case DoSetTime(t) => Request(t, FateOf(s), s.pipe.seeks, s.pendingSeek)
    case _ => r
  }

  ghost function AfterAll(s: PlayerState, r: Request, events: seq<Event>): Request
    decreases |events|
  {
    if events == [] then r else AfterAll(Step(s, events[0]), After(s, r, events[0]), events[1..])
  }

  /** The lock is taken exactly while a seek is in flight, its completion is queued, or its
      completion has been flushed since `flushed` were. */
  ghost predicate Balanced(s: PlayerState, flushed: nat) {
    flushed <= s.pipe.flushed &&
    s.pipe.inFlight + Completions(s.pipe.bus) + (s.pipe.flushed - flushed) == (if s.seekingLock then 1 else 0)
  }

  /** One seek has been issued for `x`, clamped to the duration the medium then had. */
  ghost predicate IssuedOnce(s: PlayerState, x: real, issued: seq<int>, ds: set<real>) {
    s.pendingSeek < 0.0 && exists d :: d in ds && d != 0.0 && s.pipe.seeks == issued + [Target(x, d)]
  }

  /** What has become of the last request. A parked one is lost if negative, and otherwise parked
      still or issued once; one the pipeline refused has changed nothing. */
  ghost predicate Answered(s: PlayerState, r: Request, ds: set<real>) {
    match r
    case NoRequest => s.pendingSeek < 0.0
    case Request(x, Issued, issued, _) => IssuedOnce(s, x, issued, ds)
    case Request(_, Refused, issued, parked) =>
      s.pipe.seeks == issued && s.pendingSeek == parked && !s.seekingLock && !Unfailing(s.pipe)
    case Request(x, Stored, issued, _) =>
      if x < 0.0 then s.pendingSeek < 0.0 && s.pipe.seeks == issued
      else (s.pendingSeek == x && s.pipe.seeks == issued) || IssuedOnce(s, x, issued, ds)
  }

  /** Where the run started, the pipeline was `start`. */
  ghost predicate Coalesced(s: PlayerState, r: Request, start: Pipeline, ds: set<real>) {
    && !s.kind.Server? && s.open && s.pipe.oracle == start.oracle && s.duration in ds && Lasting(s.pipe.bus, ds)
    && Balanced(s, start.flushed) && Answered(s, r, ds)
    && (s.pendingSeek >= 0.0 ==> s.seekingLock || 0.0 in ds || !Unfailing(start))
  }

  lemma KeepsCoalesced(s: PlayerState, t: PlayerState, r: Request, start: Pipeline, ds: set<real>)
    requires Coalesced(s, r, start, ds) && SeekKeeps(s, t)
    ensures Coalesced(t, r, start, ds)
  {}

  lemma SetTimeCoalesces(s: PlayerState, r: Request, x: real, start: Pipeline, ds: set<real>)
    requires Coalesced(s, r, start, ds)
    ensures Coalesced(s.SetTime(x), After(s, r, DoSetTime(x)), start, ds)
  {
    if FateOf(s) == Issued {
      assert s.SetTime(x).pipe.seeks == s.pipe.seeks + [Target(x, s.duration)];
    }
  }

  lemma CompletionCoalesces(s: PlayerState, r: Request, start: Pipeline, ds: set<real>)
    requires Coalesced(s, r, start, ds) && s.pipe.bus != [] && s.pipe.bus[0].AsyncDone?
    ensures Coalesced(HandleFirst(s), r, start, ds)
  {
    var u := s.Popped().(seekingLock := false);
    if u.pendingSeek >= 0.0 && FateOf(u) == Issued {
      var t := u.SetTime(u.pendingSeek);
      assert t.pipe.seeks == u.pipe.seeks + [Target(u.pendingSeek, u.duration)];
    }
  }

  lemma HandleCoalesces(s: PlayerState, r: Request, start: Pipeline, ds: set<real>)
    requires Coalesced(s, r, start, ds) && Waiting(s)
    ensures Coalesced(HandleFirst(s), r, start, ds)
  {
    var p := s.Popped();
    match s.pipe.bus[0] {
      case AsyncDone => CompletionCoalesces(s, r, start, ds);
      case Eos =>
        SetStateSeeks(p, Paused);
        StopSeeks(p);
        KeepsCoalesced(s, HandleFirst(s), r, start, ds);
      case DurationChanged(d) =>
        KeepsCoalesced(s, p, r, start, ds);
        assert s.pipe.bus[0] in s.pipe.bus;
      case _ => KeepsCoalesced(s, HandleFirst(s), r, start, ds);
    }
  }

  lemma MessagesSeeks(s: PlayerState, messages: seq<string>)
    requires s.kind.Client?
    ensures SeekKeeps(s, OnMessages(s, messages))
  {
    SeeksKept(s);
    MessagesInv(KeepingSeeks(s), s, messages);
  }

  lemma AdoptSeeks(s: PlayerState)
    requires s.kind.Client?
    ensures SeekKeeps(s, AdoptBase(s))
  {
    SeeksKept(s);
    assert KeepingSeeks(s)(s.Requested(Ready));
  }

  lemma UpdateCoalesces(s: PlayerState, r: Request, messages: seq<string>, start: Pipeline, ds: set<real>)
    requires Coalesced(s, r, start, ds)
    ensures Coalesced(Update(s, messages), r, start, ds)
  {
    var b := if s.kind.Client? then ClientBeforeUpdate(s, messages) else s;
    if s.kind.Client? {
      MessagesSeeks(s, messages);
      AdoptSeeks(OnMessages(s, messages));
    }
    KeepsCoalesced(s, b, r, start, ds);
    forall t | Coalesced(t, r, start, ds) && Waiting(t) ensures Coalesced(HandleFirst(t), r, start, ds) {
      HandleCoalesces(t, r, start, ds);
    }
    DrainInvariant(b, t => Coalesced(t, r, start, ds));
  }

  /** Events of an open player whose completions answer its seeks and whose medium announces no
      duration but these. */
  predicate Matched(e: Event, ds: set<real>) {
    !e.DoOpen? && !e.DoClose? &&
    (e.Meanwhile? && e.happening.Post? ==>
       !e.happening.message.AsyncDone? && (e.happening.message.DurationChanged? ==> e.happening.message.seconds in ds))
  }

  ghost predicate AllMatched(events: seq<Event>, ds: set<real>) {
    forall k :: 0 <= k < |events| ==> Matched(events[k], ds)
  }

  lemma SettleCoalesces(s: PlayerState, r: Request, start: Pipeline, ds: set<real>)
    requires Coalesced(s, r, start, ds)
    ensures Coalesced(s.(pipe := Happen(s.pipe, Settle)), r, start, ds)
  {
    ReachSeeks(s.pipe, s.pipe.target);
    KeepsCoalesced(s, s.(pipe := Happen(s.pipe, Settle)), r, start, ds);
  }

  lemma PostCoalesces(s: PlayerState, r: Request, m: Message, start: Pipeline, ds: set<real>)
    requires Coalesced(s, r, start, ds) && !m.AsyncDone? && (m.DurationChanged? ==> m.seconds in ds)
    ensures Coalesced(s.(pipe := Happen(s.pipe, Post(m))), r, start, ds)
  {
    CompletionsConcat(s.pipe.bus, [m]);
    assert Completions([m]) == 0;
  }

  lemma SeekDoneCoalesces(s: PlayerState, r: Request, start: Pipeline, ds: set<real>)
    requires Coalesced(s, r, start, ds)
    ensures Coalesced(s.(pipe := Happen(s.pipe, SeekDone)), r, start, ds)
  {
    CompletionsConcat(s.pipe.bus, [AsyncDone]);
  }

  lemma HappenCoalesces(s: PlayerState, r: Request, e: Event, start: Pipeline, ds: set<real>)
    requires Coalesced(s, r, start, ds) && Matched(e, ds) && e.Meanwhile?
    ensures Coalesced(Step(s, e), r, start, ds)
  {
    match e.happening {
      case Tick(_) => KeepsCoalesced(s, Step(s, e), r, start, ds);
      case Settle => SettleCoalesces(s, r, start, ds);
      case SeekDone => SeekDoneCoalesces(s, r, start, ds);
      case Post(m) => PostCoalesces(s, r, m, start, ds);
    }
  }

  lemma CommandCoalesces(s: PlayerState, r: Request, e: Event, start: Pipeline, ds: set<real>)
    requires Coalesced(s, r, start, ds) && Matched(e, ds) && !e.DoUpdate? && !e.DoSetTime? && !e.Meanwhile?
    ensures Coalesced(Step(s, e), r, start, ds)
  {
    if IsCommand(e) {
      SeeksKept(s);
      CommandInv(KeepingSeeks(s), s, e);
    }
    KeepsCoalesced(s, Step(s, e), r, start, ds);
  }

  lemma StepCoalesces(s: PlayerState, r: Request, e: Event, start: Pipeline, ds: set<real>)
    requires Coalesced(s, r, start, ds) && Matched(e, ds)
    ensures Coalesced(Step(s, e), After(s, r, e), start, ds)
  {
    match e {
      case DoUpdate(messages) => UpdateCoalesces(s, r, messages, start, ds);
      case DoSetTime(x) => SetTimeCoalesces(s, r, x, start, ds);
      case Meanwhile(_) => HappenCoalesces(s, r, e, start, ds);
      case _ => CommandCoalesces(s, r, e, start, ds);
    }
  }

  lemma {:induction false} RunCoalesces(s: PlayerState, r: Request, events: seq<Event>, start: Pipeline, ds: set<real>)
    requires Coalesced(s, r, start, ds) && AllMatched(events, ds)
    ensures Coalesced(Run(s, events), AfterAll(s, r, events), start, ds)
    decreases |events|
  {
    if events != [] {
      StepCoalesces(s, r, events[0], start, ds);
      RunCoalesces(Step(s, events[0]), After(s, r, events[0]), events[1..], start, ds);
    }
  }

  /** An open player that has not been asked to seek yet. */
  ghost predicate Unasked(s: PlayerState) {
    !s.kind.Server? && s.open &&
    s.pipe.inFlight == 0 && Completions(s.pipe.bus) == 0 && !s.seekingLock && s.pendingSeek < 0.0
  }

  /** The medium has, and has announced, no duration but these. */
  ghost predicate OfDurations(s: PlayerState, ds: set<real>) { s.duration in ds && Lasting(s.pipe.bus, ds) }

  /** No seek is in flight and no completion is waiting to be read. */
  ghost predicate Quiescent(s: PlayerState) { s.pipe.inFlight == 0 && Completions(s.pipe.bus) == 0 }

  /** In every run at most one seek is in flight. At quiescence the lock is free exactly when
      entering NULL has flushed no completion, and otherwise taken for good. The last request has
      been answered, and is parked at quiescence only for a duration of 0 or a seek refused. */
  lemma SeeksCoalesce(s: PlayerState, events: seq<Event>, ds: set<real>)
    requires Unasked(s) && OfDurations(s, ds) && AllMatched(events, ds)
    ensures var t, r := Run(s, events), AfterAll(s, NoRequest, events);
            t.pipe.inFlight + Completions(t.pipe.bus) <= 1 && Answered(t, r, ds) &&
            t.pipe.oracle == s.pipe.oracle &&
            (Quiescent(t) ==> (!t.seekingLock <==> t.pipe.flushed == s.pipe.flushed)) &&
            (Quiescent(t) && t.pipe.flushed == s.pipe.flushed && 0.0 !in ds && Unfailing(s.pipe) ==>
               t.pendingSeek < 0.0) &&
            (t.pipe.flushed != s.pipe.flushed ==> Stuck(t, t.pipe.seeks))
  {
    RunCoalesces(s, NoRequest, events, s.pipe, ds);
  }

  /** Where the duration does not come or go and no seek is refused, a last request that is not
      negative is left parked at quiescence exactly when the medium has no duration. */
  lemma ParkedIffNoDuration(s: PlayerState, events: seq<Event>, ds: set<real>)
    requires Unasked(s) && OfDurations(s, ds) && AllMatched(events, ds) && (0.0 in ds ==> ds == {0.0})
    requires Unfailing(s.pipe)
    requires var t, r := Run(s, events), AfterAll(s, NoRequest, events);
             Quiescent(t) && t.pipe.flushed == s.pipe.flushed && r.Request? && r.seconds >= 0.0
    ensures Run(s, events).pendingSeek >= 0.0 <==> s.duration == 0.0
  {
    SeeksCoalesce(s, events, ds);
  }

  // ---------- Seeks the pipeline refuses ----------

  /** A refused request leaves lock, parked request and seeks alone, so the next is issued. */
  lemma RefusedSeek(s: PlayerState, x: real, y: real)
    requires !s.kind.Server? && s.open && FateOf(s) == Refused
    ensures s.SetTime(x) == s.(pipe := Asked(s.pipe))
    ensures Answer(Asked(s.pipe)) != Failed ==>
              var t := s.SetTime(x).SetTime(y);
              t.seekingLock && t.pendingSeek < 0.0 && t.pipe.seeks == s.pipe.seeks + [Target(y, s.duration)] &&
              t.pipe.inFlight == s.pipe.inFlight + 1
  {}

  /** A parked request refused when a seek completes stays parked, unlocked, and is issued neither
      by later updates nor by time passing, but given up for the next request. */
  lemma RefusedOnCompletion(s: PlayerState, y: real)
    requires s.kind.Plain? && s.open && s.pipe.bus == [AsyncDone] && s.pendingSeek >= 0.0 && s.duration != 0.0
    requires Answer(s.pipe) == Failed
    ensures var t := Update(s, []);
            t == s.(seekingLock := false, pipe := Asked(s.pipe).(bus := [])) && Update(t, []) == t &&
            (Answer(t.pipe) != Failed ==>
               t.SetTime(y).pendingSeek < 0.0 && t.SetTime(y).pipe.seeks == s.pipe.seeks + [Target(y, s.duration)])
  {
    assert HandleFirst(s) == s.(seekingLock := false, pipe := Asked(s.pipe).(bus := []));
    DrainStep(s);
    DrainStep(HandleFirst(s));
  }

  /** A request made while the medium has no duration is parked with nothing in flight, and a
      duration announced later does not issue it. */
  lemma ParkedWithoutDuration(s: PlayerState, x: real, d: real)
    requires Unasked(s) && s.kind.Plain? && s.duration == 0.0 && s.pipe.bus == [] && x >= 0.0 && d > 0.0
    ensures var t := Step(Step(Step(s, DoSetTime(x)), Meanwhile(Post(DurationChanged(d)))), DoUpdate([]));
            Quiescent(t) && !t.seekingLock && t.duration == d && t.pendingSeek == x && t.pipe.seeks == s.pipe.seeks
  {
    var u := Step(Step(s, DoSetTime(x)), Meanwhile(Post(DurationChanged(d))));
    assert u.pipe.bus == [DurationChanged(d)] && u.Popped().pipe.bus == [];
    DrainStep(u);
    DrainStep(HandleFirst(u));
  }

  /** A medium without a duration, and no seek issued since. */
  ghost predicate Endless(s: PlayerState, seeks: seq<int>) {
    !s.kind.Server? && s.open && OfDurations(s, {0.0}) && s.pipe.seeks == seeks
  }

  ghost function StayingEndless(seeks: seq<int>): PlayerState -> bool { t => Endless(t, seeks) }

  lemma EndlessKeptByPipeline(seeks: seq<int>)
    ensures KeptByPipeline(StayingEndless(seeks))
  {
    var inv := StayingEndless(seeks);
    forall t, to | inv(t) ensures inv(t.Requested(to)) {
      ReachSeeks(Asked(t.pipe), to);
    }
    forall t | inv(t) ensures inv(t.Waited()) && inv(t.QueryState()) {
      ReachSeeks(Asked(t.pipe), t.pipe.target);
    }
  }

  lemma ReadEndless(t: PlayerState, seeks: seq<int>)
    requires Endless(t, seeks) && Waiting(t)
    ensures Endless(Read(t), seeks)
  {}

  lemma EndlessKeptByReading(seeks: seq<int>)
    ensures KeptByReading(StayingEndless(seeks))
  {
    forall t | Endless(t, seeks) && Waiting(t) ensures Endless(Read(t), seeks) {
      ReadEndless(t, seeks);
    }
  }

  lemma EndlessKept(seeks: seq<int>)
    ensures KeptByMessages(StayingEndless(seeks)) && KeptByHeartbeats(StayingEndless(seeks))
  {
    EndlessKeptByPipeline(seeks);
    EndlessKeptByReading(seeks);
  }

  lemma UpdateEndless(s: PlayerState, seeks: seq<int>, messages: seq<string>)
    requires Endless(s, seeks)
    ensures Endless(Update(s, messages), seeks)
  {
    var inv := StayingEndless(seeks);
    EndlessKept(seeks);
    if s.kind.Client? {
      MessagesInv(inv, s, messages);
      assert inv(OnMessages(s, messages).Requested(Ready));
      DrainInv(inv, ClientBeforeUpdate(s, messages));
    } else {
      DrainInv(inv, s);
    }
  }

  lemma StepEndless(s: PlayerState, seeks: seq<int>, e: Event)
    requires Endless(s, seeks) && Matched(e, {0.0})
    ensures Endless(Step(s, e), seeks)
  {
    match e {
      case DoUpdate(messages) => UpdateEndless(s, seeks, messages);
      case Meanwhile(h) => ReachSeeks(s.pipe, s.pipe.target);
      case _ =>
        if IsCommand(e) {
          EndlessKept(seeks);
          CommandInv(StayingEndless(seeks), s, e);
        }
    }
  }

  /** While the medium has no duration no seek is issued at all. */
  lemma {:induction false} NothingIssuedWithoutDuration(s: PlayerState, seeks: seq<int>, events: seq<Event>)
    requires Endless(s, seeks) && AllMatched(events, {0.0})
    ensures Run(s, events).pipe.seeks == seeks
    decreases |events|
  {
    if events != [] {
      StepEndless(s, seeks, events[0]);
      NothingIssuedWithoutDuration(Step(s, events[0]), seeks, events[1..]);
    }
  }

  // ---------- Keeping off NULL ----------

  /** A heartbeat that names the state NULL. */
  predicate NamesNull(message: string) {
    Packets.Parsed(message, NO_PACKET).0 && StateOf(Packets.Parsed(message, NO_PACKET).1.state) == Some(Null)
  }

  /** Events that do not take the pipeline to NULL. */
  predicate OffNull(e: Event) {
    match e
    case DoStop => false
    case DoReplay => false
    case DoSetState(to) => to != Null
    case DoSetLoop(on) => !on
    case DoUpdate(messages) => forall k :: 0 <= k < |messages| ==> !NamesNull(messages[k])
    case DoOpen(_) => false
    case DoClose => false
    case _ => true
  }

  ghost predicate StaysOff(s: PlayerState, t: PlayerState) {
    t.kind == s.kind && t.pipe.target != Null && !t.loop && t.pipe.flushed == s.pipe.flushed
  }

  lemma SetStateOff(s: PlayerState, to: GstState)
    requires !s.kind.Server? && s.pipe.target != Null && !s.loop && to != Null
    ensures StaysOff(s, s.SetState(to))
  {}

  lemma ObeyOff(s: PlayerState, code: int)
    requires s.kind.Client? && s.pipe.target != Null && !s.loop && StateOf(code) != Some(Null)
    ensures StaysOff(s, Obey(s, code))
  {
    if StateOf(code).Some? {
      SetStateOff(s.QueryState(), StateOf(code).value);
    }
  }

  lemma MirrorOff(s: PlayerState, h: Packets.Packet)
    requires s.kind.Client? && s.pipe.target != Null && !s.loop && StateOf(h.state) != Some(Null)
    ensures StaysOff(s, Mirror(s, h))
  {
    FollowedSoundOnly(s, h);
    ObeyOff(PendBase(Followed(s, h), h.base), h.state);
  }

  lemma {:induction false} MessagesOff(s: PlayerState, messages: seq<string>)
    requires s.kind.Client? && s.pipe.target != Null && !s.loop
    requires forall k :: 0 <= k < |messages| ==> !NamesNull(messages[k])
    ensures StaysOff(s, OnMessages(s, messages))
    decreases |messages|
  {
    if messages != [] {
      if Packets.Parsed(messages[0], NO_PACKET).0 {
        assert !NamesNull(messages[0]);
        MirrorOff(s, Packets.Parsed(messages[0], NO_PACKET).1);
      }
      MessagesOff(OnMessage(s, messages[0]), messages[1..]);
    }
  }

  lemma AdoptOff(s: PlayerState)
    requires s.pipe.target != Null && !s.loop
    ensures StaysOff(s, AdoptBase(s))
  {}

  lemma HandleOff(s: PlayerState)
    requires !s.kind.Server? && s.pipe.target != Null && !s.loop && Waiting(s)
    ensures StaysOff(s, HandleFirst(s))
  {
    SetStateOff(s.Popped(), Paused);
  }

  lemma UpdateOff(s: PlayerState, messages: seq<string>)
    requires !s.kind.Server? && s.pipe.target != Null && !s.loop
    requires forall k :: 0 <= k < |messages| ==> !NamesNull(messages[k])
    ensures StaysOff(s, Update(s, messages))
  {
    var b := if s.kind.Client? then ClientBeforeUpdate(s, messages) else s;
    if s.kind.Client? {
      MessagesOff(s, messages);
      AdoptOff(OnMessages(s, messages));
    }
    forall t | StaysOff(s, t) && Waiting(t) ensures StaysOff(s, HandleFirst(t)) {
      HandleOff(t);
    }
    DrainInvariant(b, t => StaysOff(s, t));
  }

  lemma StepOff(s: PlayerState, e: Event)
    requires !s.kind.Server? && s.pipe.target != Null && !s.loop && OffNull(e)
    ensures StaysOff(s, Step(s, e))
  {
    match e {
      case DoUpdate(messages) => UpdateOff(s, messages);
      case DoSetState(to) => SetStateOff(s, to);
      case DoPlay => SetStateOff(s, Playing); PlayIsSetState(s);
      case DoPause => SetStateOff(s, Paused);
      case _ =>
    }
  }

  lemma {:induction false} RunOff(s: PlayerState, events: seq<Event>)
    requires !s.kind.Server? && s.pipe.target != Null && !s.loop
    requires forall k :: 0 <= k < |events| ==> OffNull(events[k])
    ensures Run(s, events).pipe.flushed == s.pipe.flushed
    decreases |events|
  {
    if events != [] {
      StepOff(s, events[0]);
      RunOff(Step(s, events[0]), events[1..]);
    }
  }

  /** Kept off NULL, a player at quiescence is unlocked; on a medium with a duration, with no seek
      refused, nothing is parked, and since a last request that is not negative exactly that
      request, clamped, has been issued. */
  lemma SeeksCoalesceOffNull(s: PlayerState, events: seq<Event>, ds: set<real>)
    requires Unasked(s) && OfDurations(s, ds) && s.pipe.target != Null && !s.loop
    requires AllMatched(events, ds) && forall k :: 0 <= k < |events| ==> OffNull(events[k])
    requires Quiescent(Run(s, events))
    ensures !Run(s, events).seekingLock
    ensures var t, r := Run(s, events), AfterAll(s, NoRequest, events);
            0.0 !in ds && Unfailing(s.pipe) ==>
              t.pendingSeek < 0.0 &&
              (r.Request? && r.seconds >= 0.0 ==>
                 exists d :: d in ds && t.pipe.seeks == r.issued + [Target(r.seconds, d)])
  {
    SeeksCoalesce(s, events, ds);
    RunOff(s, events);
  }

  // ---------- Where coalescing fails ----------

  lemma OneCompletion(s: PlayerState)
    requires s.kind.Plain? && s.open && s.pipe.bus == [AsyncDone] && s.pendingSeek < 0.0
    ensures Update(s, []) == s.(seekingLock := false, pipe := s.pipe.(bus := []))
  {
    assert HandleFirst(s) == s.(seekingLock := false, pipe := s.pipe.(bus := []));
    DrainStep(s);
    DrainStep(HandleFirst(s));
  }

  /** A request of -1 made during a seek is never issued, though clamping would make it 0. */
  lemma NegativeRequestLost(s: PlayerState)
    requires Unasked(s) && s.kind.Plain? && s.duration == 10.0 && s.pipe.bus == [] && Answer(s.pipe) != Failed
    ensures var t := Step(Step(Step(Step(s, DoSetTime(5.0)), DoSetTime(-1.0)), Meanwhile(SeekDone)), DoUpdate([]));
            !t.seekingLock && t.pendingSeek < 0.0 && t.pipe.seeks == s.pipe.seeks + [5000000000] &&
            Target(-1.0, 10.0) == 0
  {
    var a := Step(s, DoSetTime(5.0));
    var c := Step(Step(a, DoSetTime(-1.0)), Meanwhile(SeekDone));
    assert a.pipe.seeks == s.pipe.seeks + [5000000000] && a.pipe.inFlight == 1 && a.seekingLock;
    assert c.pipe.bus == [AsyncDone] && c.pipe.seeks == a.pipe.seeks && c.pendingSeek == -1.0;
    OneCompletion(c);
  }

  /** A completion lost, as when stop() flushes the bus, leaves the lock taken. */
  ghost predicate Stuck(s: PlayerState, seeks: seq<int>) {
    !s.kind.Server? && s.open && s.seekingLock && s.pipe.inFlight == 0 && Completions(s.pipe.bus) == 0 &&
    s.pipe.seeks == seeks
  }

  lemma NullFlushes(s: PlayerState)
    requires !s.kind.Server? && s.open
    ensures var n := s.SetState(Null);
            n.kind == s.kind && n.open &&
            n.pipe.flushed ==
              if Answer(s.pipe) == Done then s.pipe.flushed + Completions(s.pipe.bus) else s.pipe.flushed
  {
    ReachSeeks(Asked(s.pipe), Null);
  }

  /** What stopping flushes, it flushes on the way to NULL. */
  lemma StopFlushes(s: PlayerState)
    requires !s.kind.Server? && s.open
    ensures s.Stop().pipe.flushed ==
            if Answer(s.pipe) == Done then s.pipe.flushed + Completions(s.pipe.bus) else s.pipe.flushed
  {
    NullFlushes(s);
    ReachSeeks(Asked(s.SetState(Null).pipe), Ready);
  }

  /** Stopping leaves the lock taken for good exactly when it is taken with the completion
      already queued and NULL is entered at once. */
  lemma StopLosesCompletion(s: PlayerState)
    requires !s.kind.Server? && s.open && Balanced(s, s.pipe.flushed)
    ensures Stuck(s.Stop(), s.pipe.seeks) <==>
            s.seekingLock && s.pipe.inFlight == 0 && Answer(s.pipe) == Done
  {
    StopSeeks(s);
    StopFlushes(s);
  }

  ghost function StayingStuck(seeks: seq<int>): PlayerState -> bool { t => Stuck(t, seeks) }

  lemma StuckKeptByPipeline(seeks: seq<int>)
    ensures KeptByPipeline(StayingStuck(seeks))
  {
    var inv := StayingStuck(seeks);
    forall t, to | inv(t) ensures inv(t.Requested(to)) {
      ReachSeeks(Asked(t.pipe), to);
    }
    forall t | inv(t) ensures inv(t.Waited()) && inv(t.QueryState()) {
      ReachSeeks(Asked(t.pipe), t.pipe.target);
    }
  }

  lemma StuckKept(seeks: seq<int>)
    ensures KeptByMessages(StayingStuck(seeks))
  {
    StuckKeptByPipeline(seeks);
  }

  lemma UpdateStuck(s: PlayerState, seeks: seq<int>, messages: seq<string>)
    requires Stuck(s, seeks)
    ensures Stuck(Update(s, messages), seeks)
  {
    var b := if s.kind.Client? then ClientBeforeUpdate(s, messages) else s;
    if s.kind.Client? {
      MessagesSeeks(s, messages);
      AdoptSeeks(OnMessages(s, messages));
    }
    StuckKept(seeks);
    DrainInv(StayingStuck(seeks), b);
  }

  lemma HappenStuck(s: PlayerState, seeks: seq<int>, h: Happening)
    requires Stuck(s, seeks) && (h.Post? ==> !h.message.AsyncDone?)
    ensures Stuck(s.(pipe := Happen(s.pipe, h)), seeks)
  {
    ReachSeeks(s.pipe, s.pipe.target);
    if h.Post? {
      CompletionsConcat(s.pipe.bus, [h.message]);
    }
  }

  lemma StepStuck(s: PlayerState, seeks: seq<int>, e: Event)
    requires Stuck(s, seeks) && !e.DoOpen? && !e.DoClose?
    requires !(e.Meanwhile? && e.happening.Post? && e.happening.message.AsyncDone?)
    ensures Stuck(Step(s, e), seeks)
  {
    match e {
      case DoUpdate(messages) => UpdateStuck(s, seeks, messages);
      case Meanwhile(h) => HappenStuck(s, seeks, h);
      case _ =>
        if IsCommand(e) {
          StuckKept(seeks);
          CommandInv(StayingStuck(seeks), s, e);
        }
    }
  }

  /** Then no request is ever issued again before the player is closed. */
  lemma {:induction false} StuckForever(s: PlayerState, seeks: seq<int>, events: seq<Event>)
    requires Stuck(s, seeks)
    requires forall k :: 0 <= k < |events| ==>
               !events[k].DoOpen? && !events[k].DoClose? &&
               !(events[k].Meanwhile? && events[k].happening.Post? && events[k].happening.message.AsyncDone?)
    ensures Run(s, events).pipe.seeks == seeks && Stuck(Run(s, events), seeks)
    decreases |events|
  {
    if events != [] {
      StepStuck(s, seeks, events[0]);
      StuckForever(Step(s, events[0]), seeks, events[1..]);
    }
  }
}
