/** A client adopting its server's base time and state (source/nsvr/nsvr_player_client.cpp),
    however long its pipeline takes. */
module ClientSync {
  import opened Options
  import opened Gst
  import opened Players
  import opened Updates
  import opened Invariants
  import opened Runs
  import opened CachedState
  import opened MuteVolume
  import Packets = PacketHandler

  /** A heartbeat text that says what `h` does; the time it carries is of no consequence. */
  predicate Says(m: string, h: Packets.Packet) {
    m != "" && Packets.Parsed(m, NO_PACKET) == (true, h.(time := Packets.Parsed(m, NO_PACKET).1.time))
  }

  ghost predicate AllSay(messages: seq<string>, h: Packets.Packet) {
    forall k :: 0 <= k < |messages| ==> Says(messages[k], h)
  }

  lemma MirrorIgnoresTime(s: PlayerState, h: Packets.Packet, time: real)
    ensures Mirror(s, h.(time := time)) == Mirror(s, h)
  {}

  /** An open client whose requests do not fail, its cache about to be right, no end of stream
      queued; `prompt` when requests succeed at once and none is under way. */
  ghost predicate Following(s: PlayerState, prompt: bool) {
    && s.kind.Client? && s.open && Unfailing(s.pipe) && Cached(s) && Eos !in s.pipe.bus
    && (prompt ==> AllDone(s.pipe) && s.pipe.state == s.pipe.target)
  }

  // ---------- The ranking measure ----------

  /** Updates until the client is parked in READY, once no transition is under way. */
  function ToReady(s: PlayerState, prompt: bool): nat {
    if Parked(s) then 0 else if prompt || s.pipe.target == Ready then 1 else 2
  }

  /** Updates still needed that find a heartbeat and no transition under way, until base and
      state are as `h` has them; a base of 0 is never adopted. */
  function Rank(s: PlayerState, h: Packets.Packet, to: GstState, prompt: bool): nat {
    if s.net.baseTime == 0 && (s.pipe.base == h.base || h.base == 0) then (if s.pipe.target == to then 0 else 1)
    else if h.base == 0 && s.pipe.base != 0 then 1
    else 2 + ToReady(s, prompt) + (if s.pipe.base == h.base != 0 && s.net.baseTime != h.base then 1 else 0)
  }

  /** What a heartbeat leaves behind: no base pending and the state asked for, or the base
      pending and the pipeline untouched. */
  ghost predicate Heard(s: PlayerState, h: Packets.Packet, to: GstState) {
    if s.net.baseTime == 0 then (s.pipe.base == h.base || h.base == 0) && s.pipe.target == to
    else s.pipe.state == s.pipe.target && (s.pipe.base == h.base || s.net.baseTime == h.base)
  }

  lemma ReachClean(p: Pipeline, to: GstState)
    requires Eos !in p.bus
    ensures Eos !in Reach(p, to).bus
  {
    PathShape(p.state, to);
  }

  lemma QueryFollowing(s: PlayerState, prompt: bool)
    requires Following(s, prompt)
    ensures Following(s.QueryState(), prompt)
  {
    QueryCached(s);
    ReachClean(Asked(s.pipe), s.pipe.target);
  }

  lemma SetStateFollowing(s: PlayerState, prompt: bool, to: GstState)
    requires Following(s, prompt)
    ensures Following(s.SetState(to), prompt) && s.SetState(to).pipe.target == to
    ensures prompt ==> s.SetState(to).pipe.state == to
    ensures s.SetState(to) == s.(pipe := s.SetState(to).pipe)
  {
    SetStateCached(s, to);
    ReachClean(Asked(s.pipe), to);
  }

  /** The state a heartbeat names is asked for unless the client is found in it. */
  lemma ObeyFollowing(f: PlayerState, prompt: bool, to: GstState)
    requires Following(f, prompt)
    ensures var e := f.QueryState();
            var t := if e.state != to then e.SetState(to) else e;
            Following(t, prompt) && t.net == f.net && t.pipe.base == f.pipe.base &&
            (f.pipe.state == f.pipe.target || f.pipe.target == to ==> t.pipe.target == to) &&
            (t.pipe.target == f.pipe.target || t.pipe.target == to)
  {
    QueryFollowing(f, prompt);
    SetStateFollowing(f.QueryState(), prompt, to);
  }

  lemma SoundFollowing(s: PlayerState, t: PlayerState, h: Packets.Packet, to: GstState, prompt: bool)
    requires SoundOnly(s, t) && Following(s, prompt)
    ensures Following(t, prompt) && Rank(t, h, to, prompt) == Rank(s, h, to, prompt)
    ensures Heard(s, h, to) ==> Heard(t, h, to)
  {}

  lemma PendRank(f: PlayerState, h: Packets.Packet, to: GstState, prompt: bool)
    requires Following(f, prompt)
    ensures var d := PendBase(f, h.base);
            Following(d, prompt) && Rank(d, h, to, prompt) <= Rank(f, h, to, prompt) && d.pipe == f.pipe &&
            (d.pipe.base == h.base || d.net.baseTime == h.base) && (Heard(f, h, to) ==> Heard(d, h, to))
  {}

  lemma ObeyRank(d: PlayerState, h: Packets.Packet, to: GstState, prompt: bool)
    requires Following(d, prompt) && StateOf(h.state) == Some(to) && (d.pipe.base == h.base || d.net.baseTime == h.base)
    ensures var t := Obey(d, h.state);
            Following(t, prompt) && Rank(t, h, to, prompt) <= Rank(d, h, to, prompt) &&
            (d.pipe.state == d.pipe.target || Heard(d, h, to) ==> Heard(t, h, to))
  {
    if d.net.baseTime == 0 {
      ObeyFollowing(d, prompt, to);
    }
  }

  lemma MirrorRank(s: PlayerState, h: Packets.Packet, to: GstState, prompt: bool)
    requires Following(s, prompt) && StateOf(h.state) == Some(to)
    ensures var t := Mirror(s, h);
            Following(t, prompt) && Rank(t, h, to, prompt) <= Rank(s, h, to, prompt) &&
            (s.pipe.state == s.pipe.target || Heard(s, h, to) ==> Heard(t, h, to))
  {
    var f := Followed(s, h);
    FollowedSoundOnly(s, h);
    SoundFollowing(s, f, h, to, prompt);
    PendRank(f, h, to, prompt);
    ObeyRank(PendBase(f, h.base), h, to, prompt);
  }

  // ---------- A base of zero ----------

  /** On base 0 with nothing pending. */
  predicate AtZero(s: PlayerState) { s.pipe.base == 0 && s.net.baseTime == 0 }

  lemma MirrorZero(s: PlayerState, h: Packets.Packet, to: GstState, prompt: bool)
    requires Following(s, prompt) && StateOf(h.state) == Some(to) && h.base == 0
    ensures AtZero(Mirror(s, h)) <==> AtZero(s)
  {
    FollowedSoundOnly(s, h);
    var f := Followed(s, h);
    SoundFollowing(s, f, h, to, prompt);
    var d := PendBase(f, h.base);
    ObeyFollowing(d, prompt, to);
  }

  // ---------- Mute and volume, alongside ----------

  /** Heartbeats still needed before mute and volume agree, the cached volume included. */
  function SoundRank(s: PlayerState, h: Packets.Packet): nat {
    if Follows(s, h) && s.volume == s.pipe.volume then 0 else if Silent(s) then 1 else 2
  }

  function OneLess(n: nat): nat { if n == 0 then 0 else n - 1 }

  lemma FollowedSound(s: PlayerState, h: Packets.Packet)
    requires s.open && Plausible(h)
    ensures SoundRank(Followed(s, h), h) <= OneLess(SoundRank(s, h))
  {
    FollowedSilent(s, h);
  }

  lemma MirrorSound(s: PlayerState, h: Packets.Packet, to: GstState, prompt: bool)
    requires Following(s, prompt) && Plausible(h) && StateOf(h.state) == Some(to)
    ensures SoundRank(Mirror(s, h), h) <= OneLess(SoundRank(s, h))
  {
    FollowedSound(s, h);
    MirrorIsFollowed(s, h);
    MirrorKeepsCachedVolume(s, h, to, prompt);
  }

  lemma MirrorKeepsCachedVolume(s: PlayerState, h: Packets.Packet, to: GstState, prompt: bool)
    requires Following(s, prompt) && StateOf(h.state) == Some(to)
    ensures Mirror(s, h).volume == Followed(s, h).volume
  {
    FollowedSoundOnly(s, h);
    var f := Followed(s, h);
    SoundFollowing(s, f, h, to, prompt);
    var d := PendBase(f, h.base);
    QueryFollowing(d, prompt);
    SetStateFollowing(d.QueryState(), prompt, to);
  }

  // ---------- Hearing messages ----------

  /** From `s` to `t` a client comes no further away from what `h` says; in mute and volume it
      comes nearer if it has `heard` it. */
  ghost predicate Nearer(
    s: PlayerState, t: PlayerState, h: Packets.Packet, to: GstState, prompt: bool, heard: bool) {
    && Following(t, prompt) && Rank(t, h, to, prompt) <= Rank(s, h, to, prompt)
    && (h.base == 0 ==> (AtZero(t) <==> AtZero(s)))
    && (Plausible(h) ==> SoundRank(t, h) <= if heard then OneLess(SoundRank(s, h)) else SoundRank(s, h))
  }

  lemma MirrorNearer(s: PlayerState, h: Packets.Packet, to: GstState, prompt: bool)
    requires Following(s, prompt) && StateOf(h.state) == Some(to)
    ensures Nearer(s, Mirror(s, h), h, to, prompt, true)
    ensures s.pipe.state == s.pipe.target || Heard(s, h, to) ==> Heard(Mirror(s, h), h, to)
  {
    MirrorRank(s, h, to, prompt);
    if h.base == 0 {
      MirrorZero(s, h, to, prompt);
    }
    if Plausible(h) {
      MirrorSound(s, h, to, prompt);
    }
  }

  lemma {:induction false} MessagesNearer(
    s: PlayerState, h: Packets.Packet, to: GstState, prompt: bool, messages: seq<string>)
    requires Following(s, prompt) && StateOf(h.state) == Some(to) && AllSay(messages, h)
    ensures Nearer(s, OnMessages(s, messages), h, to, prompt, messages != [])
    ensures Heard(s, h, to) || (messages != [] && s.pipe.state == s.pipe.target) ==>
              Heard(OnMessages(s, messages), h, to)
    decreases |messages|
  {
    if messages != [] {
      var p := Packets.Parsed(messages[0], NO_PACKET).1;
      assert Says(messages[0], h);
      MirrorIgnoresTime(s, h, p.time);
      MirrorNearer(s, h, to, prompt);
      MessagesNearer(OnMessage(s, messages[0]), h, to, prompt, messages[1..]);
    }
  }

  // ---------- The bus loop ----------

  /** On a client the bus loop leaves states, base and sound alone. */
  ghost predicate LoopKeeps(s: PlayerState, t: PlayerState) {
    && t.kind == s.kind && t.open == s.open && t.net == s.net && t.mute == s.mute && t.volume == s.volume
    && t.pipe.state == s.pipe.state && t.pipe.target == s.pipe.target && t.pipe.base == s.pipe.base
    && t.pipe.volume == s.pipe.volume && t.pipe.oracle == s.pipe.oracle && Eos !in t.pipe.bus
  }

  lemma HandleLoopKeeps(s: PlayerState)
    requires s.kind.Client? && Eos !in s.pipe.bus && Waiting(s)
    ensures LoopKeeps(s, HandleFirst(s))
  {}

  lemma DrainLoopKeeps(s: PlayerState)
    requires s.kind.Client? && Eos !in s.pipe.bus
    ensures LoopKeeps(s, Drain(s))
  {
    forall t | LoopKeeps(s, t) && Waiting(t) ensures LoopKeeps(s, HandleFirst(t)) {
      HandleLoopKeeps(t);
    }
    DrainInvariant(s, t => LoopKeeps(s, t));
  }

  lemma DrainFollowing(s: PlayerState, prompt: bool)
    requires Following(s, prompt)
    ensures var t := Drain(s);
            Following(t, prompt) && LoopKeeps(s, t) && t.pipe.bus == [] &&
            (t.pipe.state != Null ==> t.state == t.pipe.state)
  {
    DrainLoopKeeps(s);
    DrainCached(s);
    DrainInvariant(s, t => true);
  }

  // ---------- One update ----------

  lemma AskReady(s: PlayerState, prompt: bool)
    requires Following(s, prompt) && s.net.baseTime != 0 && s.state != Ready
    ensures var t := Drain(AdoptBase(s));
            Following(t, prompt) && t.net == s.net && t.pipe.base == s.pipe.base && t.pipe.target == Ready &&
            SameSound(s, t) && t.volume == s.volume && (prompt || s.pipe.state == s.pipe.target == Ready ==> Parked(t))
  {
    PipeSetStateTracks(s.pipe, Ready, s.state);
    ReachClean(Asked(s.pipe), Ready);
    DrainFollowing(AdoptBase(s), prompt);
  }

  lemma Adopt(s: PlayerState, prompt: bool)
    requires Following(s, prompt) && s.net.baseTime != 0 && s.state == Ready
    ensures var t := Drain(AdoptBase(s));
            Following(t, prompt) && t.net.baseTime == 0 && t.pipe.base == s.net.baseTime &&
            SameSound(s, t) && t.volume == s.volume && t.pipe.target == s.pipe.target && (Parked(s) ==> Parked(t))
  {
    DrainFollowing(AdoptBase(s), prompt);
  }

  /** What the rest of an update does to base, state and sound brings the client no further away. */
  ghost predicate Advances(s: PlayerState, t: PlayerState, h: Packets.Packet, to: GstState, prompt: bool) {
    Nearer(s, t, h, to, prompt, false) &&
    (Heard(s, h, to) ==> Rank(t, h, to, prompt) < Rank(s, h, to, prompt) || Rank(t, h, to, prompt) == 0)
  }

  lemma LoopAdvances(s: PlayerState, h: Packets.Packet, to: GstState, prompt: bool)
    requires Following(s, prompt) && s.net.baseTime == 0
    ensures Advances(s, Drain(s), h, to, prompt)
  {
    DrainFollowing(s, prompt);
  }

  lemma AskingAdvances(s: PlayerState, h: Packets.Packet, to: GstState, prompt: bool)
    requires Following(s, prompt) && s.net.baseTime != 0
    ensures Advances(s, Drain(AdoptBase(s)), h, to, prompt)
  {
    if s.state == Ready {
      Adopt(s, prompt);
    } else {
      AskReady(s, prompt);
    }
  }

  lemma UpdateNearer(s: PlayerState, h: Packets.Packet, to: GstState, prompt: bool, messages: seq<string>)
    requires Following(s, prompt) && StateOf(h.state) == Some(to) && AllSay(messages, h)
    ensures Nearer(s, Update(s, messages), h, to, prompt, messages != [])
    ensures var r, q := Rank(s, h, to, prompt), Rank(Update(s, messages), h, to, prompt);
            messages != [] && s.pipe.state == s.pipe.target && r > 0 ==> q < r
  {
    var m := OnMessages(s, messages);
    MessagesNearer(s, h, to, prompt, messages);
    if m.net.baseTime == 0 {
      LoopAdvances(m, h, to, prompt);
    } else {
      AskingAdvances(m, h, to, prompt);
    }
  }

  // ---------- Runs of updates ----------

  /** No local command: updates, reading, and what the pipeline does by itself, an end of
      stream excepted. */
  predicate Passive(e: Event) {
    match e
    case DoUpdate(_) => true
    case DoQueryState => true
    case DoGetTime => true
    case Meanwhile(m) => m.Post? ==> !m.message.Eos? && !m.message.StateChanged?
    case _ => false
  }

  /** Updates find nothing but such heartbeats. */
  ghost predicate Hears(e: Event, h: Packets.Packet) {
    Passive(e) && (e.DoUpdate? ==> AllSay(e.messages, h))
  }

  ghost predicate AllHear(events: seq<Event>, h: Packets.Packet) {
    forall k :: 0 <= k < |events| ==> Hears(events[k], h)
  }

  /** Updates that find a heartbeat. */
  function Beats(events: seq<Event>): nat {
    if events == [] then 0
    else (if Beat(events[0]) then 1 else 0) + Beats(events[1..])
  }

  /** Updates that find a heartbeat and no transition under way. */
  ghost function SteadyBeats(s: PlayerState, events: seq<Event>): nat
    decreases |events|
  {
    if events == [] then 0
    else
      (if Beat(events[0]) && s.pipe.state == s.pipe.target then 1 else 0) +
      SteadyBeats(Step(s, events[0]), events[1..])
  }

  /** Nothing changes but where the pipeline is on its way. */
  ghost predicate Stays(s: PlayerState, t: PlayerState, prompt: bool) {
    Following(t, prompt) && t.net == s.net && t.pipe.base == s.pipe.base && t.pipe.target == s.pipe.target &&
    (Parked(s) ==> Parked(t)) && SameSound(s, t) && t.volume == s.volume
  }

  lemma StayingNearer(s: PlayerState, t: PlayerState, h: Packets.Packet, to: GstState, prompt: bool)
    requires Following(s, prompt) && Stays(s, t, prompt)
    ensures Nearer(s, t, h, to, prompt, false)
  {}

  lemma PassiveStays(s: PlayerState, prompt: bool, e: Event)
    requires Following(s, prompt) && Passive(e) && !e.DoUpdate?
    ensures Stays(s, Step(s, e), prompt)
  {
    match e {
      case DoQueryState => QueryFollowing(s, prompt);
      case Meanwhile(m) =>
        HappenCached(s, e);
        if m.Settle? {
          ReachClean(s.pipe, s.pipe.target);
        }
      case _ =>
    }
  }

  /** An update that finds a heartbeat. */
  predicate Beat(e: Event) { e.DoUpdate? && e.messages != [] }

  /** Every event brings the client nearer or leaves it where it is; an update that finds a
      heartbeat and no transition under way brings it nearer to base and state too. */
  lemma StepNearer(s: PlayerState, h: Packets.Packet, to: GstState, prompt: bool, e: Event)
    requires Following(s, prompt) && StateOf(h.state) == Some(to) && Hears(e, h)
    ensures Nearer(s, Step(s, e), h, to, prompt, Beat(e))
    ensures var r, q := Rank(s, h, to, prompt), Rank(Step(s, e), h, to, prompt);
            Beat(e) && s.pipe.state == s.pipe.target && r > 0 ==> q < r
  {
    if e.DoUpdate? {
      UpdateNearer(s, h, to, prompt, e.messages);
    } else {
      PassiveStays(s, prompt, e);
      StayingNearer(s, Step(s, e), h, to, prompt);
    }
  }

  lemma {:induction false} RunNearer(
    s: PlayerState, h: Packets.Packet, to: GstState, prompt: bool, events: seq<Event>)
    requires Following(s, prompt) && StateOf(h.state) == Some(to) && AllHear(events, h)
    ensures Nearer(s, Run(s, events), h, to, prompt, false)
    ensures var q := Rank(Run(s, events), h, to, prompt); q == 0 || q + SteadyBeats(s, events) <= Rank(s, h, to, prompt)
    ensures var q := SoundRank(Run(s, events), h); Plausible(h) ==> q == 0 || q + Beats(events) <= SoundRank(s, h)
    decreases |events|
  {
    if events != [] {
      StepNearer(s, h, to, prompt, events[0]);
      RunNearer(Step(s, events[0]), h, to, prompt, events[1..]);
    }
  }

  /** With prompt requests no transition is ever under way. */
  lemma {:induction false} PromptBeats(s: PlayerState, h: Packets.Packet, to: GstState, events: seq<Event>)
    requires Following(s, true) && StateOf(h.state) == Some(to) && AllHear(events, h)
    ensures SteadyBeats(s, events) == Beats(events)
    decreases |events|
  {
    if events != [] {
      StepNearer(s, h, to, true, events[0]);
      PromptBeats(Step(s, events[0]), h, to, events[1..]);
    }
  }

  // ---------- Convergence ----------

  lemma {:induction false} SteadyAmongBeats(s: PlayerState, events: seq<Event>)
    ensures SteadyBeats(s, events) <= Beats(events)
    decreases |events|
  {
    if events != [] {
      SteadyAmongBeats(Step(s, events[0]), events[1..]);
    }
  }

  /** Heartbeats have been heard often enough: five times with no transition under way, or
      four times when requests succeed at once. */
  ghost predicate HeardEnough(s: PlayerState, events: seq<Event>) {
    SteadyBeats(s, events) >= 5 || (AllDone(s.pipe) && s.pipe.state == s.pipe.target && Beats(events) >= 4)
  }

  /** Nothing pending, in the state of the heartbeat or on the way there. */
  ghost predicate Converged(t: PlayerState, to: GstState) {
    t.net.baseTime == 0 && t.pipe.target == to && (t.pipe.bus == [] && t.pipe.state == to != Null ==> t.state == to)
  }

  /** A client, from any base, pending base, state, mute and volume and with transitions that
      take any time, ends with nothing pending and in the server's state or on its way there;
      it has the server's base exactly when that is not 0 or the client was there already; and
      it has the server's mute and volume. The heartbeats may differ in their time, and any
      updates without heartbeats and any happenings may come between. */
  lemma Convergence(s: PlayerState, h: Packets.Packet, to: GstState, events: seq<Event>)
    requires Following(s, false) && StateOf(h.state) == Some(to) && AllHear(events, h) && HeardEnough(s, events)
    ensures var t := Run(s, events);
            Converged(t, to) && (t.pipe.base == h.base <==> h.base != 0 || AtZero(s)) &&
            (Plausible(h) ==> Follows(t, h) && t.volume == t.pipe.volume)
  {
    var prompt := AllDone(s.pipe) && s.pipe.state == s.pipe.target && Beats(events) >= 4;
    RunNearer(s, h, to, prompt, events);
    SteadyAmongBeats(s, events);
    if prompt {
      PromptBeats(s, h, to, events);
    }
  }

  /** Two playing pipelines on one base show the same position whenever their clocks agree. */
  lemma EqualPositions(server: Pipeline, client: Pipeline, clock: ClockTime)
    requires server.state == client.state == Playing && server.base == client.base
    requires server.now <= clock && client.now <= clock
    ensures Position(Happen(server, Tick(clock))) == Position(Happen(client, Tick(clock)))
  {}

  // ---------- Further heartbeats ----------

  /** In agreement with the heartbeat in everything it carries, caches included. */
  ghost predicate Agrees(s: PlayerState, h: Packets.Packet, to: GstState) {
    && s.kind.Client? && s.open && s.pipe.target == s.pipe.state && s.pipe.bus == []
    && s.state == s.pipe.state == to && s.pipe.base == h.base && s.net.baseTime == 0
    && Follows(s, h) && s.volume == s.pipe.volume
  }

  lemma {:induction false} AgreementKept(s: PlayerState, h: Packets.Packet, to: GstState, messages: seq<string>)
    requires Agrees(s, h, to) && StateOf(h.state) == Some(to) && AllSay(messages, h)
    ensures OnMessages(s, messages) == s
    decreases |messages|
  {
    if messages != [] {
      assert Says(messages[0], h);
      MirrorIgnoresTime(s, h, Packets.Parsed(messages[0], NO_PACKET).1.time);
      assert Mirror(s, h) == s;
      AgreementKept(s, h, to, messages[1..]);
    }
  }

  /** Further heartbeats that say the same change nothing at all, whatever time they carry. */
  lemma HeartbeatsIdempotent(s: PlayerState, h: Packets.Packet, to: GstState, messages: seq<string>)
    requires Agrees(s, h, to) && StateOf(h.state) == Some(to) && AllSay(messages, h)
    ensures Update(s, messages) == s
  {
    AgreementKept(s, h, to, messages);
    DrainStep(s);
  }
}
