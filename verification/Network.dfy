/** One server and its clients over a network that loses, repeats and reorders datagrams. */
module Network {
  import opened Options
  import opened Gst
  import opened Players
  import opened Updates
  import opened Invariants
  import opened Preservation
  import opened Runs
  import opened MuteVolume
  import opened NetworkSeek
  import opened Heartbeats
  import opened ClientSync
  import Decimal
  import Packets = PacketHandler

  // ---------- What has been broadcast ----------

  /** Some heartbeat broadcast carried this base time. */
  ghost predicate Carried(sent: seq<string>, base: ClockTime) {
    exists p: Packets.Packet :: Packets.Serialize(p) in sent && p.base == base
  }

  ghost predicate AllHeartbeats(sent: seq<string>) {
    forall m :: m in sent ==> exists p: Packets.Packet :: m == Packets.Serialize(p)
  }

  /** The log only grows, by whole heartbeats. */
  ghost predicate Extends(earlier: seq<string>, sent: seq<string>) {
    earlier <= sent && (AllHeartbeats(earlier) ==> AllHeartbeats(sent))
  }

  lemma CountExtends(s: PlayerState)
    ensures Extends(s.net.sent, CountHeartbeat(s).net.sent)
  {
    assert Packets.Serialize(Heartbeat(s)) == Packets.Serialize(Heartbeat(s));
  }

  lemma AdvanceKeepsSent(s: PlayerState)
    ensures AdvanceSeek(s).net.sent == s.net.sent && AdvanceSeek(s).kind == s.kind
  {}

  lemma BeforeUpdateSends(s: PlayerState)
    ensures ServerBeforeUpdate(s).kind == s.kind
    ensures ServerBeforeUpdate(s).net.sent == if s.open then CountHeartbeat(s).net.sent else s.net.sent
  {
    AdvanceKeepsSent(CountHeartbeat(s));
  }

  lemma UpdateSends(s: PlayerState, messages: seq<string>)
    requires s.kind.Server?
    ensures Update(s, messages).kind.Server?
    ensures Update(s, messages).net.sent == if s.open then CountHeartbeat(s).net.sent else s.net.sent
  {
    BeforeUpdateSends(s);
    DrainKeeps(ServerBeforeUpdate(s));
  }

  lemma UpdateExtends(s: PlayerState, messages: seq<string>)
    requires s.kind.Server?
    ensures Update(s, messages).kind.Server? && Extends(s.net.sent, Update(s, messages).net.sent)
  {
    CountExtends(s);
    UpdateSends(s, messages);
  }

  ghost predicate SameLog(s: PlayerState, t: PlayerState) { t.kind == s.kind && t.net.sent == s.net.sent }

  ghost function KeepingLog(s: PlayerState): PlayerState -> bool { t => SameLog(s, t) }

  lemma LogKept(s: PlayerState)
    ensures KeptByMessages(KeepingLog(s)) && KeptByOpening(KeepingLog(s))
  {
    TimingKept();
    KeptThrough(KeepingLog(s), KeepingTiming);
  }

  lemma ServerStepExtends(s: PlayerState, e: Event)
    requires s.kind.Server?
    ensures Step(s, e).kind.Server? && Extends(s.net.sent, Step(s, e).net.sent)
  {
    match e {
      case DoUpdate(messages) => UpdateExtends(s, messages);
      case DoOpen(media) => LogKept(s); OpenInv(KeepingLog(s), s, media);
      case DoClose => LogKept(s); CloseInv(KeepingLog(s), s);
      case _ =>
        if IsCommand(e) {
          LogKept(s);
          CommandInv(KeepingLog(s), s, e);
        }
    }
  }

  // ---------- What a client may hold ----------

  ghost predicate Safe(c: PlayerState, sent: seq<string>) {
    c.kind.Client? &&
    (c.net.baseTime == 0 || Carried(sent, c.net.baseTime)) &&
    (c.open ==> c.pipe.base == CLOCK_NONE || Carried(sent, c.pipe.base))
  }

  lemma SafeMonotone(c: PlayerState, earlier: seq<string>, sent: seq<string>)
    requires Safe(c, earlier) && earlier <= sent
    ensures Safe(c, sent)
  {
    forall b | Carried(earlier, b) ensures Carried(sent, b) {
      var p: Packets.Packet :| Packets.Serialize(p) in earlier && p.base == b;
      assert Packets.Serialize(p) in sent;
    }
  }

  lemma MirrorBases(s: PlayerState, p: Packets.Packet)
    ensures var t := Mirror(s, p);
            t.kind == s.kind && t.open == s.open && t.pipe.base == s.pipe.base &&
            (t.net.baseTime == s.net.baseTime || t.net.baseTime == p.base)
  {
    FollowedSoundOnly(s, p);
    ObeyKeeps(PendBase(Followed(s, p), p.base), p.state);
  }

  lemma MessageSafe(c: PlayerState, sent: seq<string>, m: string)
    requires AllHeartbeats(sent) && Safe(c, sent) && m in sent
    ensures Safe(OnMessage(c, m), sent)
  {
    var q: Packets.Packet :| m == Packets.Serialize(q);
    Packets.RoundTrip(q, NO_PACKET);
    if Packets.Readable(q) {
      MirrorBases(c, Packets.Rounded(q));
    }
  }

  lemma {:induction false} MessagesSafe(c: PlayerState, sent: seq<string>, messages: seq<string>)
    requires AllHeartbeats(sent) && Safe(c, sent) && forall k :: 0 <= k < |messages| ==> messages[k] in sent
    ensures Safe(OnMessages(c, messages), sent)
    decreases |messages|
  {
    if messages != [] {
      MessageSafe(c, sent, messages[0]);
      MessagesSafe(OnMessage(c, messages[0]), sent, messages[1..]);
    }
  }

  lemma SetupSafe(c: PlayerState, sent: seq<string>)
    requires Safe(c, sent)
    ensures Safe(SetupClock(c), sent)
  {
    var t := SetupClock(c);
    assert t.kind == c.kind && t.open == c.open;
    assert t.net.baseTime == c.net.baseTime || t.net.baseTime == 0;
    assert t.pipe.base == c.pipe.base || t.pipe.base == CLOCK_NONE ||
           (c.net.baseTime != 0 && t.pipe.base == c.net.baseTime);
  }

  ghost function StayingSafe(sent: seq<string>): PlayerState -> bool { c => Safe(c, sent) }

  lemma SafeKept(sent: seq<string>)
    ensures KeptByMessages(StayingSafe(sent)) && KeptByOpening(StayingSafe(sent))
  {
    TimingKept();
    KeptThrough(StayingSafe(sent), KeepingTiming);
    forall c | Safe(c, sent) ensures Safe(SetupClock(c), sent) {
      SetupSafe(c, sent);
    }
  }

  lemma AdoptSafe(c: PlayerState, sent: seq<string>)
    requires Safe(c, sent)
    ensures Safe(AdoptBase(c), sent)
  {
    SetupSafe(c, sent);
    SafeKept(sent);
    assert StayingSafe(sent)(c.Requested(Ready));
  }

  lemma UpdateSafe(c: PlayerState, sent: seq<string>, messages: seq<string>)
    requires AllHeartbeats(sent) && Safe(c, sent) && forall k :: 0 <= k < |messages| ==> messages[k] in sent
    ensures Safe(Update(c, messages), sent)
  {
    MessagesSafe(c, sent, messages);
    AdoptSafe(OnMessages(c, messages), sent);
    SafeKept(sent);
    DrainInv(StayingSafe(sent), ClientBeforeUpdate(c, messages));
  }

  lemma CommandSafe(c: PlayerState, sent: seq<string>, e: Event)
    requires Safe(c, sent) && IsCommand(e)
    ensures Safe(Step(c, e), sent)
  {
    SafeKept(sent);
    CommandInv(StayingSafe(sent), c, e);
  }

  lemma OpenSafe(c: PlayerState, sent: seq<string>, media: Media)
    requires Safe(c, sent)
    ensures Safe(Open(c, media).0, sent) && Safe(Close(c), sent)
  {
    SafeKept(sent);
    OpenInv(StayingSafe(sent), c, media);
    CloseInv(StayingSafe(sent), c);
  }

  ghost predicate SameBases(c: PlayerState, t: PlayerState) {
    t.kind == c.kind && t.open == c.open && t.pipe.base == c.pipe.base && t.net.baseTime == c.net.baseTime
  }

  lemma OtherEventsKeepBases(c: PlayerState, e: Event)
    requires !IsCommand(e) && !e.DoUpdate? && !e.DoOpen? && !e.DoClose?
    ensures SameBases(c, Step(c, e))
  {}

  lemma SafeThrough(c: PlayerState, t: PlayerState, sent: seq<string>)
    requires Safe(c, sent) && SameBases(c, t)
    ensures Safe(t, sent)
  {}

  lemma ClientStepSafe(c: PlayerState, sent: seq<string>, e: Event)
    requires AllHeartbeats(sent) && Safe(c, sent)
    requires e.DoUpdate? ==> forall k :: 0 <= k < |e.messages| ==> e.messages[k] in sent
    ensures Safe(Step(c, e), sent)
  {
    if e.DoUpdate? {
      UpdateSafe(c, sent, e.messages);
    } else if e.DoOpen? {
      OpenSafe(c, sent, e.media);
    } else if e.DoClose? {
      OpenSafe(c, sent, EmptyPath);
    } else if IsCommand(e) {
      CommandSafe(c, sent, e);
    } else {
      OtherEventsKeepBases(c, e);
      SafeThrough(c, Step(c, e), sent);
    }
  }

  // ---------- Runs of the whole system ----------

  datatype World = World(server: PlayerState, clients: seq<PlayerState>)

  datatype Action = OfServer(event: Event) | OfClient(index: nat, event: Event)

  /** A client receives only texts the server has broadcast, any of them, in any order and
      any number of times; an action that is not possible changes nothing. */
  ghost predicate Possible(w: World, a: Action) {
    a.OfClient? ==>
      a.index < |w.clients| &&
      (a.event.DoUpdate? ==> forall k :: 0 <= k < |a.event.messages| ==> a.event.messages[k] in w.server.net.sent)
  }

  ghost function Act(w: World, a: Action): World {
    if !Possible(w, a) then w
    else match a
      case OfServer(e) => w.(server := Step(w.server, e))
      case OfClient(i, e) => w.(clients := w.clients[i := Step(w.clients[i], e)])
  }

  ghost function ActAll(w: World, actions: seq<Action>): World
    decreases |actions|
  {
    if actions == [] then w else ActAll(Act(w, actions[0]), actions[1..])
  }

  ghost predicate AllSafe(w: World) {
    w.server.kind.Server? && AllHeartbeats(w.server.net.sent) &&
    forall i :: 0 <= i < |w.clients| ==> Safe(w.clients[i], w.server.net.sent)
  }

  lemma ActSafe(w: World, a: Action)
    requires AllSafe(w)
    ensures AllSafe(Act(w, a))
  {
    if Possible(w, a) {
      match a {
        case OfServer(e) =>
          ServerStepExtends(w.server, e);
          forall i | 0 <= i < |w.clients| ensures Safe(w.clients[i], Step(w.server, e).net.sent) {
            SafeMonotone(w.clients[i], w.server.net.sent, Step(w.server, e).net.sent);
          }
        case OfClient(i, e) => ClientStepSafe(w.clients[i], w.server.net.sent, e);
      }
    }
  }

  /** In every reachable state each client's pending base is 0 or one some heartbeat carried,
      and its pipeline's base is unset or such a base. */
  lemma {:induction false} BaseTimesSafe(w: World, actions: seq<Action>)
    requires AllSafe(w)
    ensures AllSafe(ActAll(w, actions))
    decreases |actions|
  {
    if actions != [] {
      ActSafe(w, actions[0]);
      BaseTimesSafe(Act(w, actions[0]), actions[1..]);
    }
  }

  /** It holds at the start: closed players, nothing broadcast, nothing pending. */
  lemma InitiallySafe(w: World)
    requires w.server.kind.Server? && w.server.net.sent == []
    requires forall i :: 0 <= i < |w.clients| ==>
               w.clients[i].kind.Client? && !w.clients[i].open && w.clients[i].net.baseTime == 0
    ensures AllSafe(w)
  {}

  // ---------- A server and a client in step ----------

  lemma HeartbeatSays(server: PlayerState)
    requires server.open
    ensures var h := Packets.Rounded(Heartbeat(server));
            h.base == server.pipe.base && h.volume == Decimal.Printed(server.pipe.volume) &&
            (h.mute != 0 <==> server.mute) && StateOf(h.state) == Some(server.state) &&
            h.time == Decimal.Printed(server.GetTime())
  {}

  /** An update that broadcasts sends the heartbeat of the server as the update found it, before a
      waiting seek moves its base or its state. */
  lemma UpdateSaysBefore(s: PlayerState, messages: seq<string>)
    requires s.kind.Server? && s.open && s.net.counter > s.net.frequency
    ensures Update(s, messages).net.sent == s.net.sent + [Packets.Serialize(Heartbeat(s))]
  {
    AdvanceKeeps(CountHeartbeat(s));
    DrainKeeps(ServerBeforeUpdate(s));
  }

  lemma HeartbeatPlausible(server: PlayerState)
    requires server.open && Silent(server) && 0.0 <= server.pipe.volume <= 1.0
    ensures Plausible(Packets.Rounded(Heartbeat(server)))
  {
    Decimal.PrintedInUnit(server.pipe.volume);
  }

  /** A heartbeat whose doubles print out of range is read by no client. */
  lemma UnreadableIgnored(client: PlayerState, p: Packets.Packet)
    requires !Packets.Readable(p)
    ensures OnMessage(client, Packets.Serialize(p)) == client
  {
    Packets.RoundTrip(p, NO_PACKET);
  }

  /** A server may be set to such a volume, for example 1e-310: from then on its heartbeats are
      read by no client. */
  lemma TinyVolumeUnheard(server: PlayerState, client: PlayerState, k: nat)
    requires server.open && k > 308
    ensures var volume := Decimal.Shift(1.0, -(k as int));
            var p := Heartbeat(server.SetVolume(volume));
            0.0 < volume <= 1.0 && !Packets.Readable(p) && OnMessage(client, Packets.Serialize(p)) == client
  {
    Decimal.TinyOutOfRange(k);
    UnreadableIgnored(client, Heartbeat(server.SetVolume(Decimal.Shift(1.0, -(k as int)))));
  }

  /** The time a server shows is a count of nanoseconds on a 64-bit clock. */
  ghost predicate OnClock(s: PlayerState) {
    -WRAP < s.pipe.frozen < WRAP && exists ns :: -WRAP < ns < WRAP && s.time == Seconds(ns)
  }

  /** An undisturbed server at rest in some state, nothing pending nor about to be. */
  ghost predicate AtRest(s: PlayerState, length: real) {
    Undisturbed(s, length) && NoResume(s) && s.pendingSeek < 0.0 && s.state == s.pipe.state == s.pipe.target != Null &&
    OnClock(s)
  }

  lemma TimedOnClock(s: PlayerState)
    requires OnClock(s)
    ensures OnClock(s.Timed()) && Decimal.InRange(Decimal.Printed(s.GetTime()))
  {
    var t := s.Timed();
    if s.open && Position(s.pipe).Some? {
      assert t.time == Seconds(Position(s.pipe).value);
    }
    var ns :| -WRAP < ns < WRAP && t.time == Seconds(ns);
    Decimal.ClockInRange(ns);
    Decimal.ClockInRange(0);
    assert Seconds(0) == 0.0;
  }

  /** What a heartbeat carries, but for the time. */
  ghost predicate ShowsSame(s: PlayerState, t: PlayerState) {
    && t.pipe.base == s.pipe.base && t.pipe.state == s.pipe.state && t.state == s.state
    && SameSound(s, t) && s.pipe.now <= t.pipe.now
  }

  lemma SameHeartbeat(s: PlayerState, t: PlayerState)
    requires s.open && ShowsSame(s, t) && OnClock(t) && Decimal.InRange(Decimal.Printed(s.pipe.volume))
    ensures Says(Packets.Serialize(Heartbeat(t)), Packets.Rounded(Heartbeat(s)))
  {
    TimedOnClock(t);
    Packets.RoundTrip(Heartbeat(t), NO_PACKET);
    Packets.SerializeSplits(Heartbeat(t));
  }

  /** Calm events that leave the sound alone. */
  predicate Still(s: PlayerState, e: Event, length: real) {
    Calm(s, e, length) && !e.DoSetVolume? && !e.DoSetMute? && !e.DoSetFrequency?
  }

  /** Nothing a heartbeat reads has moved. */
  ghost predicate SameReading(s: PlayerState, t: PlayerState) {
    SameSound(s, t) && t.time == s.time && t.pipe.frozen == s.pipe.frozen
  }

  lemma HandleStill(s: PlayerState, length: real)
    requires Undisturbed(s, length) && NoResume(s) && s.pendingSeek < 0.0 && Waiting(s) && s.pipe.state == s.pipe.target
    ensures SameReading(s, HandleFirst(s))
  {
    HandleSmooth(s, length);
    if s.pipe.bus[0].StateChanged? {
      assert HasChange(s.pipe.bus);
    }
  }

  lemma DrainStill(s: PlayerState, length: real)
    requires Undisturbed(s, length) && NoResume(s) && s.pendingSeek < 0.0 && s.pipe.state == s.pipe.target
    ensures SameReading(s, Drain(s))
  {
    var inv := (t: PlayerState) => Smooth(s, t, length) && SameReading(s, t);
    forall t | inv(t) && Waiting(t) ensures inv(HandleFirst(t)) {
      HandleSmooth(t, length);
      HandleStill(t, length);
    }
    DrainInvariant(s, inv);
  }

  lemma CountOnClock(s: PlayerState)
    requires s.open && OnClock(s)
    ensures OnClock(CountHeartbeat(s))
  {
    TimedOnClock(s);
  }

  lemma BeforeUpdateStill(s: PlayerState)
    requires s.open && s.pendingSeek < 0.0 && OnClock(s)
    ensures SameSound(s, ServerBeforeUpdate(s)) && OnClock(ServerBeforeUpdate(s))
  {
    ServerBeforeSameSound(s);
    CountOnClock(s);
  }

  lemma UpdateStill(s: PlayerState, length: real, messages: seq<string>)
    requires AtRest(s, length)
    ensures var t := Update(s, messages);
            AtRest(t, length) && ShowsSame(s, t) &&
            (t.net.sent == s.net.sent || t.net.sent == s.net.sent + [Packets.Serialize(Heartbeat(s))])
  {
    var b := ServerBeforeUpdate(s);
    BeforeUpdateIs(s);
    UpdateIdle(s, length, messages);
    BeforeUpdateStill(s);
    DrainStill(b, length);
    UpdateSends(s, messages);
  }

  lemma ServerBeforeSameSound(s: PlayerState)
    ensures SameSound(s, ServerBeforeUpdate(s))
  {
    CountSameSound(s);
    AdvanceSameSound(CountHeartbeat(s));
  }

  lemma EventStill(s: PlayerState, length: real, e: Event)
    requires AtRest(s, length) && Still(s, e, length) && !e.DoUpdate?
    ensures var t := Step(s, e);
            AtRest(t, length) && ShowsSame(s, t) && t.net.sent == s.net.sent
  {
    CalmSmooth(s, e, length);
    TimedOnClock(s);
  }

  /** A server at rest stays so and says the same in every heartbeat, but for the time. */
  lemma StepStill(s: PlayerState, length: real, e: Event)
    requires AtRest(s, length) && Still(s, e, length)
    ensures var t := Step(s, e);
            AtRest(t, length) && ShowsSame(s, t) &&
            (t.net.sent == s.net.sent || t.net.sent == s.net.sent + [Packets.Serialize(Heartbeat(s))])
  {
    if e.DoUpdate? {
      UpdateStill(s, length, e.messages);
    } else {
      EventStill(s, length, e);
    }
  }

  // ---------- Runs of the system after the server has come to rest ----------

  ghost predicate AllRecent(messages: seq<string>, sent: seq<string>, past: nat) {
    past <= |sent| && forall k :: 0 <= k < |messages| ==> messages[k] in sent[past..]
  }

  /** The server does nothing that changes what it shows; client `i` is given no command, and
      only texts broadcast after the first `past`; the others do as they please. */
  ghost predicate Settled(w: World, i: nat, past: nat, length: real, a: Action) {
    Possible(w, a) &&
    match a
    case OfServer(e) => Still(w.server, e, length)
    case OfClient(j, e) => j == i ==> Passive(e) && (e.DoUpdate? ==> AllRecent(e.messages, w.server.net.sent, past))
  }

  ghost predicate AllSettled(w: World, i: nat, past: nat, length: real, actions: seq<Action>)
    decreases |actions|
  {
    actions == [] ||
    (Settled(w, i, past, length, actions[0]) && AllSettled(Act(w, actions[0]), i, past, length, actions[1..]))
  }

  function ServerEvents(actions: seq<Action>): seq<Event> {
    if actions == [] then []
    else (if actions[0].OfServer? then [actions[0].event] else []) + ServerEvents(actions[1..])
  }

  function ClientEvents(i: nat, actions: seq<Action>): seq<Event> {
    if actions == [] then []
    else
      (if actions[0] == OfClient(i, actions[0].event) then [actions[0].event] else []) +
      ClientEvents(i, actions[1..])
  }

  /** The server is at rest and shows what `h` says, as does every text after the first `past`. */
  ghost predicate InForce(w: World, s: PlayerState, h: Packets.Packet, i: nat, past: nat, length: real) {
    && AtRest(w.server, length) && ShowsSame(s, w.server) && h == Packets.Rounded(Heartbeat(s)) && s.open
    && past <= |w.server.net.sent| && AllSay(w.server.net.sent[past..], h) && i < |w.clients|
    && Decimal.InRange(Decimal.Printed(s.pipe.volume))
  }

  lemma ActSettled(w: World, s: PlayerState, h: Packets.Packet, i: nat, past: nat, length: real, a: Action)
    requires InForce(w, s, h, i, past, length) && Settled(w, i, past, length, a)
    ensures InForce(Act(w, a), s, h, i, past, length)
    ensures a.OfClient? && a.index == i ==> Hears(a.event, h)
  {
    match a {
      case OfServer(e) =>
        StepStill(w.server, length, e);
        SameHeartbeat(s, w.server);
      case OfClient(j, e) =>
    }
  }

  lemma EventsFirst(i: nat, a: Action, rest: seq<Action>)
    ensures ServerEvents([a] + rest) == if a.OfServer? then [a.event] + ServerEvents(rest) else ServerEvents(rest)
    ensures ClientEvents(i, [a] + rest) ==
            if a.OfClient? && a.index == i then [a.event] + ClientEvents(i, rest) else ClientEvents(i, rest)
  {
    assert ([a] + rest)[1..] == rest;
  }

  /** One more action first, on the side it belongs to. */
  lemma RunFirst(w: World, h: Packets.Packet, i: nat, a: Action, rest: seq<Action>)
    requires Possible(w, a) && i < |w.clients| && (a.OfClient? && a.index == i ==> Hears(a.event, h))
    requires AllHear(ClientEvents(i, rest), h)
    ensures Run(Act(w, a).server, ServerEvents(rest)) == Run(w.server, ServerEvents([a] + rest))
    ensures i < |Act(w, a).clients| &&
            Run(Act(w, a).clients[i], ClientEvents(i, rest)) == Run(w.clients[i], ClientEvents(i, [a] + rest))
    ensures AllHear(ClientEvents(i, [a] + rest), h)
  {
    EventsFirst(i, a, rest);
    assert ([a.event] + ServerEvents(rest))[1..] == ServerEvents(rest);
    assert ([a.event] + ClientEvents(i, rest))[1..] == ClientEvents(i, rest);
  }

  /** Each side of the system runs its own events; the client hears nothing but `h`. */
  lemma {:induction false} RunSettled(
    w: World, s: PlayerState, h: Packets.Packet, i: nat, past: nat, length: real, actions: seq<Action>)
    requires InForce(w, s, h, i, past, length) && AllSettled(w, i, past, length, actions)
    ensures var t := ActAll(w, actions);
            InForce(t, s, h, i, past, length) && t.server == Run(w.server, ServerEvents(actions)) &&
            t.clients[i] == Run(w.clients[i], ClientEvents(i, actions)) && AllHear(ClientEvents(i, actions), h)
    decreases |actions|
  {
    if actions != [] {
      var a, rest := actions[0], actions[1..];
      ActSettled(w, s, h, i, past, length, a);
      RunSettled(Act(w, a), s, h, i, past, length, rest);
      RunFirst(w, h, i, a, rest);
      assert [a] + rest == actions;
    }
  }

  /** Nor does the server at rest change its frequency. */
  lemma {:induction false} SettledSteady(
    w: World, i: nat, past: nat, length: real, actions: seq<Action>, f: UInt32)
    requires AllSettled(w, i, past, length, actions)
    ensures AllSteady(ServerEvents(actions), f)
    decreases |actions|
  {
    if actions != [] {
      SettledSteady(Act(w, actions[0]), i, past, length, actions[1..], f);
    }
  }

  /** From the moment the server is at rest and no older heartbeat arrives any more, over a
      network that loses, repeats and reorders the new ones, a client that hears enough of
      them has the server's mute flag, its volume as printed and its state, or is on its way
      there; it has the server's base exactly when that is not 0 or the client was there
      already; and when both play on it they show the same position at every clock reading. */
  lemma InStep(w: World, i: nat, length: real, actions: seq<Action>, clock: ClockTime)
    requires AtRest(w.server, length) && Silent(w.server) && 0.0 <= w.server.pipe.volume <= 1.0
    requires Decimal.InRange(Decimal.Printed(w.server.pipe.volume))
    requires i < |w.clients| && Following(w.clients[i], false)
    requires AllSettled(w, i, |w.server.net.sent|, length, actions)
    requires HeardEnough(w.clients[i], ClientEvents(i, actions))
    ensures i < |ActAll(w, actions).clients|
    ensures var s, c := ActAll(w, actions).server, ActAll(w, actions).clients[i];
            ShowsSame(w.server, s) && c.mute == s.mute && c.pipe.volume == Decimal.Printed(s.pipe.volume) &&
            c.net.baseTime == 0 && c.pipe.target == s.pipe.state &&
            (c.pipe.base == s.pipe.base <==> s.pipe.base != 0 || AtZero(w.clients[i])) &&
            (c.pipe.base == s.pipe.base && c.pipe.state == s.pipe.state == Playing &&
             s.pipe.now <= clock && c.pipe.now <= clock ==>
               Position(Happen(c.pipe, Tick(clock))) == Position(Happen(s.pipe, Tick(clock))))
  {
    var h, past := Packets.Rounded(Heartbeat(w.server)), |w.server.net.sent|;
    var t := ActAll(w, actions);
    HeartbeatSays(w.server);
    HeartbeatPlausible(w.server);
    RunSettled(w, w.server, h, i, past, length, actions);
    Convergence(w.clients[i], h, w.server.state, ClientEvents(i, actions));
    var s, c := t.server.pipe, t.clients[i].pipe;
    if c.base == s.base && c.state == s.state == Playing && s.now <= clock && c.now <= clock {
      EqualPositions(s, c, clock);
    }
  }

  /** Meanwhile the server broadcasts such heartbeats at its frequency. */
  lemma HeartbeatsKeepComing(w: World, i: nat, length: real, actions: seq<Action>)
    requires AtRest(w.server, length) && Decimal.InRange(Decimal.Printed(w.server.pipe.volume)) && i < |w.clients|
    requires AllSettled(w, i, |w.server.net.sent|, length, actions)
    requires w.server.net.counter == 0 && w.server.net.frequency < 0xFFFF_FFFF
    ensures var past, sent := |w.server.net.sent|, ActAll(w, actions).server.net.sent;
            past <= |sent| && AllSay(sent[past..], Packets.Rounded(Heartbeat(w.server))) &&
            |sent| - past == Due(UpdateCount(ServerEvents(actions)), w.server.net.frequency)
  {
    RunSettled(w, w.server, Packets.Rounded(Heartbeat(w.server)), i, |w.server.net.sent|, length, actions);
    SettledSteady(w, i, |w.server.net.sent|, length, actions, w.server.net.frequency);
    HeartbeatCount(w.server, ServerEvents(actions));
  }
}
