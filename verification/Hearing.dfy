/** How a client acts on single heartbeats (source/nsvr/nsvr_player_client.cpp): which of two it
    follows, when it parks for a new base, and when it has no clock for one. */
module Hearing {
  import opened Options
  import opened Gst
  import opened Players
  import opened Updates
  import opened Preservation
  import opened CachedState
  import opened MuteVolume
  import opened ClientSync
  import Packets = PacketHandler

  /** A text that carries this heartbeat. */
  predicate Carries(m: string, h: Packets.Packet) { m != "" && Packets.Parsed(m, NO_PACKET) == (true, h) }

  /** The base pending after a heartbeat. */
  function Pended(s: PlayerState, base: ClockTime): ClockTime {
    if s.open && s.pipe.base == base then s.net.baseTime else base
  }

  /** A heartbeat leaves the base in use alone and makes any other the pending one. */
  lemma MirrorPends(s: PlayerState, h: Packets.Packet)
    ensures var t := Mirror(s, h);
            t.net.baseTime == Pended(s, h.base) && t.open == s.open && t.pipe.base == s.pipe.base
  {
    FollowedSoundOnly(s, h);
    ObeyKeeps(PendBase(Followed(s, h), h.base), h.state);
  }

  lemma TwoMessages(s: PlayerState, m1: string, m2: string)
    ensures OnMessages(s, [m1, m2]) == OnMessage(OnMessage(s, m1), m2)
  {
    assert [m1, m2][1..] == [m2] && [m2][1..] == [];
    assert OnMessages(s, [m1, m2]) == OnMessages(OnMessage(s, m1), [m2]);
  }

  /** Of two heartbeats found by one update the later decides mute and volume, and the pending
      base unless the client already has the later's: then it is the earlier's. */
  lemma LaterHeartbeatDecides(s: PlayerState, m1: string, m2: string, h1: Packets.Packet, h2: Packets.Packet)
    requires s.open && Silent(s) && Plausible(h1) && Plausible(h2) && Carries(m1, h1) && Carries(m2, h2)
    ensures var t := OnMessages(s, [m1, m2]);
            Follows(t, h2) && t.pipe.base == s.pipe.base &&
            t.net.baseTime ==
              if h2.base != s.pipe.base then h2.base else if h1.base != s.pipe.base then h1.base else s.net.baseTime
  {
    var a := Mirror(s, h1);
    TwoMessages(s, m1, m2);
    MirrorPends(s, h1);
    MirrorPends(a, h2);
    MirrorIsFollowed(s, h1);
    FollowedSilent(s, h1);
    HeartbeatFollowed(a, h2);
  }

  lemma ObeyGoes(s: PlayerState, code: int, to: GstState)
    requires s.kind.Client? && s.open && AllDone(s.pipe) && s.net.baseTime == 0 && StateOf(code) == Some(to)
    ensures var t := Obey(s, code); t.pipe.state == t.pipe.target == to && t.pipe.oracle == s.pipe.oracle
  {
    var e := s.QueryState();
    assert e.pipe.state == e.pipe.target == e.state;
  }

  lemma MirrorGoes(s: PlayerState, h: Packets.Packet, to: GstState)
    requires s.kind.Client? && s.open && AllDone(s.pipe) && Pended(s, h.base) == 0 && StateOf(h.state) == Some(to)
    ensures var t := Mirror(s, h);
            t.pipe.state == t.pipe.target == to && t.pipe.oracle == s.pipe.oracle && t.kind == s.kind
  {
    FollowedSoundOnly(s, h);
    var d := PendBase(Followed(s, h), h.base);
    ObeyGoes(d, h.state, to);
    ObeyKeeps(d, h.state);
  }

  /** With their base in use and none pending, the later decides the state as well. */
  lemma LaterHeartbeatGoes(s: PlayerState, m1: string, m2: string, h1: Packets.Packet, h2: Packets.Packet)
    requires s.kind.Client? && s.open && AllDone(s.pipe) && s.net.baseTime == 0
    requires Carries(m1, h1) && Carries(m2, h2) && h1.base == h2.base == s.pipe.base && StateOf(h1.state).Some?
    ensures StateOf(h2.state).Some? ==> OnMessages(s, [m1, m2]).pipe.state == StateOf(h2.state).value
  {
    TwoMessages(s, m1, m2);
    MirrorPends(s, h1);
    MirrorGoes(s, h1, StateOf(h1.state).value);
    if StateOf(h2.state).Some? {
      MirrorGoes(Mirror(s, h1), h2, StateOf(h2.state).value);
    }
  }

  /** A heartbeat whose state is none sends the client nowhere, whatever the pipeline answers. */
  lemma UnknownStateStays(s: PlayerState, h: Packets.Packet)
    requires StateOf(h.state) == None
    ensures var t := Mirror(s, h);
            t.pipe.target == s.pipe.target && (t.pipe.state == s.pipe.state || t.pipe.state == s.pipe.target)
  {
    FollowedSoundOnly(s, h);
    ObeyStays(PendBase(Followed(s, h), h.base), h.state);
  }

  lemma ObeyStays(s: PlayerState, code: int)
    requires StateOf(code) == None
    ensures var t := Obey(s, code);
            t.pipe.target == s.pipe.target && (t.pipe.state == s.pipe.state || t.pipe.state == s.pipe.target)
  {}

  // ---------- Adopting a base ----------

  /** A client that cannot make the network clock gives up the pending base and is left without
      base or clock. */
  lemma NoClockNoBase(s: PlayerState)
    requires s.kind.Client? && s.open && s.state == Ready && s.net.baseTime != 0
    ensures var t := AdoptBase(s);
            t.net.baseTime == 0 && (t.net.clock <==> Answer(s.pipe) != Failed) &&
            t.pipe.base == (if t.net.clock then s.net.baseTime else CLOCK_NONE) && t.pipe.state == s.pipe.state
  {}

  /** In READY to stay, nothing but the bus and the cache still to change. */
  ghost predicate ParkedOn(t: PlayerState, base: ClockTime) {
    t.kind.Client? && t.open && Eos !in t.pipe.bus && t.net.baseTime == base && t.pipe.state == t.pipe.target == Ready
  }

  lemma DrainParked(s: PlayerState, base: ClockTime)
    requires ParkedOn(s, base) && Cached(s)
    ensures var t := Drain(s); ParkedOn(t, base) && t.state == Ready && t.pipe.base == s.pipe.base
  {
    forall t | ParkedOn(t, base) && Waiting(t) ensures ParkedOn(HandleFirst(t), base) {
    }
    DrainInvariant(s, t => ParkedOn(t, base));
    DrainCached(s);
    DrainKeeps(s);
  }

  lemma PromptParks(s: PlayerState, m: string, h: Packets.Packet)
    requires Following(s, true) && s.state != Ready && Carries(m, h) && h.base != 0 && h.base != s.pipe.base
    ensures var b := ClientBeforeUpdate(s, [m]);
            ParkedOn(b, h.base) && Cached(b) && b.pipe.oracle == s.pipe.oracle
  {
    var a := Mirror(s, h);
    assert [m][1..] == [] && OnMessages(s, [m]) == OnMessages(a, []) == a;
    FollowedSoundOnly(s, h);
    ReachClean(Asked(a.pipe), Ready);
    CachedKept();
    assert Cached(a) && Cached(a.Requested(Ready));
  }

  lemma ParkedAdopts(s: PlayerState)
    requires s.kind.Client? && s.open && s.state == Ready && s.net.baseTime != 0 && s.pipe.bus == []
    requires Answer(s.pipe) != Failed
    ensures var u := Update(s, []); u.pipe.base == s.net.baseTime && u.net.baseTime == 0 && u.net.clock
  {
    NoClockNoBase(s);
    assert OnMessages(s, []) == s;
    DrainStep(AdoptBase(s));
  }

  /** The update that finds a heartbeat with a new base parks a prompt client in READY, and the
      next one adopts the base. */
  lemma PromptAdoption(s: PlayerState, m: string, h: Packets.Packet)
    requires Following(s, true) && s.state != Ready && Carries(m, h) && h.base != 0 && h.base != s.pipe.base
    ensures var t := Update(s, [m]); t.state == t.pipe.state == Ready && t.net.baseTime == h.base
    ensures var u := Update(Update(s, [m]), []); u.pipe.base == h.base && u.net.baseTime == 0 && u.net.clock
  {
    var b := ClientBeforeUpdate(s, [m]);
    PromptParks(s, m, h);
    DrainParked(b, h.base);
    DrainKeeps(b);
    ParkedAdopts(Drain(b));
  }
}
