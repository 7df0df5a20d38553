/** A server's seek, followed by its clients. */
module Playback {
  import opened Gst
  import opened Players
  import opened Updates
  import opened Invariants
  import opened Runs
  import opened Rebasing
  import opened NetworkSeek
  import opened SeekRuns
  import opened MuteVolume
  import opened ClientSync
  import opened Network
  import Decimal

  // ---------- The time shown ----------

  lemma ReachOnClock(s: PlayerState, p: Pipeline, to: GstState)
    requires OnClock(s) && -WRAP < p.frozen < WRAP
    ensures OnClock(s.(pipe := Reach(p, to)))
  {}

  lemma OnClockKept()
    ensures KeptByMessages(OnClock)
  {
    forall s, to | OnClock(s) ensures OnClock(s.Requested(to)) {
      ReachOnClock(s, Asked(s.pipe), to);
    }
    forall s | OnClock(s) ensures OnClock(s.Waited()) && OnClock(s.QueryState()) && OnClock(s.Timed()) {
      ReachOnClock(s, Asked(s.pipe), s.pipe.target);
      TimedOnClock(s);
    }
  }

  lemma AdvanceOnClock(s: PlayerState)
    requires OnClock(s)
    ensures OnClock(AdvanceSeek(s))
  {
    var base := Rebase(s.pipe.base, s.net.pendingTime, s.pendingSeek);
    OnClockKept();
    assert OnClock(s.Requested(Ready)) && OnClock(s.(pipe := s.pipe.(base := base)).Requested(s.net.pendingState));
  }

  /** The time a server shows stays a count of nanoseconds on its clock, whatever arrives. */
  lemma UpdateOnClock(s: PlayerState, messages: seq<string>)
    requires s.kind.Server? && OnClock(s)
    ensures OnClock(Update(s, messages))
  {
    if s.open {
      CountOnClock(s);
      AdvanceOnClock(CountHeartbeat(s));
    }
    OnClockKept();
    DrainInv(OnClock, ServerBeforeUpdate(s));
  }

  lemma StepOnClock(s: PlayerState, e: Event)
    requires s.kind.Server? && OnClock(s) && !e.DoOpen? && !e.DoClose?
    ensures Step(s, e).kind.Server? && OnClock(Step(s, e))
  {
    match e {
      case DoUpdate(messages) =>
        UpdateSends(s, messages);
        UpdateOnClock(s, messages);
      case Meanwhile(h) => ReachOnClock(s, s.pipe, s.pipe.target);
      case _ =>
        if IsCommand(e) {
          OnClockKept();
          CommandInv(OnClock, s, e);
          CommandKeeps(s, e);
        }
    }
  }

  lemma {:induction false} RunOnClock(s: PlayerState, events: seq<Event>)
    requires s.kind.Server? && OnClock(s) && Unopened(events)
    ensures Run(s, events).kind.Server? && OnClock(Run(s, events))
    decreases |events|
  {
    if events != [] {
      StepOnClock(s, events[0]);
      RunOnClock(Step(s, events[0]), events[1..]);
    }
  }

  // ---------- A seek ----------

  lemma {:induction false} CalmIsUnopened(s: PlayerState, events: seq<Event>, length: real)
    requires AllCalm(s, events, length)
    ensures Unopened(events)
    decreases |events|
  {
    if events != [] {
      CalmIsUnopened(Step(s, events[0]), events[1..], length);
      forall k | 0 <= k < |events| ensures !events[k].DoOpen? && !events[k].DoClose? {
        assert k > 0 ==> events[k] == events[1..][k - 1];
      }
    }
  }

  /** A seek comes to rest in the state it captured, however long the transitions take: once an
      update has asked for READY and no transition is outstanding, two more updates and the time
      to settle and read the bus are enough. */
  lemma SeekRests(s: PlayerState, x: real, length: real, before: seq<Event>, after: seq<Event>)
    requires Seekable(s, length) && OnClock(s) && Unfailing(s.pipe) && PlanOf(s, x).back != Null
    requires AllCalm(s.SetTime(x), before + after, length) && UpdateCount(before) >= 1 && UpdateCount(after) >= 2
    requires var r := Run(s.SetTime(x), before);
             r.pendingSeek >= 0.0 ==> r.pipe.state == r.pipe.target
    requires var t := Run(s.SetTime(x), before + after);
             t.pipe.bus == [] && t.pipe.state == t.pipe.target
    ensures var t := Run(s.SetTime(x), before + after);
            AtRest(t, length) && t.pipe.state == PlanOf(s, x).back && t.net.netSeeks == s.net.netSeeks + [x]
  {
    var a := s.SetTime(x);
    SeekCommitsOnceReady(s, x, length, before, after);
    CalmSeek(s, x, length, before + after);
    SetTimeArms(s, x, length);
    RunWithin(a, PlanOf(s, x), length, 4, Any, before + after);
    OnClockKept();
    SetTimeInv(OnClock, s, x);
    CalmIsUnopened(a, before + after, length);
    RunOnClock(a, before + after);
  }

  /** What clients do does not reach the server. */
  lemma {:induction false} ServerRuns(w: World, actions: seq<Action>)
    ensures ActAll(w, actions).server == Run(w.server, ServerEvents(actions))
    decreases |actions|
  {
    if actions != [] {
      var a, rest := actions[0], ServerEvents(actions[1..]);
      ServerRuns(Act(w, a), actions[1..]);
      assert ([a.event] + rest)[1..] == rest && [] + rest == rest;
    }
  }

  lemma TargetPosition(base: ClockTime, at: ClockTime, target: real, clock: ClockTime)
    requires target >= 0.0 && at <= clock && Reached(base, at, target)
    ensures var b := Rebase(base, at, target);
            -1.0 < (clock - b) as real - (Nanoseconds(target) + (clock - at) as real) < 1.0
  {
    RebaseRight(base, at, target);
  }

  lemma SeekInWorld(w: World, x: real, before: seq<Action>)
    requires w.server.kind.Server? && w.server.open && w.server.duration >= 0.0 && w.server.net.clock
    requires Unopened(ServerEvents(before))
    requires var v := ActAll(Act(w, OfServer(DoSetTime(x))), before).server;
             v.net.netSeeks == w.server.net.netSeeks + [x] && v.pendingSeek < 0.0
    ensures var v := ActAll(Act(w, OfServer(DoSetTime(x))), before).server;
            v.pipe.base == Rebase(w.server.pipe.base, w.server.pipe.now, Clamp(x, 0.0, w.server.duration))
  {
    ServerRuns(Act(w, OfServer(DoSetTime(x))), before);
    TwoPhaseSeek(w.server, x, ServerEvents(before));
  }

  /** A server is asked for a seek and, whatever it, its clients and the network then do, comes to
      rest in PLAYING having made no other. From then on a client that hears enough of its
      heartbeats is on its base, unless that is 0, and on its way to PLAYING; and once it plays it
      shows, at every later clock, the target and the time since the seek was asked for, to less
      than a nanosecond, as the server does. */
  lemma SeekFollowed(
    w: World, x: real, before: seq<Action>, i: nat, length: real, after: seq<Action>, clock: ClockTime)
    requires w.server.kind.Server? && w.server.open && w.server.duration >= 0.0 && w.server.net.clock
    requires Reached(w.server.pipe.base, w.server.pipe.now, Clamp(x, 0.0, w.server.duration))
    requires Unopened(ServerEvents(before)) && w.server.pipe.now <= clock < CLOCK_NONE
    requires var v := ActAll(Act(w, OfServer(DoSetTime(x))), before);
             AtRest(v.server, length) && v.server.pipe.state == Playing && Silent(v.server) &&
             0.0 <= v.server.pipe.volume <= 1.0 && Decimal.InRange(Decimal.Printed(v.server.pipe.volume)) &&
             v.server.net.netSeeks == w.server.net.netSeeks + [x] &&
             i < |v.clients| && Following(v.clients[i], false) &&
             AllSettled(v, i, |v.server.net.sent|, length, after) && HeardEnough(v.clients[i], ClientEvents(i, after))
    ensures i < |ActAll(ActAll(Act(w, OfServer(DoSetTime(x))), before), after).clients|
    ensures var t := ActAll(ActAll(Act(w, OfServer(DoSetTime(x))), before), after);
            var s, c := t.server.pipe, t.clients[i].pipe;
            s.state == Playing && c.target == Playing && (s.base != 0 ==> c.base == s.base) &&
            (c.state == Playing && c.base == s.base && s.now <= clock && c.now <= clock ==>
               var p := Position(Happen(c, Tick(clock)));
               p == Position(Happen(s, Tick(clock))) && p.Some? &&
               var target := Nanoseconds(Clamp(x, 0.0, w.server.duration));
               -1.0 < p.value as real - (target + (clock - w.server.pipe.now) as real) < 1.0)
  {
    var v := ActAll(Act(w, OfServer(DoSetTime(x))), before);
    SeekInWorld(w, x, before);
    InStep(v, i, length, after, clock);
    TargetPosition(w.server.pipe.base, w.server.pipe.now, Clamp(x, 0.0, w.server.duration), clock);
    RebaseRight(w.server.pipe.base, w.server.pipe.now, Clamp(x, 0.0, w.server.duration));
  }
}
