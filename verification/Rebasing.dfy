/** The arithmetic of a committed seek, and the range base times stay in
    (source/nsvr/nsvr_player_server.cpp). */
module Rebasing {
  import opened Gst
  import opened Players
  import opened Updates
  import opened Invariants
  import opened Preservation
  import opened Runs

  function Nanoseconds(seconds: real): real { seconds * 1000000000.0 }

  /** At clock `at` a pipeline on this base plays the seek target, to less than 1 ns. */
  predicate PlaysTarget(base: ClockTime, at: ClockTime, seek: real) {
    -1.0 < (at - base) as real - Nanoseconds(seek) < 1.0
  }

  function Ceiling(x: real): int { -(-x).Floor }

  /** The clock had run for the seek target, up to less than a nanosecond: a base that is
      ahead of the clock wraps the subtraction, and then the cast rounds the other way. */
  predicate Reached(base: ClockTime, at: ClockTime, seek: real) {
    (if base <= at then Nanoseconds(seek).Floor else Ceiling(Nanoseconds(seek))) <= at
  }

  /** From any base, committing a seek plays the target at the clock of the request, to less
      than a nanosecond, exactly when that clock had run for the target. */
  lemma RebaseRight(base: ClockTime, at: ClockTime, seek: real)
    requires seek >= 0.0
    ensures var b := Rebase(base, at, seek);
            (PlaysTarget(b, at, seek) <==> Reached(base, at, seek)) && (Reached(base, at, seek) ==> b <= at)
  {
    if base <= at {
      RebaseBehind(base, at, seek);
    } else {
      RebaseAhead(base, at, seek);
    }
  }

  lemma RebaseBehind(base: ClockTime, at: ClockTime, seek: real)
    requires seek >= 0.0 && base <= at
    ensures var b := Rebase(base, at, seek);
            (PlaysTarget(b, at, seek) <==> Reached(base, at, seek)) && (Reached(base, at, seek) ==> b <= at)
  {
    var x := (at - base) as real - Nanoseconds(seek);
    assert (at - base) % WRAP == at - base;
    if Nanoseconds(seek).Floor <= at {
      TruncClose(x);
      assert Trunc(x) <= at - base;
      assert 0 <= base + Trunc(x) <= at by {
        if x < 0.0 {
          assert Trunc(x) as real >= x;
        }
      }
    }
  }

  lemma RebaseAhead(base: ClockTime, at: ClockTime, seek: real)
    requires seek >= 0.0 && base > at
    ensures var b := Rebase(base, at, seek);
            (PlaysTarget(b, at, seek) <==> Reached(base, at, seek)) && (Reached(base, at, seek) ==> b <= at)
  {
    var ns := Nanoseconds(seek);
    var x := (at - base + WRAP) as real - ns;
    assert (at - base) % WRAP == at - base + WRAP;
    if x >= 0.0 {
      assert Trunc(x) == at - base + WRAP - Ceiling(ns);
      Wrapped(at + WRAP - Ceiling(ns));
    } else {
      assert Trunc(x) == at - base + WRAP - ns.Floor;
      assert ns.Floor > at;
      FarTarget(base, at, seek);
    }
  }

  lemma Wrapped(b: int)
    requires 0 <= b < 2 * WRAP
    ensures b % WRAP == if b < WRAP then b else b - WRAP
  {}

  /** A target further than the whole range of the clock is not reached by wrapping. */
  lemma FarTarget(base: ClockTime, at: ClockTime, seek: real)
    requires Nanoseconds(seek).Floor > at
    ensures !PlaysTarget((at + WRAP - Nanoseconds(seek).Floor) % WRAP, at, seek)
  {
    var f := Nanoseconds(seek).Floor;
    var b := (at + WRAP - f) % WRAP;
    assert at - b != f && at - b != f + 1;
  }

  lemma TruncClose(x: real)
    ensures -1.0 < x - Trunc(x) as real < 1.0
    ensures if x >= 0.0 then 0.0 <= Trunc(x) as real <= x else x <= Trunc(x) as real <= 0.0
  {}

  /** A target in whole nanoseconds is met exactly, from any base. */
  lemma RebaseExact(base: ClockTime, at: ClockTime, ns: nat)
    requires ns <= at
    ensures Rebase(base, at, Seconds(ns)) == at - ns
  {
    assert Nanoseconds(Seconds(ns)) == ns as real;
    RebaseRight(base, at, Seconds(ns));
    var b := Rebase(base, at, Seconds(ns));
    assert -1.0 < (at - b - ns) as real < 1.0;
  }

  /** A clock that has not run for the target's length wraps: the base lands in the future. */
  lemma EarlySeekWraps()
    ensures Rebase(0, 0, 1.0) == WRAP - 1000000000
  {
    assert Trunc(-1000000000.0) == -1000000000;
  }

  // ---------- Every reachable base ----------

  /** So many seconds have passed on the clock. */
  predicate Passed(seconds: real, clock: ClockTime) {
    0.0 <= seconds && Nanoseconds(seconds) <= clock as real
  }

  ghost predicate DurationsPassed(p: Pipeline) {
    forall k :: 0 <= k < |p.bus| && p.bus[k].DurationChanged? ==> Passed(p.bus[k].seconds, p.now)
  }

  /** The base is not ahead of the clock, nor of the clock a pending seek was asked at. */
  ghost predicate Anchored(s: PlayerState) {
    && s.kind.Server? && s.open && s.net.clock && s.pipe.base <= s.pipe.now
    && Passed(s.duration, s.pipe.now) && DurationsPassed(s.pipe)
    && (s.pendingSeek >= 0.0 ==>
          s.pipe.base <= s.net.pendingTime <= s.pipe.now && Passed(s.pendingSeek, s.net.pendingTime))
  }

  lemma ReachAnchored(s: PlayerState, p: Pipeline, to: GstState)
    requires Anchored(s) && p.base == s.pipe.base && p.now == s.pipe.now && p.bus == s.pipe.bus
    ensures Anchored(s.(pipe := Reach(p, to)))
  {
    PathShape(p.state, to);
  }

  lemma AnchoredKeptByPipeline()
    ensures KeptByPipeline(Anchored)
  {
    forall s, to | Anchored(s) ensures Anchored(s.Requested(to)) {
      ReachAnchored(s, Asked(s.pipe), to);
    }
    forall s | Anchored(s) ensures Anchored(s.Waited()) && Anchored(s.QueryState()) {
      ReachAnchored(s, Asked(s.pipe), s.pipe.target);
    }
  }

  lemma AnchoredKept()
    ensures KeptByMessages(Anchored)
  {
    AnchoredKeptByPipeline();
    AnchoredKeptByArming();
    ArmingInv(Anchored);
  }

  lemma AnchoredKeptByArming()
    ensures KeptByArming(Anchored) && KeptBySound(Anchored)
  {}

  lemma CommitAnchored(s: PlayerState)
    requires Anchored(s) && s.pendingSeek >= 0.0
    ensures Anchored(CommitSeek(s))
  {
    RebaseRight(s.pipe.base, s.net.pendingTime, s.pendingSeek);
    var b := s.(
      pipe := s.pipe.(base := Rebase(s.pipe.base, s.net.pendingTime, s.pendingSeek)),
      pendingSeek := -1.0, net := s.net.(pendingState := Null, pendingTime := CLOCK_NONE));
    ReachAnchored(b, Asked(b.pipe), s.net.pendingState);
  }

  lemma BeforeUpdateAnchored(s: PlayerState)
    requires Anchored(s)
    ensures Anchored(ServerBeforeUpdate(s))
  {
    AdvanceAnchored(CountHeartbeat(s));
  }

  lemma AdvanceAnchored(s: PlayerState)
    requires Anchored(s)
    ensures Anchored(AdvanceSeek(s))
  {
    if s.pendingSeek >= 0.0 {
      ReachAnchored(s, Asked(s.pipe), Ready);
      CommitAnchored(s);
    }
  }

  lemma UpdateAnchored(s: PlayerState, messages: seq<string>)
    requires Anchored(s)
    ensures Anchored(Update(s, messages))
  {
    BeforeUpdateAnchored(s);
    AnchoredKept();
    DrainInv(Anchored, ServerBeforeUpdate(s));
  }

  /** Events of an open server; a duration is only announced once the clock has run for it. */
  predicate Timely(s: PlayerState, e: Event) {
    !e.DoOpen? && !e.DoClose? &&
    (e.Meanwhile? && e.happening.Post? && e.happening.message.DurationChanged? ==>
       Passed(e.happening.message.seconds, s.pipe.now))
  }

  ghost predicate AllTimely(s: PlayerState, events: seq<Event>)
    decreases |events|
  {
    events == [] || (Timely(s, events[0]) && AllTimely(Step(s, events[0]), events[1..]))
  }

  lemma HappenAnchored(s: PlayerState, e: Event)
    requires Anchored(s) && Timely(s, e) && e.Meanwhile?
    ensures Anchored(Step(s, e))
  {
    if e.happening.Settle? {
      ReachAnchored(s, s.pipe, s.pipe.target);
    }
  }

  lemma StepAnchored(s: PlayerState, e: Event)
    requires Anchored(s) && Timely(s, e)
    ensures Anchored(Step(s, e))
  {
    match e {
      case DoUpdate(messages) => UpdateAnchored(s, messages);
      case Meanwhile(_) => HappenAnchored(s, e);
      case _ =>
        if IsCommand(e) {
          AnchoredKept();
          CommandInv(Anchored, s, e);
        }
    }
  }

  /** With a monotone clock that has run for at least the media duration, every reachable
      base lies between 0 and the clock, and no pending seek makes the subtraction wrap. */
  lemma {:induction false} BaseInRange(s: PlayerState, events: seq<Event>)
    requires Anchored(s) && AllTimely(s, events)
    ensures var t := Run(s, events);
            0 <= t.pipe.base <= t.pipe.now && (t.pendingSeek >= 0.0 ==> t.pipe.base <= t.net.pendingTime)
    ensures Anchored(Run(s, events))
    decreases |events|
  {
    if events != [] {
      StepAnchored(s, events[0]);
      BaseInRange(Step(s, events[0]), events[1..]);
    }
  }

  /** Opening a medium shorter than the clock, however long it takes, gives such a server
      exactly when it could provide its clock. */
  lemma OpenAnchors(s: PlayerState, seconds: real)
    requires s.kind.Server? && Passed(seconds, s.pipe.now) && s.pipe.now < CLOCK_NONE
    requires Open(s, Playable(seconds)).1
    ensures var t := Open(s, Playable(seconds)).0;
            Anchored(t) <==> t.pipe.base != CLOCK_NONE
  {
    StopKeeps(ClearClock(s));
    var c := Close(s);
    assert c.kind == s.kind && c.pipe.now == s.pipe.now;
    var l := Install(c);
    PrerollKeeps(l, Ready);
    var r := Preroll(l, Ready).0;
    PrerollKeeps(r, Paused);
    if l.pipe.base != CLOCK_NONE {
      assert Anchored(l);
      AnchoredKept();
      PrerollInv(Anchored, l, Ready);
      PrerollInv(Anchored, r, Paused);
    }
  }
}
