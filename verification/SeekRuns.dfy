/** A server's network seek in any run (source/nsvr/nsvr_player_server.cpp): whatever is
    commanded, posted or finished late, as long as no other seek is made. */
module SeekRuns {
  import opened Gst
  import opened Players
  import opened Updates
  import opened Invariants
  import opened Preservation
  import opened Runs
  import opened Rebasing
  import opened NetworkSeek

  /** An open server that has made more than `n` seeks, or made `n` and awaits or has applied
      the last of them. */
  ghost predicate Stands(s: PlayerState, n: nat, k: SeekPlan, applied: bool) {
    s.kind.Server? && s.open && |s.net.netSeeks| >= n &&
    (|s.net.netSeeks| == n ==> if applied then Applied(s, k) else Awaits(s, k))
  }

  ghost function Standing(n: nat, k: SeekPlan, applied: bool): PlayerState -> bool { s => Stands(s, n, k, applied) }

  lemma StandingKeptByPipeline(n: nat, k: SeekPlan, applied: bool)
    ensures KeptByPipeline(Standing(n, k, applied))
  {
    var inv := Standing(n, k, applied);
    forall s, to | inv(s) ensures inv(s.Requested(to)) {
      TransitionsKeep(s.pipe, to);
    }
    forall s | inv(s) ensures inv(s.Waited()) && inv(s.QueryState()) {
      TransitionsKeep(s.pipe, s.pipe.target);
    }
  }

  lemma StandingKeptBySound(n: nat, k: SeekPlan, applied: bool)
    ensures KeptBySound(Standing(n, k, applied))
  {}

  lemma StandingKeptByNotes(n: nat, k: SeekPlan, applied: bool)
    ensures KeptByNotes(Standing(n, k, applied)) && KeptByReading(Standing(n, k, applied))
  {}

  lemma StandingKept(n: nat, k: SeekPlan, applied: bool)
    ensures KeptByMessages(Standing(n, k, applied))
  {
    StandingKeptByPipeline(n, k, applied);
    StandingKeptBySound(n, k, applied);
    StandingKeptByNotes(n, k, applied);
  }

  /** The bus loop, and all that comes before it but the seek's own phases. */
  lemma DrainStands(s: PlayerState, n: nat, k: SeekPlan, applied: bool)
    requires Stands(s, n, k, applied)
    ensures Stands(Drain(s), n, k, applied)
  {
    StandingKept(n, k, applied);
    DrainInv(Standing(n, k, applied), s);
  }

  lemma AdvanceStands(s: PlayerState, n: nat, k: SeekPlan, applied: bool)
    requires Stands(s, n, k, applied)
    ensures Stands(AdvanceSeek(s), n, k, applied || s.state == Ready)
  {}

  lemma UpdateStands(s: PlayerState, n: nat, k: SeekPlan, applied: bool, messages: seq<string>)
    requires Stands(s, n, k, applied)
    ensures Stands(Update(s, messages), n, k, applied || s.state == Ready)
  {
    BeforeUpdateIs(s);
    AdvanceStands(s, n, k, applied);
    DrainStands(ServerBeforeUpdate(s), n, k, applied || s.state == Ready);
  }

  lemma StepStands(s: PlayerState, n: nat, k: SeekPlan, applied: bool, e: Event)
    requires Stands(s, n, k, applied) && !e.DoOpen? && !e.DoClose?
    ensures Stands(Step(s, e), n, k, applied || (e.DoUpdate? && s.state == Ready))
  {
    if e.DoUpdate? {
      UpdateStands(s, n, k, applied, e.messages);
    } else if IsCommand(e) {
      StandingKept(n, k, applied);
      CommandInv(Standing(n, k, applied), s, e);
    }
  }

  /** An open server that has made at least `n` seeks. */
  ghost predicate Sought(s: PlayerState, n: nat) { s.kind.Server? && s.open && |s.net.netSeeks| >= n }

  ghost function HavingSought(n: nat): PlayerState -> bool { s => Sought(s, n) }

  lemma SoughtKept(n: nat)
    ensures KeptByMessages(HavingSought(n))
  {}

  lemma UpdateSought(s: PlayerState, n: nat, messages: seq<string>)
    requires Sought(s, n)
    ensures Sought(Update(s, messages), n)
  {
    BeforeUpdateIs(s);
    SoughtKept(n);
    DrainInv(HavingSought(n), ServerBeforeUpdate(s));
  }

  /** A seek made stays made. */
  lemma StepSought(s: PlayerState, n: nat, e: Event)
    requires Sought(s, n) && !e.DoOpen? && !e.DoClose?
    ensures Sought(Step(s, e), n)
  {
    if e.DoUpdate? {
      UpdateSought(s, n, e.messages);
    } else if IsCommand(e) {
      SoughtKept(n);
      CommandInv(HavingSought(n), s, e);
    }
  }

  /** Some update of the run finds the cache saying READY. */
  ghost predicate FindsReady(s: PlayerState, events: seq<Event>)
    decreases |events|
  {
    events != [] && ((events[0].DoUpdate? && s.state == Ready) || FindsReady(Step(s, events[0]), events[1..]))
  }

  predicate Unopened(events: seq<Event>) { forall k :: 0 <= k < |events| ==> !events[k].DoOpen? && !events[k].DoClose? }

  lemma {:induction false} RunStands(s: PlayerState, n: nat, k: SeekPlan, applied: bool, events: seq<Event>)
    requires Stands(s, n, k, applied) && Unopened(events)
    ensures Stands(Run(s, events), n, k, applied || FindsReady(s, events))
    decreases |events|
  {
    if events != [] {
      StepStands(s, n, k, applied, events[0]);
      RunStands(Step(s, events[0]), n, k, applied || (events[0].DoUpdate? && s.state == Ready), events[1..]);
    }
  }

  /** In every run in which no other seek is made, whatever is commanded and whatever the
      pipeline does: once an update has found the cache saying READY the seek has been applied,
      from whatever base, and its three fields are cleared; until then it waits as planned. */
  lemma TwoPhaseSeek(s: PlayerState, x: real, events: seq<Event>)
    requires s.kind.Server? && s.open && s.duration >= 0.0 && Unopened(events)
    requires Run(s.SetTime(x), events).net.netSeeks == s.net.netSeeks + [x]
    ensures var k, t := PlanOf(s, x), Run(s.SetTime(x), events);
            if FindsReady(s.SetTime(x), events) then Applied(t, k) else Awaits(t, k)
  {
    RunStands(s.SetTime(x), |s.net.netSeeks| + 1, PlanOf(s, x), false, events);
  }

  /** A seek that has been applied leaves a playing server at the clamped target plus the time
      since the request, to less than a nanosecond and whatever the base was, exactly when the
      clock had by then run for the target. */
  lemma SeekPosition(s: PlayerState, x: real, events: seq<Event>)
    requires s.kind.Server? && s.open && s.duration >= 0.0 && s.net.clock && s.pipe.now < CLOCK_NONE
    requires Unopened(events) && Run(s.SetTime(x), events).net.netSeeks == s.net.netSeeks + [x]
    requires Run(s.SetTime(x), events).pendingSeek < 0.0 && Run(s.SetTime(x), events).pipe.state == Playing
    ensures var t, target := Run(s.SetTime(x), events), Clamp(x, 0.0, s.duration);
            Reached(s.pipe.base, s.pipe.now, target) <==>
              Position(t.pipe).Some? &&
              -1.0 < Position(t.pipe).value as real - (Nanoseconds(target) + (t.pipe.now - s.pipe.now) as real) < 1.0
  {
    TwoPhaseSeek(s, x, events);
    RebaseRight(s.pipe.base, s.pipe.now, Clamp(x, 0.0, s.duration));
  }

  /** The plan of a seek that waits. */
  function PlanIn(s: PlayerState): SeekPlan {
    SeekPlan(s.pendingSeek, s.net.pendingTime, s.pipe.base, s.net.pendingState)
  }

  /** An update of a server with a seek waiting, unless it makes another: it applies the seek
      exactly when it finds the cache saying READY, and then asks for the captured state. */
  lemma CommitsExactly(s: PlayerState, messages: seq<string>)
    requires s.kind.Server? && s.open && s.pendingSeek >= 0.0
    requires |Update(s, messages).net.netSeeks| <= |s.net.netSeeks|
    ensures var k, t := PlanIn(s), Update(s, messages);
            (Applied(t, k) <==> s.state == Ready) && (Awaits(t, k) <==> s.state != Ready)
    ensures Answer(s.pipe) != Failed ==>
              ServerBeforeUpdate(s).pipe.target == if s.state == Ready then s.net.pendingState else Ready
  {
    BeforeUpdateIs(s);
    UpdateStands(s, |s.net.netSeeks|, PlanIn(s), false, messages);
  }
}
