/** What calls leave alone, whatever the pipeline answers. */
module Preservation {
  import opened Gst
  import opened Players
  import opened Updates
  import opened Invariants

  /** Changing state, by whatever route, keeps the base time, the clock, the seeks issued,
      the mute and volume, and the server's heartbeat bookkeeping. */
  ghost predicate StateChangeKeeps(s: PlayerState, t: PlayerState) {
    && t.kind == s.kind && t.open == s.open && t.duration == s.duration && t.loop == s.loop
    && t.mute == s.mute && t.saved == s.saved && t.seekingLock == s.seekingLock
    && (s.kind.Server? || t.pendingSeek == s.pendingSeek)
    && t.pipe.base == s.pipe.base && t.pipe.volume == s.pipe.volume
    && t.pipe.now == s.pipe.now && t.pipe.oracle == s.pipe.oracle
    && t.pipe.seeks == s.pipe.seeks && t.pipe.inFlight == s.pipe.inFlight
    && t.net.sent == s.net.sent && t.net.counter == s.net.counter && t.net.frequency == s.net.frequency
    && t.net.baseTime == s.net.baseTime && t.net.clock == s.net.clock
  }

  ghost function KeepingState(s: PlayerState): PlayerState -> bool { t => StateChangeKeeps(s, t) }

  lemma PipelineKeeps(s: PlayerState)
    ensures KeptByPipeline(KeepingState(s))
  {
    var inv := KeepingState(s);
    forall t, to | inv(t) ensures inv(t.Requested(to)) {
      TransitionsKeep(t.pipe, to);
    }
    forall t | inv(t) ensures inv(t.Waited()) && inv(t.QueryState()) {
      TransitionsKeep(t.pipe, t.pipe.target);
    }
  }

  /** State changes keep the base, the clock, the volume and the seeks. */
  lemma TransitionsKeep(p: Pipeline, to: GstState)
    ensures var q := Gst.SetState(p, to).0;
            q == p.(state := q.state, target := q.target, frozen := q.frozen, bus := q.bus, flushed := q.flushed,
                    calls := q.calls)
    ensures var q := Gst.GetState(p);
            q == p.(state := q.state, target := q.target, frozen := q.frozen, bus := q.bus, flushed := q.flushed,
                    calls := q.calls)
  {}

  lemma ArmingKeeps(s: PlayerState)
    ensures KeptByArming(KeepingState(s))
  {}

  lemma RequestsKeep(s: PlayerState)
    ensures KeptByRequests(KeepingState(s))
  {
    PipelineKeeps(s);
    ArmingKeeps(s);
    ArmingInv(KeepingState(s));
  }

  lemma SetStateKeeps(s: PlayerState, to: GstState)
    ensures StateChangeKeeps(s, s.SetState(to))
  {
    RequestsKeep(s);
    SetStateInv(KeepingState(s), s, to);
  }

  lemma StopKeeps(s: PlayerState)
    ensures StateChangeKeeps(s, s.Stop())
  {
    RequestsKeep(s);
    StopInv(KeepingState(s), s);
  }

  lemma StateChangedKeeps(s: PlayerState)
    ensures StateChangeKeeps(s, s.OnStateChanged())
  {
    RequestsKeep(s);
    StateChangedInv(KeepingState(s), s);
  }

  lemma ServerSetTimeKeeps(s: PlayerState, x: real)
    requires s.kind.Server?
    ensures StateChangeKeeps(s, s.ServerSetTime(x))
  {
    RequestsKeep(s);
    assert KeepingState(s)(s.ServerSetTime(x));
  }

  lemma ObeyKeeps(s: PlayerState, code: int)
    ensures StateChangeKeeps(s, Obey(s, code))
  {
    RequestsKeep(s);
    ObeyInv(KeepingState(s), s, code);
  }

  lemma PrerollKeeps(s: PlayerState, to: GstState)
    ensures StateChangeKeeps(s, Preroll(s, to).0)
  {
    RequestsKeep(s);
    PrerollInv(KeepingState(s), s, to);
  }

  /** Handling bus messages keeps the base time, the clock and the heartbeat bookkeeping. */
  ghost predicate BusKeeps(s: PlayerState, t: PlayerState) {
    && t.kind == s.kind && t.open == s.open && t.loop == s.loop
    && t.pipe.base == s.pipe.base && t.pipe.now == s.pipe.now && t.pipe.oracle == s.pipe.oracle
    && t.net.sent == s.net.sent && t.net.counter == s.net.counter && t.net.frequency == s.net.frequency
    && t.net.baseTime == s.net.baseTime && t.net.clock == s.net.clock
  }

  ghost function KeepingTiming(s: PlayerState): PlayerState -> bool { t => BusKeeps(s, t) }

  lemma TimingKeptByPipeline(s: PlayerState)
    ensures KeptByPipeline(KeepingTiming(s))
  {
    var inv := KeepingTiming(s);
    forall t, to | inv(t) ensures inv(t.Requested(to)) {
      TransitionsKeep(t.pipe, to);
    }
    forall t | inv(t) ensures inv(t.Waited()) && inv(t.QueryState()) {
      TransitionsKeep(t.pipe, t.pipe.target);
    }
  }

  lemma TimingKeptByArming(s: PlayerState)
    ensures KeptByArming(KeepingTiming(s)) && KeptBySound(KeepingTiming(s))
  {}

  lemma ReadKeeps(t: PlayerState)
    requires Waiting(t)
    ensures BusKeeps(t, Read(t))
  {}

  lemma BaseSetTimeKeeps(t: PlayerState, x: real)
    ensures BusKeeps(t, t.BaseSetTime(x))
  {}

  lemma TimingKeptByReading(s: PlayerState)
    ensures KeptByReading(KeepingTiming(s))
  {
    var inv := KeepingTiming(s);
    forall t | inv(t) && Waiting(t) ensures inv(Read(t)) {
      ReadKeeps(t);
    }
    forall t, x | inv(t) ensures inv(t.BaseSetTime(x)) {
      BaseSetTimeKeeps(t, x);
    }
  }

  lemma MessagesKeep(s: PlayerState)
    ensures KeptByMessages(KeepingTiming(s))
  {
    TimingKeptByPipeline(s);
    TimingKeptByArming(s);
    ArmingInv(KeepingTiming(s));
    TimingKeptByReading(s);
  }

  lemma TimingKept()
    ensures forall s :: KeptByMessages(KeepingTiming(s)) && KeepingTiming(s)(s)
  {
    forall s ensures KeptByMessages(KeepingTiming(s)) {
      MessagesKeep(s);
    }
  }

  lemma DrainKeeps(s: PlayerState)
    ensures BusKeeps(s, Drain(s)) && !Waiting(Drain(s))
  {
    MessagesKeep(s);
    DrainInv(KeepingTiming(s), s);
  }
}
