/** The cached state and the pipeline's own (source/nsvr/nsvr_player.cpp). */
module CachedState {
  import opened Gst
  import opened Players
  import opened Updates
  import opened Invariants
  import opened Runs

  /** The state the cache will hold once the bus is drained. */
  function Newest(bus: seq<Message>, cached: GstState): GstState {
    if bus == [] then cached
    else Newest(bus[1..], if bus[0].StateChanged? then bus[0].after else cached)
  }

  lemma {:induction false} NewestConcat(a: seq<Message>, b: seq<Message>, cached: GstState)
    ensures Newest(a + b, cached) == Newest(b, Newest(a, cached))
  {
    if a == [] {
      assert a + b == b;
    } else {
      assert (a + b)[1..] == a[1..] + b;
      NewestConcat(a[1..], b, if a[0].StateChanged? then a[0].after else cached);
    }
  }

  lemma {:induction false} NewestOfLast(bus: seq<Message>, cached: GstState)
    requires bus != [] && bus[|bus| - 1].StateChanged?
    ensures Newest(bus, cached) == bus[|bus| - 1].after
  {
    if |bus| > 1 {
      NewestOfLast(bus[1..], if bus[0].StateChanged? then bus[0].after else cached);
    }
  }

  /** Writing the newest state into the cache early changes nothing. */
  lemma {:induction false} NewestEarly(bus: seq<Message>, cached: GstState)
    ensures Newest(bus, Newest(bus, cached)) == Newest(bus, cached)
  {
    if bus != [] {
      var next := if bus[0].StateChanged? then bus[0].after else cached;
      NewestEarly(bus[1..], next);
      if !bus[0].StateChanged? {
        assert next == cached;
      }
    }
  }

  ghost predicate Tracks(p: Pipeline, cached: GstState) {
    p.state != Null ==> Newest(p.bus, cached) == p.state
  }

  /** Outside NULL, the newest state change queued, or the cache when there is none, is the
      pipeline's state. */
  ghost predicate Cached(s: PlayerState) { s.open ==> Tracks(s.pipe, s.state) }

  lemma ReachTracks(p: Pipeline, to: GstState, cached: GstState)
    requires Tracks(p, cached)
    ensures Tracks(Reach(p, to), cached)
  {
    if to != Null {
      PathShape(p.state, to);
      NewestConcat(p.bus, Path(p.state, to), cached);
      if p.state != to {
        NewestOfLast(Path(p.state, to), Newest(p.bus, cached));
      } else {
        assert p.bus + Path(p.state, to) == p.bus;
      }
    }
  }

  lemma QueryCached(s: PlayerState)
    requires Cached(s)
    ensures Cached(s.QueryState())
  {
    if s.open {
      var p := Gst.GetState(s.pipe);
      ReachTracks(Asked(s.pipe), s.pipe.target, s.state);
      NewestEarly(p.bus, s.state);
    }
  }

  lemma PipeSetStateTracks(p: Pipeline, to: GstState, cached: GstState)
    requires Tracks(p, cached)
    ensures Tracks(Gst.SetState(p, to).0, cached)
  {
    ReachTracks(Asked(p), to, cached);
  }

  lemma CachedKeptByPipeline()
    ensures KeptByPipeline(Cached)
  {
    forall s, to | Cached(s) ensures Cached(s.Requested(to)) {
      if s.open {
        PipeSetStateTracks(s.pipe, to, s.state);
      }
    }
    forall s | Cached(s) ensures Cached(s.Waited()) && Cached(s.QueryState()) {
      QueryCached(s);
      if s.open {
        ReachTracks(Asked(s.pipe), s.pipe.target, s.state);
      }
    }
  }

  lemma CachedKept()
    ensures KeptByMessages(Cached) && KeptByHeartbeats(Cached) && KeptByOpening(Cached)
  {
    CachedKeptByPipeline();
    ArmingInv(Cached);
  }

  lemma SetStateCached(s: PlayerState, to: GstState)
    requires Cached(s)
    ensures Cached(s.SetState(to))
  {
    CachedKept();
    SetStateInv(Cached, s, to);
  }

  lemma DrainCached(s: PlayerState)
    requires Cached(s)
    ensures Cached(Drain(s))
  {
    CachedKept();
    DrainInv(Cached, s);
  }

  lemma ServerCached(s: PlayerState)
    requires Cached(s)
    ensures Cached(ServerBeforeUpdate(s))
  {
    var t := CountHeartbeat(s);
    assert Cached(t);
    if t.open {
      PipeSetStateTracks(t.pipe, Ready, t.state);
      var base := Rebase(t.pipe.base, t.net.pendingTime, t.pendingSeek);
      PipeSetStateTracks(t.pipe.(base := base), t.net.pendingState, t.state);
    }
  }

  lemma AdoptCached(s: PlayerState)
    requires Cached(s)
    ensures Cached(AdoptBase(s))
  {
    if s.open {
      PipeSetStateTracks(s.pipe, Ready, s.state);
    }
  }

  lemma ClientCached(s: PlayerState, messages: seq<string>)
    requires Cached(s)
    ensures Cached(ClientBeforeUpdate(s, messages))
  {
    CachedKept();
    MessagesInv(Cached, s, messages);
    AdoptCached(OnMessages(s, messages));
  }

  /** The pipeline itself reports its state changes; nobody forges them. */
  predicate Honest(e: Event) {
    !(e.Meanwhile? && e.happening.Post? && e.happening.message.StateChanged?)
  }

  lemma HappenCached(s: PlayerState, e: Event)
    requires e.Meanwhile? && Honest(e) && Cached(s)
    ensures Cached(Step(s, e))
  {
    if s.open {
      match e.happening {
        case Tick(_) =>
        case Settle => ReachTracks(s.pipe, s.pipe.target, s.state);
        case SeekDone => NewestConcat(s.pipe.bus, [AsyncDone], s.state);
        case Post(m) => NewestConcat(s.pipe.bus, [m], s.state);
      }
    }
  }

  lemma StepCached(s: PlayerState, e: Event)
    requires Honest(e) && Cached(s)
    ensures Cached(Step(s, e))
  {
    match e {
      case DoUpdate(messages) =>
        ServerCached(s);
        ClientCached(s, messages);
        DrainCached(match s.kind case Plain => s case Server => ServerBeforeUpdate(s)
                    case Client => ClientBeforeUpdate(s, messages));
      case DoOpen(media) => CachedKept(); OpenInv(Cached, s, media);
      case Meanwhile(h) => HappenCached(s, e);
      case _ =>
        if IsCommand(e) {
          CachedKept();
          CommandInv(Cached, s, e);
        }
    }
  }

  lemma {:induction false} RunCached(s: PlayerState, events: seq<Event>)
    requires Cached(s) && forall k :: 0 <= k < |events| ==> Honest(events[k])
    ensures Cached(Run(s, events))
    decreases |events|
  {
    if events != [] {
      StepCached(s, events[0]);
      RunCached(Step(s, events[0]), events[1..]);
    }
  }

  /** In every run from a closed player, whatever requests succeed, fail or finish late: with
      a drained bus and the pipeline not in NULL, the cache is right. */
  lemma CacheRightWhenDrained(s: PlayerState, events: seq<Event>)
    requires !s.open && forall k :: 0 <= k < |events| ==> Honest(events[k])
    ensures var t := Run(s, events);
            t.open && t.pipe.bus == [] && t.pipe.state != Null ==> t.state == t.pipe.state
  {
    RunCached(s, events);
  }

  /** NULL flushes the bus, so nothing tells a plain player or a client: the cache is right
      after a completed setState(NULL) exactly when it already said NULL. A server asks. */
  lemma NullIsSilent(s: PlayerState)
    requires s.open && Answer(s.pipe) == Done
    ensures var t := s.SetState(Null);
            t.pipe.state == Null && t.pipe.bus == [] &&
            (t.state == t.pipe.state <==> s.kind.Server? || s.state == Null)
  {}

  /** stop() leaves NULL again as soon as READY is reached. */
  lemma StopLeavesNull(s: PlayerState)
    requires s.open && AllDone(s.pipe)
    ensures s.Stop().pipe.state == Ready && Newest(s.Stop().pipe.bus, s.Stop().state) == Ready
  {
    var t := s.SetState(Null);
    assert t.pipe.state == Null && t.pipe.bus == [] && t.pipe.target == Null;
    assert Tracks(t.pipe, t.state);
    assert Cached(t);
    SetStateCached(t, Ready);
  }
}
