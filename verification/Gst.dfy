/** The part of a GStreamer pipeline the players rely on: element states, the base time, the
    volume and the message bus. What the library does not decide itself, whether a request
    succeeds at once, later or not at all, is read from an oracle, one reply per request. */
module Gst {
  import opened Options

  datatype GstState = Null | Ready | Paused | Playing {
    function Code(): (c: nat)
      ensures 1 <= c <= 4
    {
      match this case Null => 1 case Ready => 2 case Paused => 3 case Playing => 4
    }
  }

  function StateOf(code: int): Option<GstState> {
    if code == 1 then Some(Null) else if code == 2 then Some(Ready)
    else if code == 3 then Some(Paused) else if code == 4 then Some(Playing) else None
  }

  type ClockTime = t: int | 0 <= t < 0x1_0000_0000_0000_0000

  const WRAP := 0x1_0000_0000_0000_0000
  const CLOCK_NONE: ClockTime := 0xFFFF_FFFF_FFFF_FFFF

  datatype Message =
    | StateChanged(before: GstState, after: GstState)
    | AsyncDone
    | DurationChanged(seconds: real)
    | Eos
    | Other

  datatype Reply = Done | Async | Failed

  /** `target` differs from `state` while a transition is under way. `seeks` logs the flushing
      seeks issued, in nanoseconds; `inFlight` counts those not yet completed and `flushed`
      the completions discarded unread. */
  datatype Pipeline = Pipeline(
    state: GstState,
    target: GstState,
    base: ClockTime,
    frozen: int,
    volume: real,
    bus: seq<Message>,
    seeks: seq<int>,
    inFlight: nat,
    flushed: nat,
    now: ClockTime,
    oracle: nat -> Reply,
    calls: nat)

  /** The single transitions between two states. */
  function Path(from: GstState, to: GstState): seq<Message>
    decreases if from.Code() < to.Code() then to.Code() - from.Code() else from.Code() - to.Code()
  {
    if from == to then []
    else
      var next :=
        match from
        case Null => Ready
        case Ready => if to == Null then Null else Paused
        case Paused => if to == Playing then Playing else Ready
        case Playing => Paused;
      [StateChanged(from, next)] + Path(next, to)
  }

  /** Seek completions queued on the bus. */
  function Completions(bus: seq<Message>): nat {
    if bus == [] then 0 else (if bus[0].AsyncDone? then 1 else 0) + Completions(bus[1..])
  }

  /** Nanoseconds, when the pipeline can tell. */
  function Position(p: Pipeline): Option<int> {
    if p.state == Playing && p.base != CLOCK_NONE then Some(p.now - p.base)
    else if p.state == Paused then Some(p.frozen)
    else None
  }

  /** A completed transition: one message for each step of it. Entering NULL flushes the bus. */
  function Reach(p: Pipeline, to: GstState): Pipeline {
    p.(
      state := to,
      target := to,
      frozen := if p.state == Playing then p.now - p.base else if p.state == Paused then p.frozen else 0,
      bus := if to == Null then [] else p.bus + Path(p.state, to),
      flushed := if to == Null then p.flushed + Completions(p.bus) else p.flushed)
  }

  function Answer(p: Pipeline): Reply { p.oracle(p.calls) }

  function Asked(p: Pipeline): Pipeline { p.(calls := p.calls + 1) }

  /** gst_element_set_state. */
  function SetState(p: Pipeline, to: GstState): (Pipeline, Reply) {
    match Answer(p)
    case Done => (Reach(Asked(p), to), Done)
    case Async => (Asked(p).(target := to), Async)
    case Failed => (Asked(p), Failed)
  }

  /** gst_element_get_state with a timeout: waits for a transition under way, which may
      complete in time. */
  function GetState(p: Pipeline): Pipeline {
    if p.target == p.state then p
    else if Answer(p) == Done then Reach(Asked(p), p.target)
    else Asked(p)
  }

  /** gst_element_seek_simple. */
  function Seek(p: Pipeline, ns: int): (Pipeline, bool) {
    if Answer(p) == Failed then (Asked(p), false)
    else (Asked(p).(seeks := p.seeks + [ns], inFlight := p.inFlight + 1), true)
  }

  function Fresh(now: ClockTime, oracle: nat -> Reply, calls: nat): Pipeline {
    Pipeline(Null, Null, CLOCK_NONE, 0, 1.0, [], [], 0, 0, now, oracle, calls)
  }

  // ---------- What happens to a pipeline between two calls ----------

  datatype Happening = Tick(to: ClockTime) | Settle | SeekDone | Post(message: Message)

  /** Time passes, a transition or a seek completes, or an element posts a message. */
  function Happen(p: Pipeline, h: Happening): Pipeline {
    match h
    case Tick(t) => if p.now <= t then p.(now := t) else p
    case Settle => if p.target == p.state then p else Reach(p, p.target)
    case SeekDone => if p.inFlight == 0 then p else p.(inFlight := p.inFlight - 1, bus := p.bus + [AsyncDone])
    case Post(m) => p.(bus := p.bus + [m])
  }

  /** Every request succeeds at once; none fails. */
  ghost predicate AllDone(p: Pipeline) { forall n :: p.oracle(n) == Done }

  ghost predicate Unfailing(p: Pipeline) { forall n :: p.oracle(n) != Failed }

  // ---------- The bus ----------

  function EosCount(bus: seq<Message>): nat {
    if bus == [] then 0 else (if bus[0].Eos? then 1 else 0) + EosCount(bus[1..])
  }

  lemma {:induction false} EosCountConcat(a: seq<Message>, b: seq<Message>)
    ensures EosCount(a + b) == EosCount(a) + EosCount(b)
  {
    if a == [] {
      assert a + b == b;
    } else {
      assert (a + b)[1..] == a[1..] + b;
      EosCountConcat(a[1..], b);
    }
  }

  /** A path is made of proper state changes and ends where it should. */
  lemma {:induction false} PathShape(from: GstState, to: GstState)
    ensures EosCount(Path(from, to)) == 0
    ensures forall k :: 0 <= k < |Path(from, to)| ==>
              Path(from, to)[k].StateChanged? && Path(from, to)[k].before != Path(from, to)[k].after
    ensures from != to ==> Path(from, to) != [] && Path(from, to)[|Path(from, to)| - 1].after == to
    decreases if from.Code() < to.Code() then to.Code() - from.Code() else from.Code() - to.Code()
  {
    if from != to {
      var next :=
        match from
        case Null => Ready
        case Ready => if to == Null then Null else Paused
        case Paused => if to == Playing then Playing else Ready
        case Playing => Paused;
      PathShape(next, to);
    }
  }

  lemma {:induction false} PathLength(from: GstState, to: GstState)
    ensures |Path(from, to)| <= 3
  {
    assert Path(from, from) == [];
  }

  /** A bound on the messages still to be handled: an end of stream may start new
      transitions, and a transition under way will post its messages. */
  function Work(p: Pipeline): nat {
    20 * EosCount(p.bus) + (if p.target != p.state then 4 else 0) + |p.bus|
  }

  lemma ReachWork(p: Pipeline, to: GstState)
    ensures Work(Reach(p, to)) <= 20 * EosCount(p.bus) + |p.bus| + 3
  {
    PathShape(p.state, to);
    PathLength(p.state, to);
    EosCountConcat(p.bus, Path(p.state, to));
  }
}
