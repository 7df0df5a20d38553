/** The one-slot frame handoff between GStreamer's streaming thread and the UI thread
    (source/nsvr/nsvr_player.cpp), at the grain of single steps of either thread. */
module Frames {
  import opened Options

  /** The k-th sample pulled. */
  type Sample = nat

  /** Where the streaming thread is in processSample. */
  datatype Stream =
    | Waiting
    | Checking(hand: Sample)
    | Dropping(hand: Sample)
    | StoringSample(hand: Sample)
    | StoringBuffer(hand: Sample)
    | Mapping(hand: Sample)
    | Raising(hand: Sample)

  /** Where the UI thread is in update or close. */
  datatype Ui =
    | Idle
    | Polling | Showing | Unmapping | Releasing | ForgettingBuffer | ForgettingSample | Lowering
    | CloseUnmapping | CloseReleasing | Resetting

  datatype State = State(
    dirty: bool,
    sample: Option<Sample>,
    buffer: Option<Sample>,
    mapped: Option<Sample>,
    stream: Stream,
    ui: Ui,
    streaming: bool,
    pulled: nat,
    shown: seq<Sample>,
    dropped: multiset<Sample>,
    released: multiset<Sample>,
    closed: multiset<Sample>)

  const INITIAL := State(false, None, None, None, Waiting, Idle, false, 0, [], multiset{}, multiset{}, multiset{})

  datatype Event = Pull | StreamStep | Update | UiStep | Close | Open

  function StreamNext(s: State): State {
    match s.stream
    case Waiting => s
    case Checking(k) => s.(stream := if s.dirty then Dropping(k) else StoringSample(k))
    case Dropping(k) => s.(stream := Waiting, dropped := s.dropped + multiset{k})
    case StoringSample(k) => s.(stream := StoringBuffer(k), sample := Some(k))
    case StoringBuffer(k) => s.(stream := Mapping(k), buffer := Some(k))
    case Mapping(k) => s.(stream := Raising(k), mapped := s.buffer)
    case Raising(k) => s.(stream := Waiting, dirty := true)
  }

  function Single(o: Option<Sample>): multiset<Sample> {
    match o case None => multiset{} case Some(k) => multiset{k}
  }

  function UiNext(s: State): State {
    match s.ui
    case Idle => s
    case Polling => s.(ui := if s.dirty then Showing else Idle)
    case Showing => s.(ui := Unmapping, shown := match s.mapped case None => s.shown case Some(k) => s.shown + [k])
    case Unmapping => s.(ui := Releasing, mapped := if s.buffer.Some? then None else s.mapped)
    case Releasing => s.(ui := ForgettingBuffer, released := s.released + Single(s.sample))
    case ForgettingBuffer => s.(ui := ForgettingSample, buffer := None)
    case ForgettingSample => s.(ui := Lowering, sample := None)
    case Lowering => s.(ui := Idle, dirty := false)
    case CloseUnmapping => s.(ui := CloseReleasing, mapped := if s.buffer.Some? then None else s.mapped)
    case CloseReleasing => s.(ui := Resetting, closed := s.closed + Single(s.sample))
    case Resetting => s.(ui := Idle, buffer := None, sample := None, dirty := false)
  }

  /** One event; an event that is not enabled changes nothing. Closing waits for the
      streaming thread, which stopping the pipeline ends. */
  function Step(s: State, e: Event): State {
    match e
    case Pull =>
      if s.streaming && s.stream.Waiting? then s.(stream := Checking(s.pulled), pulled := s.pulled + 1) else s
    case StreamStep => StreamNext(s)
    case Update => if s.ui.Idle? then s.(ui := Polling) else s
    case UiStep => UiNext(s)
    case Close =>
      if s.ui.Idle? && s.stream.Waiting? then s.(ui := CloseUnmapping, streaming := false) else s
    case Open => if s.ui.Idle? then s.(streaming := true) else s
  }

  function Run(s: State, events: seq<Event>): State
    decreases |events|
  {
    if events == [] then s else Run(Step(s, events[0]), events[1..])
  }

  // ---------- The invariant ----------

  /** Between the streaming thread's check and its signal. */
  predicate Producing(s: State) {
    s.stream.StoringSample? || s.stream.StoringBuffer? || s.stream.Mapping? || s.stream.Raising?
  }

  predicate Updating(s: State) {
    s.ui.Showing? || s.ui.Unmapping? || s.ui.Releasing? || s.ui.ForgettingBuffer? || s.ui.ForgettingSample?
    || s.ui.Lowering?
  }

  predicate Closing(s: State) { s.ui.CloseUnmapping? || s.ui.CloseReleasing? || s.ui.Resetting? }

  predicate Full(s: State) { s.sample.Some? && s.buffer == s.sample && s.mapped == s.sample }

  predicate Empty(s: State) { s.sample.None? && s.buffer.None? && s.mapped.None? }

  predicate SlotsFit(s: State) {
    match s.stream
    case StoringSample(k) => Empty(s)
    case StoringBuffer(k) => s.sample == Some(k) && s.buffer.None? && s.mapped.None?
    case Mapping(k) => s.sample == Some(k) && s.buffer == Some(k) && s.mapped.None?
    case Raising(k) => Full(s) && s.sample == Some(k)
    case _ =>
      match s.ui
      case Idle => if s.dirty then Full(s) else Empty(s)
      case Polling => if s.dirty then Full(s) else Empty(s)
      case Showing => Full(s)
      case Unmapping => Full(s)
      case Releasing => s.sample.Some? && s.buffer == s.sample && s.mapped.None?
      case ForgettingBuffer => s.sample.Some? && s.buffer == s.sample && s.mapped.None?
      case ForgettingSample => s.sample.Some? && s.buffer.None? && s.mapped.None?
      case Lowering => Empty(s)
      case CloseUnmapping => if s.dirty then Full(s) else Empty(s)
      case CloseReleasing => s.buffer == s.sample && s.mapped.None? && (s.dirty <==> s.sample.Some?)
      case Resetting => s.buffer == s.sample && s.mapped.None?
  }

  predicate Control(s: State) {
    && !(Producing(s) && (Updating(s) || Closing(s)))
    && (Producing(s) ==> !s.dirty)
    && (Updating(s) ==> s.dirty)
    && (Closing(s) || !s.streaming ==> s.stream.Waiting?)
    && (Closing(s) ==> !s.streaming)
    && SlotsFit(s)
  }

  /** The sample in the slot that nobody has released yet. */
  function Slot(s: State): Option<Sample> {
    if Producing(s) || s.ui.ForgettingBuffer? || s.ui.ForgettingSample? || s.ui.Resetting? then None else s.sample
  }

  function Hand(s: State): Option<Sample> {
    if s.stream.Waiting? then None else Some(s.stream.hand)
  }

  function Has(o: Option<Sample>, k: Sample): nat { if o == Some(k) then 1 else 0 }

  /** In how many places sample `k` is accounted for. */
  function Places(s: State, k: Sample): nat {
    s.dropped[k] + s.released[k] + s.closed[k] + Has(Slot(s), k) + Has(Hand(s), k)
  }

  predicate Conserved(s: State, k: Sample) {
    Places(s, k) == if k < s.pulled then 1 else 0
  }

  ghost predicate Increasing(q: seq<nat>) { forall i, j :: 0 <= i < j < |q| ==> q[i] < q[j] }

  ghost predicate Below(q: seq<nat>, bound: nat) { forall i :: 0 <= i < |q| ==> q[i] < bound }

  ghost predicate Ordered(s: State) {
    && Increasing(s.shown) && Below(s.shown, s.pulled)
    && (Hand(s).Some? ==> s.stream.hand + 1 == s.pulled && Below(s.shown, s.stream.hand))
    && (s.sample.Some? ==> s.sample.value < s.pulled)
    && (s.sample.Some? && Hand(s).Some? && !Producing(s) ==> s.sample.value < s.stream.hand)
    && (s.sample.Some? && !(Updating(s) && !s.ui.Showing?) && !s.ui.Resetting? ==> Below(s.shown, s.sample.value))
  }

  ghost predicate Inv(s: State) { Control(s) && Ordered(s) }

  lemma StreamKeepsControl(s: State)
    requires Control(s)
    ensures Control(StreamNext(s))
  {
    match s.stream {
      case Waiting =>
      case Checking(k) =>
      case Dropping(k) =>
      case StoringSample(k) =>
      case StoringBuffer(k) =>
      case Mapping(k) =>
      case Raising(k) =>
    }
  }

  lemma UiKeepsControl(s: State)
    requires Control(s)
    ensures Control(UiNext(s))
  {
    match s.ui {
      case Idle =>
      case Polling =>
      case Showing =>
      case Unmapping =>
      case Releasing =>
      case ForgettingBuffer =>
      case ForgettingSample =>
      case Lowering =>
      case CloseUnmapping =>
      case CloseReleasing =>
      case Resetting =>
    }
  }

  lemma ControlStep(s: State, e: Event)
    requires Control(s)
    ensures Control(Step(s, e))
  {
    match e {
      case StreamStep => StreamKeepsControl(s);
      case UiStep => UiKeepsControl(s);
      case _ =>
    }
  }

  lemma StreamConserves(s: State, k: Sample)
    requires Control(s)
    ensures Places(StreamNext(s), k) == Places(s, k)
  {
    match s.stream {
      case Waiting =>
      case Checking(_) =>
      case Dropping(_) =>
      case StoringSample(_) =>
      case StoringBuffer(_) =>
      case Mapping(_) =>
      case Raising(_) =>
    }
  }

  lemma UiConserves(s: State, k: Sample)
    requires Control(s)
    ensures Places(UiNext(s), k) == Places(s, k)
  {
    match s.ui {
      case Releasing =>
      case CloseReleasing =>
      case _ =>
    }
  }

  lemma ConservedStep(s: State, e: Event, k: Sample)
    requires Control(s) && Conserved(s, k)
    ensures Conserved(Step(s, e), k)
  {
    match e {
      case StreamStep => StreamConserves(s, k);
      case UiStep => UiConserves(s, k);
      case _ =>
    }
  }

  lemma StreamKeepsOrder(s: State)
    requires Control(s) && Ordered(s)
    ensures Ordered(StreamNext(s))
  {
    match s.stream {
      case Waiting =>
      case Checking(k) =>
      case Dropping(k) =>
      case StoringSample(k) =>
      case StoringBuffer(k) =>
      case Mapping(k) =>
      case Raising(k) =>
    }
  }

  lemma ShowingKeepsOrder(s: State)
    requires Control(s) && Ordered(s) && s.ui.Showing?
    ensures Ordered(UiNext(s))
  {}

  lemma UiKeepsOrder(s: State)
    requires Control(s) && Ordered(s)
    ensures Ordered(UiNext(s))
  {
    match s.ui {
      case Idle =>
      case Polling =>
      case Showing => ShowingKeepsOrder(s);
      case Unmapping =>
      case Releasing =>
      case ForgettingBuffer =>
      case ForgettingSample =>
      case Lowering =>
      case CloseUnmapping =>
      case CloseReleasing =>
      case Resetting =>
    }
  }

  lemma OrderedStep(s: State, e: Event)
    requires Control(s) && Ordered(s)
    ensures Ordered(Step(s, e))
  {
    match e {
      case StreamStep => StreamKeepsOrder(s);
      case UiStep => UiKeepsOrder(s);
      case _ =>
    }
  }

  lemma {:induction false} RunKeeps(s: State, events: seq<Event>)
    requires Inv(s)
    ensures Inv(Run(s, events))
    decreases |events|
  {
    if events != [] {
      ControlStep(s, events[0]);
      OrderedStep(s, events[0]);
      RunKeeps(Step(s, events[0]), events[1..]);
    }
  }

  // ---------- What holds over every interleaving ----------

  datatype Place = SampleSlot | BufferSlot | MapSlot

  function StreamTouches(s: State): set<Place> {
    match s.stream
    case StoringSample(_) => {SampleSlot}
    case StoringBuffer(_) => {BufferSlot}
    case Mapping(_) => {BufferSlot, MapSlot}
    case _ => {}
  }

  function UiTouches(s: State): set<Place> {
    match s.ui
    case Showing => {MapSlot}
    case Unmapping => {BufferSlot, MapSlot}
    case Releasing => {SampleSlot}
    case ForgettingBuffer => {BufferSlot}
    case ForgettingSample => {SampleSlot}
    case CloseUnmapping => {BufferSlot, MapSlot}
    case CloseReleasing => {SampleSlot}
    case Resetting => {BufferSlot, SampleSlot}
    case _ => {}
  }

  /** In no run is one thread about to touch the sample, buffer or map while the other is
      anywhere in its own use of them. */
  lemma NoSharedAccess(events: seq<Event>)
    ensures var s := Run(INITIAL, events);
            (StreamTouches(s) != {} ==> !Updating(s) && !Closing(s)) &&
            (UiTouches(s) != {} ==> !Producing(s))
  {
    RunKeeps(INITIAL, events);
  }

  /** The frames shown are pulled samples, in order and without repetition, and a frame is
      shown only while its buffer is mapped. */
  lemma FramesInOrder(events: seq<Event>)
    ensures var s := Run(INITIAL, events);
            Increasing(s.shown) && Below(s.shown, s.pulled) &&
            (s.ui.Showing? ==> s.mapped.Some? && Below(s.shown, s.mapped.value))
  {
    RunKeeps(INITIAL, events);
  }

  lemma {:induction false} RunConserves(s: State, events: seq<Event>, k: Sample)
    requires Inv(s) && Conserved(s, k)
    ensures Conserved(Run(s, events), k)
    decreases |events|
  {
    if events != [] {
      ControlStep(s, events[0]);
      OrderedStep(s, events[0]);
      ConservedStep(s, events[0], k);
      RunConserves(Step(s, events[0]), events[1..], k);
    }
  }

  /** Every sample pulled is dropped, released by update, released by close, in the slot or
      in the streaming thread's hand: exactly one of these, exactly once. */
  lemma SamplesConserved(events: seq<Event>, k: Sample)
    ensures var s := Run(INITIAL, events);
            s.dropped[k] + s.released[k] + s.closed[k] + Has(Slot(s), k) + Has(Hand(s), k)
            == if k < s.pulled then 1 else 0
  {
    RunConserves(INITIAL, events, k);
  }

  /** With both threads at rest, the flag says whether a sample is held; after a close
      nothing is. */
  lemma DirtyMeansHeld(events: seq<Event>)
    ensures var s := Run(INITIAL, events);
            s.stream.Waiting? && s.ui.Idle? ==>
              (s.dirty <==> s.sample.Some?) && Slot(s) == s.sample && s.buffer == s.sample && s.mapped == s.sample
  {
    RunKeeps(INITIAL, events);
  }

  // ---------- The threads' code, run without interruption ----------

  /** processSample on the next sample. */
  function Process(s: State): State {
    var k := s.pulled;
    if s.dirty then s.(pulled := k + 1, dropped := s.dropped + Single(Some(k)))
    else s.(pulled := k + 1, sample := Some(k), buffer := Some(k), mapped := Some(k), dirty := true)
  }

  function Handed(s: State): State {
    s.(shown := match s.mapped case None => s.shown case Some(k) => s.shown + [k])
  }

  function Unmapped(s: State): State { s.(mapped := if s.buffer.Some? then None else s.mapped) }

  function Forgotten(s: State): State { s.(buffer := None, sample := None, dirty := false) }

  /** The end of update. */
  function Consume(s: State): State {
    if !s.dirty then s
    else
      var t := Unmapped(Handed(s));
      Forgotten(t.(released := t.released + Single(t.sample)))
  }

  /** The end of close. */
  function Release(s: State): State {
    var t := Unmapped(s.(streaming := false));
    Forgotten(t.(closed := t.closed + Single(t.sample)))
  }

  lemma ProcessNested(s: State)
    requires s.streaming && s.stream.Waiting?
    ensures StreamNext(StreamNext(StreamNext(StreamNext(StreamNext(Step(s, Pull)))))) == Process(s)
  {
    if s.dirty {
      assert StreamNext(StreamNext(Step(s, Pull))) == Process(s);
    } else {
      assert StreamNext(StreamNext(StreamNext(StreamNext(StreamNext(Step(s, Pull)))))) == Process(s);
    }
  }

  lemma ProcessSteps(s: State)
    requires s.streaming && s.stream.Waiting?
    ensures Run(s, [Pull, StreamStep, StreamStep, StreamStep, StreamStep, StreamStep]) == Process(s)
  {
    var s2 := StreamNext(Step(s, Pull));
    ProcessNested(s);
    RunTwo(s, Pull, StreamStep, [StreamStep, StreamStep, StreamStep, StreamStep]);
    StreamFour(s2);
  }

  lemma StreamFour(s: State)
    ensures Run(s, [StreamStep, StreamStep, StreamStep, StreamStep]) ==
            StreamNext(StreamNext(StreamNext(StreamNext(s))))
  {
    RunTwo(s, StreamStep, StreamStep, [StreamStep, StreamStep]);
    RunTwo(StreamNext(StreamNext(s)), StreamStep, StreamStep, []);
  }

  lemma RunTwo(s: State, e: Event, f: Event, rest: seq<Event>)
    ensures Run(s, [e, f] + rest) == Run(Step(Step(s, e), f), rest)
  {
    assert ([e, f] + rest)[1..] == [f] + rest;
    assert ([f] + rest)[1..] == rest;
  }

  lemma ConsumeFirst(s: State)
    requires s.ui.Idle? && s.dirty
    ensures UiNext(UiNext(UiNext(Step(s, Update)))) ==
            s.(ui := Releasing,
               shown := match s.mapped case None => s.shown case Some(k) => s.shown + [k],
               mapped := if s.buffer.Some? then None else s.mapped)
  {}

  lemma ConsumeLast(s: State)
    requires s.ui.Releasing?
    ensures UiNext(UiNext(UiNext(UiNext(s)))) ==
            s.(ui := Idle, released := s.released + Single(s.sample), buffer := None, sample := None, dirty := false)
  {}

  lemma ConsumeSteps(s: State)
    requires s.ui.Idle? && s.dirty
    ensures Run(s, [Update, UiStep, UiStep, UiStep, UiStep, UiStep, UiStep, UiStep]) == Consume(s)
  {
    var s1 := UiNext(Step(s, Update));
    var s2 := UiNext(UiNext(s1));
    ConsumeFirst(s);
    ConsumeLast(s2);
    RunTwo(s, Update, UiStep, [UiStep, UiStep, UiStep, UiStep, UiStep, UiStep]);
    RunTwo(s1, UiStep, UiStep, [UiStep, UiStep, UiStep, UiStep]);
    RunTwo(s2, UiStep, UiStep, [UiStep, UiStep]);
    RunTwo(UiNext(UiNext(s2)), UiStep, UiStep, []);
  }

  lemma CloseFirst(s: State)
    requires s.ui.Idle? && s.stream.Waiting?
    ensures UiNext(Step(s, Close)) ==
            s.(ui := CloseReleasing, streaming := false, mapped := if s.buffer.Some? then None else s.mapped)
  {}

  lemma CloseLast(s: State)
    requires s.ui.CloseReleasing?
    ensures UiNext(UiNext(s)) ==
            s.(ui := Idle, closed := s.closed + Single(s.sample), buffer := None, sample := None, dirty := false)
  {}

  lemma ReleaseNested(s: State)
    requires s.ui.Idle? && s.stream.Waiting?
    ensures UiNext(UiNext(UiNext(Step(s, Close)))) == Release(s)
  {
    CloseFirst(s);
    CloseLast(UiNext(Step(s, Close)));
  }

  lemma ReleaseSteps(s: State)
    requires s.ui.Idle? && s.stream.Waiting?
    ensures Run(s, [Close, UiStep, UiStep, UiStep]) == Release(s)
  {
    ReleaseNested(s);
    RunTwo(s, Close, UiStep, [UiStep, UiStep]);
    RunTwo(UiNext(Step(s, Close)), UiStep, UiStep, []);
  }

  /** A sample pulled while the slot is free, and left alone, is the next frame shown; pulled
      while the slot is taken, it is dropped and the frame waiting there is shown. */
  lemma NextFrame(events: seq<Event>)
    ensures var s := Run(INITIAL, events);
            s.streaming && s.stream.Waiting? && s.ui.Idle? ==>
              var t := Consume(Process(s));
              (s.dirty ==> s.sample.Some?) && Empty(t) && !t.dirty &&
              t.shown == s.shown + [if s.dirty then s.sample.value else s.pulled]
  {
    RunKeeps(INITIAL, events);
  }

  class FrameSlot {
    var mBufferDirty: bool
    var mCurrentSample: Option<Sample>
    var mCurrentBuffer: Option<Sample>
    var mCurrentMapInfo: Option<Sample>
    ghost var streaming: bool
    ghost var pulled: nat
    ghost var shown: seq<Sample>
    ghost var dropped: multiset<Sample>
    ghost var released: multiset<Sample>
    ghost var closed: multiset<Sample>

    ghost function View(): State
      reads this
    {
      State(mBufferDirty, mCurrentSample, mCurrentBuffer, mCurrentMapInfo, Waiting, Idle, streaming,
            pulled, shown, dropped, released, closed)
    }

    constructor ()
      ensures View() == INITIAL
    {
      mBufferDirty, mCurrentSample, mCurrentBuffer, mCurrentMapInfo := false, None, None, None;
      streaming, pulled, shown := false, 0, [];
      dropped, released, closed := multiset{}, multiset{}, multiset{};
    }

    /** Called on the streaming thread with the next sample. */
    method ProcessSample(sample: Sample)
      requires streaming && sample == pulled
      modifies this
      ensures View() == Process(old(View()))
    {
      pulled := pulled + 1;
      if mBufferDirty {
        dropped := dropped + Single(Some(sample));
      } else {
        mCurrentSample := Some(sample);
        mCurrentBuffer := Some(sample);
        mCurrentMapInfo := mCurrentBuffer;
        mBufferDirty := true;
      }
    }

    method HandOut()
      modifies this
      ensures View() == Handed(old(View()))
    {
      if mCurrentMapInfo.Some? {
        shown := shown + [mCurrentMapInfo.value];
      }
    }

    method UnmapBuffer()
      modifies this
      ensures View() == Unmapped(old(View()))
    {
      if mCurrentBuffer.Some? {
        mCurrentMapInfo := None;
      }
    }

    method Forget()
      modifies this
      ensures View() == Forgotten(old(View()))
    {
      mCurrentBuffer := None;
      mCurrentSample := None;
      mBufferDirty := false;
    }

    /** The end of update: hands the frame out and frees the slot. */
    method ConsumeFrame()
      modifies this
      ensures View() == Consume(old(View()))
    {
      if mBufferDirty {
        HandOut();
        UnmapBuffer();
        released := released + Single(mCurrentSample);
        Forget();
      }
    }

    /** The end of close, streaming being stopped. */
    method ReleaseFrame()
      modifies this
      ensures View() == Release(old(View()))
    {
      streaming := false;
      UnmapBuffer();
      closed := closed + Single(mCurrentSample);
      Forget();
    }
  }
}
