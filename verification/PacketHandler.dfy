/** The heartbeat wire format (source/nsvr/nsvr_packet_handler.cpp). */
module PacketHandler {
  import opened Decimal
  import opened Options
  import opened Printing
  import opened Text

  const SEPARATOR := '|'
  const TIME := 't'
  const VOLUME := 'v'
  const MUTE := 'm'
  const STATE := 's'
  const BASE := 'b'
  const ATTRIBUTES := 5

  datatype Packet = Packet(time: real, volume: real, mute: Int32, state: Int32, base: UInt64)

  // ---------- Commands ----------

  predicate HasTag(c: string, tag: char) { c != "" && c[0] == tag }

  predicate Recognised(c: string) {
    HasTag(c, TIME) || HasTag(c, VOLUME) || HasTag(c, MUTE) || HasTag(c, STATE) || HasTag(c, BASE)
  }

  /** Stores one recognised command; None is an exception out of the number parser. */
  function Store(c: string, p: Packet): Option<Packet> {
    if !Recognised(c) then None
    else if c[0] == TIME then
      match Stod(c[1..]) case None => None case Some(x) => Some(p.(time := x))
    else if c[0] == VOLUME then
      match Stod(c[1..]) case None => None case Some(x) => Some(p.(volume := x))
    else if c[0] == MUTE then
      match Stoi(c[1..]) case None => None case Some(x) => Some(p.(mute := x))
    else if c[0] == STATE then
      match Stoi(c[1..]) case None => None case Some(x) => Some(p.(state := x))
    else
      match Stoull(c[1..]) case None => None case Some(x) => Some(p.(base := x))
  }

  /** The commands from the left, up to the first that cannot be stored. */
  function FoldBy(
    store: (string, Packet) -> Option<Packet>, commands: seq<string>, p: Packet, entities: nat): (Packet, nat)
    decreases |commands|
  {
    if commands == [] then (p, entities)
    else if !Recognised(commands[0]) then FoldBy(store, commands[1..], p, entities)
    else
      match store(commands[0], p)
      case None => (p, entities)
      case Some(q) => FoldBy(store, commands[1..], q, entities + 1)
  }

  function Fold(commands: seq<string>, p: Packet, entities: nat): (Packet, nat) {
    FoldBy(Store, commands, p, entities)
  }

  predicate Heartbeat(buffer: string) {
    |buffer| > 3 && buffer[0] == 's' && buffer[1] == 'h'
  }

  /** Success, and the packet as the call leaves it. */
  function Parsed(buffer: string, p: Packet): (bool, Packet) {
    if Heartbeat(buffer) then
      var (q, n) := Fold(Split(buffer[3..], SEPARATOR), p, 0);
      (n == ATTRIBUTES, q)
    else (false, p)
  }

  /** The parsing loop, filling the packet as it goes and leaving on an exception. */
  method Parse(buffer: string, packet: Packet) returns (succeed: bool, result: Packet)
    ensures (succeed, result) == Parsed(buffer, packet)
  {
    result := packet;
    if buffer == "" || buffer[0] == 'c' {
      return false, result;
    }
    var entities := 0;
    if |buffer| > 3 && buffer[0] == 's' {
      if buffer[1] == 'h' {
        var commands := Explode(buffer[3..], SEPARATOR);
        var i := 0;
        while i < |commands|
          invariant 0 <= i <= |commands|
          invariant Fold(commands, packet, 0) == Fold(commands[i..], result, entities)
        {
          var command := commands[i];
          assert commands[i..][1..] == commands[i + 1..];
          if Recognised(command) {
            match Store(command, result) {
              case None => break;
              case Some(q) => result, entities := q, entities + 1;
            }
          }
          i := i + 1;
        }
      }
    }
    succeed := entities == ATTRIBUTES;
  }

  // ---------- What the fold means ----------

  predicate WellFormed(c: string) {
    Recognised(c) ==>
      if c[0] == TIME || c[0] == VOLUME then Stod(c[1..]).Some?
      else if c[0] == BASE then Stoull(c[1..]).Some?
      else Stoi(c[1..]).Some?
  }

  /** The commands before the first that is not `ok`. */
  function SoundBy(ok: string -> bool, commands: seq<string>): (pre: seq<string>)
    ensures |pre| <= |commands| && pre == commands[..|pre|]
    ensures forall k :: 0 <= k < |pre| ==> ok(pre[k])
    ensures |pre| < |commands| ==> !ok(commands[|pre|])
    decreases |commands|
  {
    if commands == [] || !ok(commands[0]) then []
    else
      var rest := SoundBy(ok, commands[1..]);
      assert commands[..|rest| + 1] == [commands[0]] + commands[1..][..|rest|];
      [commands[0]] + rest
  }

  /** The commands before the first malformed number. */
  function Sound(commands: seq<string>): seq<string> { SoundBy(WellFormed, commands) }

  function OnlyRecognised(commands: seq<string>): (r: seq<string>)
    ensures forall c :: c in r <==> c in commands && Recognised(c)
    ensures |r| <= |commands|
    decreases |commands|
  {
    if commands == [] then []
    else (if Recognised(commands[0]) then [commands[0]] else []) + OnlyRecognised(commands[1..])
  }

  /** The last command carrying a tag. */
  function Last(tag: char, commands: seq<string>): (r: Option<string>)
    ensures r.Some? ==> r.value in commands && HasTag(r.value, tag)
    ensures r.None? ==> forall c :: c in commands ==> !HasTag(c, tag)
  {
    if commands == [] then None
    else
      var later := Last(tag, commands[1..]);
      if later.None? && HasTag(commands[0], tag) then Some(commands[0]) else later
  }

  /** What `read` makes of the last command carrying a tag. */
  function LastValue<T>(read: string -> Option<T>, tag: char, commands: seq<string>, default: T): T {
    match Last(tag, commands)
    case None => default
    case Some(c) => match read(c[1..]) case None => default case Some(x) => x
  }

  /** Every field from the last command that carries its tag. */
  function LastWrites(commands: seq<string>, p: Packet): Packet {
    Packet(
      LastValue(Stod, TIME, commands, p.time),
      LastValue(Stod, VOLUME, commands, p.volume),
      LastValue(Stoi, MUTE, commands, p.mute),
      LastValue(Stoi, STATE, commands, p.state),
      LastValue(Stoull, BASE, commands, p.base))
  }

  ghost predicate ReadableBy<T>(read: string -> Option<T>, tag: char, commands: seq<string>) {
    forall c :: c in commands && HasTag(c, tag) ==> read(c[1..]).Some?
  }

  lemma LastValueStep<T>(read: string -> Option<T>, tag: char, c: string, rest: seq<string>, default: T)
    requires ReadableBy(read, tag, [c] + rest)
    ensures LastValue(read, tag, [c] + rest, default) ==
            LastValue(read, tag, rest, if HasTag(c, tag) then read(c[1..]).value else default)
  {
    assert ([c] + rest)[1..] == rest;
    assert c in [c] + rest;
    if Last(tag, rest).Some? {
      assert Last(tag, rest).value in [c] + rest;
    }
  }

  lemma ReadersFit(commands: seq<string>)
    requires forall c :: c in commands ==> WellFormed(c)
    ensures ReadableBy(Stod, TIME, commands) && ReadableBy(Stod, VOLUME, commands)
    ensures ReadableBy(Stoi, MUTE, commands) && ReadableBy(Stoi, STATE, commands)
    ensures ReadableBy(Stoull, BASE, commands)
  {}

  lemma LastWritesStep(c: string, rest: seq<string>, p: Packet)
    requires WellFormed(c) && forall k :: 0 <= k < |rest| ==> WellFormed(rest[k])
    ensures LastWrites([c] + rest, p) ==
            LastWrites(rest, if Recognised(c) && Store(c, p).Some? then Store(c, p).value else p)
  {
    ReadersFit([c] + rest);
    LastValueStep(Stod, TIME, c, rest, p.time);
    LastValueStep(Stod, VOLUME, c, rest, p.volume);
    LastValueStep(Stoi, MUTE, c, rest, p.mute);
    LastValueStep(Stoi, STATE, c, rest, p.state);
    LastValueStep(Stoull, BASE, c, rest, p.base);
    assert c in [c] + rest;
  }

  /** What can be stored is what is `ok`. */
  ghost predicate Agreeing(store: (string, Packet) -> Option<Packet>, ok: string -> bool) {
    (forall c, p :: Recognised(c) ==> (store(c, p).Some? <==> ok(c))) && forall c :: !Recognised(c) ==> ok(c)
  }

  lemma {:induction false} FoldCounts(
    store: (string, Packet) -> Option<Packet>, ok: string -> bool, commands: seq<string>, p: Packet, entities: nat)
    requires Agreeing(store, ok)
    ensures FoldBy(store, commands, p, entities).1 == entities + |OnlyRecognised(SoundBy(ok, commands))|
    decreases |commands|
  {
    if commands != [] && ok(commands[0]) {
      var rest := commands[1..];
      assert SoundBy(ok, commands)[1..] == SoundBy(ok, rest);
      if Recognised(commands[0]) {
        FoldCounts(store, ok, rest, store(commands[0], p).value, entities + 1);
      } else {
        FoldCounts(store, ok, rest, p, entities);
      }
    }
  }

  /** `writes` gives what storing one sound command after the other does. */
  ghost predicate Writing(
    store: (string, Packet) -> Option<Packet>, ok: string -> bool, writes: (seq<string>, Packet) -> Packet) {
    (forall p :: writes([], p) == p) &&
    forall c, rest, p :: ok(c) && (forall k :: 0 <= k < |rest| ==> ok(rest[k])) ==>
      writes([c] + rest, p) == writes(rest, if Recognised(c) && store(c, p).Some? then store(c, p).value else p)
  }

  lemma {:induction false} FoldWrites(
    store: (string, Packet) -> Option<Packet>, ok: string -> bool, writes: (seq<string>, Packet) -> Packet,
    commands: seq<string>, p: Packet, entities: nat)
    requires Agreeing(store, ok) && Writing(store, ok, writes)
    ensures FoldBy(store, commands, p, entities).0 == writes(SoundBy(ok, commands), p)
    decreases |commands|
  {
    if commands != [] && ok(commands[0]) {
      var rest := commands[1..];
      assert SoundBy(ok, commands) == [commands[0]] + SoundBy(ok, rest);
      if Recognised(commands[0]) {
        FoldWrites(store, ok, writes, rest, store(commands[0], p).value, entities + 1);
      } else {
        FoldWrites(store, ok, writes, rest, p, entities);
      }
    }
  }

  lemma StoringAgrees()
    ensures Agreeing(Store, WellFormed)
  {}

  lemma LastWritesWrite()
    ensures Writing(Store, WellFormed, LastWrites)
  {
    forall c, rest, p | WellFormed(c) && forall k :: 0 <= k < |rest| ==> WellFormed(rest[k])
      ensures LastWrites([c] + rest, p) ==
              LastWrites(rest, if Recognised(c) && Store(c, p).Some? then Store(c, p).value else p)
    {
      LastWritesStep(c, rest, p);
    }
  }

  /** Parsing keeps the last well-formed write to each field, up to the first malformed
      number, and counts the recognised commands until there. */
  lemma FoldIsLastWriteWins(commands: seq<string>, p: Packet, entities: nat)
    ensures Fold(commands, p, entities).0 == LastWrites(Sound(commands), p)
    ensures Fold(commands, p, entities).1 == entities + |OnlyRecognised(Sound(commands))|
  {
    StoringAgrees();
    LastWritesWrite();
    FoldWrites(Store, WellFormed, LastWrites, commands, p, entities);
    FoldCounts(Store, WellFormed, commands, p, entities);
  }

  /** A buffer parses exactly when it is a heartbeat whose recognised commands before the
      first malformed number are five; repeated tags count each time. */
  lemma ParseSucceedsIff(buffer: string, p: Packet)
    ensures Parsed(buffer, p).0 <==>
            Heartbeat(buffer) && |OnlyRecognised(Sound(Split(buffer[3..], SEPARATOR)))| == ATTRIBUTES
    ensures Heartbeat(buffer) ==>
            Parsed(buffer, p).1 == LastWrites(Sound(Split(buffer[3..], SEPARATOR)), p)
  {
    if Heartbeat(buffer) {
      FoldIsLastWriteWins(Split(buffer[3..], SEPARATOR), p, 0);
    }
  }

  // ---------- Order insensitivity ----------

  ghost predicate DistinctTags(commands: seq<string>) {
    forall i, j :: 0 <= i < j < |commands| && commands[i] != "" && commands[j] != "" ==>
      commands[i][0] != commands[j][0]
  }

  ghost predicate AllWellFormed(commands: seq<string>) {
    forall c :: c in commands ==> WellFormed(c)
  }

  lemma UniqueTag(commands: seq<string>, c: string, d: string)
    requires DistinctTags(commands) && c in commands && d in commands
    requires c != "" && d != "" && c[0] == d[0]
    ensures c == d
  {
    var i :| 0 <= i < |commands| && commands[i] == c;
    var j :| 0 <= j < |commands| && commands[j] == d;
    assert i == j;
  }

  lemma SameMembers(a: seq<string>, b: seq<string>)
    requires multiset(a) == multiset(b)
    ensures |a| == |b| && forall c :: c in a <==> c in b
  {
    assert |a| == |multiset(a)| == |multiset(b)| == |b|;
    forall c ensures c in a <==> c in b {
      assert c in a <==> c in multiset(a);
      assert c in b <==> c in multiset(b);
    }
  }

  lemma SameLast(tag: char, a: seq<string>, b: seq<string>)
    requires tag == TIME || tag == VOLUME || tag == MUTE || tag == STATE || tag == BASE
    requires forall c :: c in OnlyRecognised(a) <==> c in OnlyRecognised(b)
    requires DistinctTags(OnlyRecognised(a))
    ensures Last(tag, a) == Last(tag, b)
  {
    if Last(tag, a).Some? {
      var c := Last(tag, a).value;
      assert c in OnlyRecognised(b);
      UniqueTag(OnlyRecognised(a), c, Last(tag, b).value);
    }
  }

  lemma {:induction false} SoundWhole(commands: seq<string>)
    requires AllWellFormed(commands)
    ensures Sound(commands) == commands
  {
    if commands != [] {
      SoundWhole(commands[1..]);
    }
  }

  /** Five well-formed commands with distinct tags parse to the same packet in any order
      and with any number of empty or unknown commands between them. */
  lemma OrderInsensitive(x: string, y: string, p: Packet)
    requires Heartbeat(x) && Heartbeat(y)
    requires AllWellFormed(Split(x[3..], SEPARATOR)) && AllWellFormed(Split(y[3..], SEPARATOR))
    requires var rx := OnlyRecognised(Split(x[3..], SEPARATOR));
             DistinctTags(rx) && |rx| == ATTRIBUTES &&
             multiset(rx) == multiset(OnlyRecognised(Split(y[3..], SEPARATOR)))
    ensures Parsed(x, p) == Parsed(y, p) && Parsed(x, p).0
  {
    var a, b := Split(x[3..], SEPARATOR), Split(y[3..], SEPARATOR);
    ParseSucceedsIff(x, p);
    ParseSucceedsIff(y, p);
    SoundWhole(a);
    SoundWhole(b);
    SameMembers(OnlyRecognised(a), OnlyRecognised(b));
    SameLast(TIME, a, b);
    SameLast(VOLUME, a, b);
    SameLast(MUTE, a, b);
    SameLast(STATE, a, b);
    SameLast(BASE, a, b);
  }

  // ---------- Serialising ----------

  /** The five attribute values between their tags and separators. */
  function Framed(time: string, volume: string, mute: string, state: string, base: string): string {
    "sh" + [SEPARATOR] + [TIME] + time + [SEPARATOR] + [VOLUME] + volume + [SEPARATOR] + [MUTE] + mute
    + [SEPARATOR] + [STATE] + state + [SEPARATOR] + [BASE] + base
  }

  function Serialize(p: Packet): string {
    Framed(PrintReal(p.time), PrintReal(p.volume), PrintInt(p.mute), PrintInt(p.state), PrintInt(p.base))
  }

  function Commands(p: Packet): seq<string> {
    [[TIME] + PrintReal(p.time), [VOLUME] + PrintReal(p.volume), [MUTE] + PrintInt(p.mute),
     [STATE] + PrintInt(p.state), [BASE] + PrintInt(p.base)]
  }

  /** The packet whose doubles are what six significant digits show of them. */
  function Rounded(p: Packet): Packet {
    p.(time := Printed(p.time), volume := Printed(p.volume))
  }

  lemma ImplodeCons(x: string, rest: seq<string>, g: string)
    requires rest != [] && CString(g) == g
    ensures Implode([x] + rest, g) == x + g + Implode(rest, g)
  {}

  lemma ImplodeFive(a: string, b: string, c: string, d: string, e: string, g: string)
    requires CString(g) == g
    ensures Implode([a, b, c, d, e], g) == a + g + (b + g + (c + g + (d + g + e)))
  {
    ImplodeCons(d, [e], g);
    ImplodeCons(c, [d, e], g);
    ImplodeCons(b, [c, d, e], g);
    ImplodeCons(a, [b, c, d, e], g);
    assert [d] + [e] == [d, e];
    assert [c] + [d, e] == [c, d, e];
    assert [b] + [c, d, e] == [b, c, d, e];
    assert [a] + [b, c, d, e] == [a, b, c, d, e];
  }

  lemma FramedTail(t: string, v: string, m: string, s: string, b: string)
    ensures Heartbeat(Framed(t, v, m, s, b))
    ensures var g := [SEPARATOR];
            Framed(t, v, m, s, b)[3..] ==
            ([TIME] + t) + g + (([VOLUME] + v) + g + (([MUTE] + m) + g + (([STATE] + s) + g + ([BASE] + b))))
  {}

  lemma SerializeIsImplode(p: Packet)
    ensures Heartbeat(Serialize(p))
    ensures Serialize(p)[3..] == Implode(Commands(p), [SEPARATOR])
  {
    var c := Commands(p);
    assert CString([SEPARATOR]) == [SEPARATOR];
    ImplodeFive(c[0], c[1], c[2], c[3], c[4], [SEPARATOR]);
    FramedTail(PrintReal(p.time), PrintReal(p.volume), PrintInt(p.mute), PrintInt(p.state), PrintInt(p.base));
  }

  lemma NoSeparator(p: Packet, k: nat)
    requires k < 5
    ensures SEPARATOR !in Commands(p)[k]
  {
    PrintedShape(p.time);
    PrintedShape(p.volume);
    PrintedIntShape(p.mute);
    PrintedIntShape(p.state);
    PrintedIntShape(p.base);
  }

  lemma SerializeSplits(p: Packet)
    ensures Heartbeat(Serialize(p))
    ensures Split(Serialize(p)[3..], SEPARATOR) == Commands(p)
  {
    forall k: nat | k < 5 ensures SEPARATOR !in Commands(p)[k] {
      NoSeparator(p, k);
    }
    SerializeIsImplode(p);
    ExplodeInvertsImplode(Commands(p), SEPARATOR);
  }

  lemma FoldOne(c: string, rest: seq<string>, p: Packet, n: nat, q: Packet)
    requires Recognised(c) && Store(c, p) == Some(q)
    ensures Fold([c] + rest, p, n) == Fold(rest, q, n + 1)
  {}

  /** Time and volume are zero or normal doubles once printed. */
  predicate Readable(p: Packet) { InRange(Printed(p.time)) && InRange(Printed(p.volume)) }

  lemma FoldTime(text: string, rest: seq<string>, q: Packet, n: nat)
    requires Stod(text).Some?
    ensures Fold([[TIME] + text] + rest, q, n) == Fold(rest, q.(time := Stod(text).value), n + 1)
  {
    assert ([TIME] + text)[1..] == text;
    FoldOne([TIME] + text, rest, q, n, q.(time := Stod(text).value));
  }

  lemma FoldVolume(text: string, rest: seq<string>, q: Packet, n: nat)
    requires Stod(text).Some?
    ensures Fold([[VOLUME] + text] + rest, q, n) == Fold(rest, q.(volume := Stod(text).value), n + 1)
  {
    assert ([VOLUME] + text)[1..] == text;
    FoldOne([VOLUME] + text, rest, q, n, q.(volume := Stod(text).value));
  }

  lemma FoldReals(time: string, volume: string, rest: seq<string>, q: Packet)
    requires Stod(time).Some? && Stod(volume).Some?
    ensures Fold([[TIME] + time] + ([[VOLUME] + volume] + rest), q, 0) ==
            Fold(rest, q.(time := Stod(time).value, volume := Stod(volume).value), 2)
  {
    FoldTime(time, [[VOLUME] + volume] + rest, q, 0);
    FoldVolume(volume, rest, q.(time := Stod(time).value), 1);
  }

  lemma CommandsSplit(p: Packet)
    ensures Commands(p) == [[TIME] + PrintReal(p.time)] + ([[VOLUME] + PrintReal(p.volume)] + IntegerCommands(p))
  {}

  lemma FoldCommands(p: Packet, q: Packet)
    requires Readable(p)
    ensures Fold(Commands(p), q, 0) == (Rounded(p), 5)
  {
    StodReadsPrinted(p.time);
    StodReadsPrinted(p.volume);
    CommandsSplit(p);
    FoldReals(PrintReal(p.time), PrintReal(p.volume), IntegerCommands(p), q);
    FoldIntegers(p, q.(time := Printed(p.time), volume := Printed(p.volume)));
  }

  function IntegerCommands(p: Packet): seq<string> {
    [[MUTE] + PrintInt(p.mute), [STATE] + PrintInt(p.state), [BASE] + PrintInt(p.base)]
  }

  lemma FoldIntegers(p: Packet, q: Packet)
    ensures Fold(IntegerCommands(p), q, 2) == (q.(mute := p.mute, state := p.state, base := p.base), 5)
  {
    var c := IntegerCommands(p);
    StoiReadsPrinted(p.mute);
    StoiReadsPrinted(p.state);
    StoullReadsPrinted(p.base);
    var q3 := q.(mute := p.mute);
    var q4 := q3.(state := p.state);
    FoldOne(c[0], c[1..], q, 2, q3);
    FoldOne(c[1], c[2..], q3, 3, q4);
    FoldOne(c[2], [], q4, 4, q4.(base := p.base));
    assert c[1..] == [c[1]] + [c[2]] && c[2..] == [c[2]] + [];
    assert Fold([], q4.(base := p.base), 5) == (q4.(base := p.base), 5);
  }

  /** No more commands count than come before a malformed one. */
  lemma FoldStops(commands: seq<string>, k: nat, p: Packet)
    requires k < |commands| && !WellFormed(commands[k])
    ensures Fold(commands, p, 0).1 <= k
  {
    StoringAgrees();
    FoldCounts(Store, WellFormed, commands, p, 0);
  }

  lemma Malformed(tag: char, text: string)
    requires (tag == TIME || tag == VOLUME) && Stod(text).None?
    ensures !WellFormed([tag] + text)
  {
    assert ([tag] + text)[1..] == text;
  }

  lemma UnreadableCommand(tag: char, x: real)
    requires (tag == TIME || tag == VOLUME) && !InRange(Printed(x))
    ensures !WellFormed([tag] + PrintReal(x))
  {
    StodReadsPrinted(x);
    Malformed(tag, PrintReal(x));
  }

  lemma FoldUnreadable(p: Packet, q: Packet)
    requires !Readable(p)
    ensures Fold(Commands(p), q, 0).1 < 5
  {
    if !InRange(Printed(p.time)) {
      UnreadableCommand(TIME, p.time);
      FoldStops(Commands(p), 0, q);
    } else {
      UnreadableCommand(VOLUME, p.volume);
      FoldStops(Commands(p), 1, q);
    }
  }

  /** Parsing a serialised packet succeeds exactly when its doubles, as printed, are in range,
      and then gives it back, doubles rounded to six digits, whatever the packet held before. */
  lemma RoundTrip(p: Packet, q: Packet)
    ensures Parsed(Serialize(p), q).0 <==> Readable(p)
    ensures Readable(p) ==> Parsed(Serialize(p), q).1 == Rounded(p)
  {
    SerializeSplits(p);
    if Readable(p) {
      FoldCommands(p, q);
    } else {
      FoldUnreadable(p, q);
    }
  }

  /** Serialising what was parsed gives the same text. */
  lemma SerializeStable(p: Packet)
    ensures Serialize(Rounded(p)) == Serialize(p)
  {
    PrintStable(p.time);
    PrintStable(p.volume);
  }

  /** A server PLAYING at 1.5 seconds, at a quarter of the volume, on the base time 123. */
  lemma OnTheWire(q: Packet)
    ensures var p, text := Packet(1.5, 0.25, 0, 4, 123), "sh|t1.5|v0.25|m0|s4|b123";
            Serialize(p) == text && Parsed(text, q) == (true, p)
  {
    var p := Packet(1.5, 0.25, 0, 4, 123);
    SerializedExample(p);
    RoundTrip(p, q);
    PrintsHalves();
    PrintsQuarters();
    OrdinaryInRange(1.5);
    OrdinaryInRange(0.25);
  }

  lemma FramedExample()
    ensures Framed("1.5", "0.25", "0", "4", "123") == "sh|t1.5|v0.25|m0|s4|b123"
  {
    var a := "sh" + [SEPARATOR] + [TIME] + "1.5" + [SEPARATOR] + [VOLUME] + "0.25";
    assert a == "sh|t1.5|v0.25";
    var b := a + [SEPARATOR] + [MUTE] + "0" + [SEPARATOR] + [STATE] + "4";
    assert b == "sh|t1.5|v0.25|m0|s4";
    assert b + [SEPARATOR] + [BASE] + "123" == "sh|t1.5|v0.25|m0|s4|b123";
  }

  lemma IntegersPrint()
    ensures PrintInt(0) == "0" && PrintInt(4) == "4" && PrintInt(123) == "123"
  {
    assert Digits(1) == "1" && Digits(12) == "12";
  }

  lemma SerializedExample(p: Packet)
    requires p == Packet(1.5, 0.25, 0, 4, 123)
    ensures Serialize(p) == "sh|t1.5|v0.25|m0|s4|b123"
  {
    PrintsHalves();
    PrintsQuarters();
    FramedExample();
    IntegersPrint();
  }

  // ---------- Size ----------

  lemma PrintedIntLength(i: int, digits: nat)
    requires digits > 0 && i < Pow10(digits) && -i < Pow10(digits)
    ensures |PrintInt(i)| <= digits + if i < 0 then 1 else 0
  {
    DigitsLength(if i < 0 then -i else i, digits);
  }

  ghost predicate NulFree(s: string) { forall k :: 0 <= k < |s| ==> s[k] != '\0' }

  lemma FramedShape(t: string, v: string, m: string, s: string, b: string)
    requires NumberText(t) && NumberText(v) && NumberText(m) && NumberText(s) && NumberText(b)
    ensures NulFree(Framed(t, v, m, s, b))
    ensures |Framed(t, v, m, s, b)| == 12 + |t| + |v| + |m| + |s| + |b|
  {
    var x := "sh" + [SEPARATOR] + [TIME] + t + [SEPARATOR] + [VOLUME] + v;
    assert NulFree(x);
    var y := x + [SEPARATOR] + [MUTE] + m + [SEPARATOR] + [STATE] + s;
    assert NulFree(y);
  }

  /** A heartbeat has at most 80 characters, none of them NUL. */
  lemma WireSize(p: Packet)
    requires DoubleSized(p.time) && DoubleSized(p.volume)
    ensures |Serialize(p)| <= 80 && NulFree(Serialize(p))
  {
    PrintedLength(p.time);
    PrintedLength(p.volume);
    IntegerSizes(p);
    PrintedShape(p.time);
    PrintedShape(p.volume);
    PrintedIntShape(p.mute);
    PrintedIntShape(p.state);
    PrintedIntShape(p.base);
    FramedShape(PrintReal(p.time), PrintReal(p.volume), PrintInt(p.mute), PrintInt(p.state), PrintInt(p.base));
  }

  lemma IntegerSizes(p: Packet)
    ensures |PrintInt(p.mute)| <= 11 && |PrintInt(p.state)| <= 11 && |PrintInt(p.base)| <= 20
  {
    assert Pow10(10) == 10000000000;
    assert Pow10(20) == 100000000000000000000;
    PrintedIntLength(p.mute, 10);
    PrintedIntLength(p.state, 10);
    PrintedIntLength(p.base, 20);
  }

  /** A datagram received into a zeroed buffer of 1024 bytes and read as a C string. */
  function Received(datagram: string): string {
    var n := if |datagram| < 1024 then |datagram| else 1024;
    CString(datagram[..n] + seq(1024 - n, _ => '\0'))
  }

  lemma {:induction false} CStringStops(s: string, zeros: string)
    requires NulFree(s)
    requires zeros != "" && zeros[0] == '\0'
    ensures CString(s + zeros) == s
  {
    if s == "" {
      assert s + zeros == zeros;
    } else {
      assert (s + zeros)[1..] == s[1..] + zeros;
      CStringStops(s[1..], zeros);
    }
  }

  /** Every heartbeat passes unchanged through the client's receive buffer. */
  lemma HeartbeatReceived(p: Packet)
    requires DoubleSized(p.time) && DoubleSized(p.volume)
    ensures Received(Serialize(p)) == Serialize(p)
  {
    var s := Serialize(p);
    WireSize(p);
    assert s[..|s|] == s;
    CStringStops(s, seq(1024 - |s|, _ => '\0'));
  }
}
