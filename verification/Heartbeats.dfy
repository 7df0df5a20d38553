/** How often a server broadcasts heartbeats (source/nsvr/nsvr_player_server.cpp). */
module Heartbeats {
  import opened Players
  import opened Updates
  import opened Preservation
  import opened Runs

  /** Nothing that opens, closes or changes the frequency from `f`; setting it to `f` is allowed. */
  predicate Steady(e: Event, f: UInt32) {
    !e.DoOpen? && !e.DoClose? && (e.DoSetFrequency? ==> e.frequency == f)
  }

  ghost predicate AllSteady(events: seq<Event>, f: UInt32) {
    forall k :: 0 <= k < |events| ==> Steady(events[k], f)
  }

  /** The updates that `d` heartbeats take, `k` for each. */
  function Taken(d: nat, k: nat): nat { if d == 0 then 0 else Taken(d - 1, k) + k }

  lemma {:induction false} TakenIs(d: nat, k: nat)
    ensures Taken(d, k) == d * k
  {
    if d > 0 {
      TakenIs(d - 1, k);
      assert d * k == (d - 1) * k + k;
    }
  }

  /** After `n` updates and `d` heartbeats the counter `c` is what is left over. */
  predicate Counted(c: nat, f: nat, n: nat, d: nat) {
    if n == 0 then c == 0 && d == 0 else 1 <= c <= f + 1 && Taken(d, f + 1) + c == n
  }

  lemma AdvanceKeeps(s: PlayerState)
    ensures BusKeeps(s.(pipe := s.pipe.(base := AdvanceSeek(s).pipe.base)), AdvanceSeek(s))
  {}

  /** The counter is an unsigned 32-bit number. */
  function Wrapped(c: UInt32): UInt32 { if c == 0xFFFF_FFFF then 0 else c + 1 }

  lemma UpdateCounts(s: PlayerState, messages: seq<string>)
    requires s.kind.Server? && s.open
    ensures var t := Update(s, messages);
            t.kind == s.kind && t.open && t.net.frequency == s.net.frequency &&
            if s.net.counter > s.net.frequency then t.net.counter == 1 && |t.net.sent| == |s.net.sent| + 1
            else t.net.counter == Wrapped(s.net.counter) && t.net.sent == s.net.sent
  {
    AdvanceKeeps(CountHeartbeat(s));
    DrainKeeps(ServerBeforeUpdate(s));
  }

  lemma CommandKeepsCount(s: PlayerState, e: Event)
    requires s.kind.Server? && s.open && Steady(e, s.net.frequency) && !e.DoUpdate?
    ensures var t := Step(s, e);
            t.kind == s.kind && t.open && t.net.frequency == s.net.frequency && t.net.counter == s.net.counter &&
            t.net.sent == s.net.sent
  {
    if IsCommand(e) {
      CommandKeeps(s, e);
    }
  }

  /** What `Counted` says of a server that started with `sent` heartbeats broadcast. */
  ghost predicate OnCount(s: PlayerState, f: UInt32, n: nat, sent: nat) {
    s.kind.Server? && s.open && s.net.frequency == f && |s.net.sent| >= sent &&
    Counted(s.net.counter, f, n, |s.net.sent| - sent)
  }

  lemma CountOneMore(c: UInt32, f: UInt32, n: nat, d: nat, next: nat, sent: nat)
    requires f < 0xFFFF_FFFF && Counted(c, f, n, d)
    requires if c > f then next == 1 && sent == d + 1 else next == Wrapped(c) && sent == d
    ensures Counted(next, f, n + 1, sent)
  {}

  lemma UpdateOnCount(s: PlayerState, messages: seq<string>, f: UInt32, n: nat, sent: nat)
    requires f < 0xFFFF_FFFF && OnCount(s, f, n, sent)
    ensures OnCount(Update(s, messages), f, n + 1, sent)
  {
    var t := Update(s, messages);
    UpdateCounts(s, messages);
    CountOneMore(s.net.counter, f, n, |s.net.sent| - sent, t.net.counter, |t.net.sent| - sent);
  }

  lemma StepCounts(s: PlayerState, e: Event, f: UInt32, n: nat, sent: nat)
    requires f < 0xFFFF_FFFF && Steady(e, f) && OnCount(s, f, n, sent)
    ensures OnCount(Step(s, e), f, if e.DoUpdate? then n + 1 else n, sent)
  {
    if e.DoUpdate? {
      UpdateOnCount(s, e.messages, f, n, sent);
    } else {
      CommandKeepsCount(s, e);
    }
  }

  lemma {:induction false} RunCounts(s: PlayerState, events: seq<Event>, f: UInt32, n: nat, sent: nat)
    requires f < 0xFFFF_FFFF && AllSteady(events, f) && OnCount(s, f, n, sent)
    ensures OnCount(Run(s, events), f, n + UpdateCount(events), sent)
    decreases |events|
  {
    if events != [] {
      StepCounts(s, events[0], f, n, sent);
      RunCounts(Step(s, events[0]), events[1..], f, if events[0].DoUpdate? then n + 1 else n, sent);
    }
  }

  /** The heartbeats due after `n` updates at frequency `f`. */
  function Due(n: nat, f: nat): nat { if n == 0 then 0 else (n - 1) / (f + 1) }

  lemma CountedIsDue(c: nat, f: nat, n: nat, d: nat)
    requires Counted(c, f, n, d)
    ensures c <= f + 1 && d == Due(n, f)
  {
    if n > 0 {
      var k := f + 1;
      TakenIs(d, k);
      SameQuotient((n - 1) / k, (n - 1) % k, d, c - 1, k);
    }
  }

  lemma OnCountIsDue(t: PlayerState, f: UInt32, n: nat, sent: nat)
    requires OnCount(t, f, n, sent)
    ensures t.net.counter <= f + 1 && |t.net.sent| - sent == Due(n, f)
  {
    CountedIsDue(t.net.counter, f, n, |t.net.sent| - sent);
  }

  lemma SameQuotient(a: int, r: nat, b: int, t: nat, k: nat)
    requires r < k && t < k && a * k + r == b * k + t
    ensures a == b
  {
    NoGreater(a, r, b, t, k);
    NoGreater(b, t, a, r, k);
  }

  lemma NoGreater(a: int, r: nat, b: int, t: nat, k: nat)
    requires r < k && t < k && a * k + r == b * k + t
    ensures a <= b
  {
    if a > b {
      AtLeastOnce(a - b, k);
      assert false;
    }
  }

  lemma AtLeastOnce(d: int, k: nat)
    requires d >= 1
    ensures d * k >= k
  {}

  /** From a counter of zero and at constant frequency f, n updates broadcast
      floor((n - 1) / (f + 1)) heartbeats, whatever else the application does. */
  lemma HeartbeatCount(s: PlayerState, events: seq<Event>)
    requires s.kind.Server? && s.open && s.net.counter == 0 && s.net.frequency < 0xFFFF_FFFF
    requires AllSteady(events, s.net.frequency)
    ensures var t := Run(s, events);
            t.net.counter <= s.net.frequency + 1 &&
            |t.net.sent| - |s.net.sent| == Due(UpdateCount(events), s.net.frequency)
  {
    RunCounts(s, events, s.net.frequency, 0, |s.net.sent|);
    OnCountIsDue(Run(s, events), s.net.frequency, UpdateCount(events), |s.net.sent|);
  }

  /** In every run, after an update that broadcasts, the next f updates do not and the one
      after them does, and so on: k updates broadcast floor(k / (f + 1)) more. */
  lemma HeartbeatSpacing(s: PlayerState, messages: seq<string>, events: seq<Event>)
    requires s.kind.Server? && s.open && s.net.frequency < 0xFFFF_FFFF
    requires |Update(s, messages).net.sent| > |s.net.sent| && AllSteady(events, s.net.frequency)
    ensures var t := Update(s, messages);
            |t.net.sent| == |s.net.sent| + 1 &&
            |Run(t, events).net.sent| - |t.net.sent| == UpdateCount(events) / (s.net.frequency + 1)
  {
    var t, f := Update(s, messages), s.net.frequency;
    UpdateCounts(s, messages);
    assert OnCount(t, f, 1, |t.net.sent|);
    RunCounts(t, events, f, 1, |t.net.sent|);
    OnCountIsDue(Run(t, events), f, 1 + UpdateCount(events), |t.net.sent|);
    DueAfterOne(UpdateCount(events), f);
  }

  lemma DueAfterOne(k: nat, f: nat)
    ensures Due(1 + k, f) == k / (f + 1)
  {}

  /** A real change of frequency restarts the count, wherever it was. */
  lemma FrequencyChangeRestarts(s: PlayerState, f: UInt32, events: seq<Event>)
    requires s.kind.Server? && s.open && f < 0xFFFF_FFFF && f != s.net.frequency
    requires AllSteady(events, f)
    ensures |Run(Step(s, DoSetFrequency(f)), events).net.sent| - |s.net.sent| == Due(UpdateCount(events), f)
  {
    HeartbeatCount(Step(s, DoSetFrequency(f)), events);
  }

  /** Setting the frequency that is already set changes nothing at all. */
  lemma SameFrequencyIsIgnored(s: PlayerState)
    ensures Step(s, DoSetFrequency(s.net.frequency)) == s
  {}

  /** At the largest frequency the counter wraps before it exceeds it: no heartbeat ever. */
  lemma {:induction false} LargestFrequencyIsSilent(s: PlayerState, events: seq<Event>)
    requires s.kind.Server? && s.open && s.net.frequency == 0xFFFF_FFFF
    requires AllSteady(events, s.net.frequency)
    ensures Run(s, events).net.sent == s.net.sent
    decreases |events|
  {
    if events != [] {
      if events[0].DoUpdate? {
        UpdateCounts(s, events[0].messages);
      } else {
        CommandKeepsCount(s, events[0]);
      }
      LargestFrequencyIsSilent(Step(s, events[0]), events[1..]);
    }
  }
}
