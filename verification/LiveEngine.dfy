/**
 The live engine's event loop. Events are taken from the channel in batches of
 whatever has arrived, ticks are coalesced within a batch, and the rest is
 dispatched unless the engine is paused or stopped.
 */
module LiveEngine {
  import opened Ordering

  datatype Event =
    | Tick(symbol: string, exchange: string, price: int)
    | Bar(id: int)
    | Signal(id: int)
    | Timer(id: int)
    | OrderUpdate(id: int)
    | BalanceUpdate(id: int)
    | PositionUpdate(id: int)
    | Pause
    | Resume
    | Stop

  predicate IsOms(e: Event) { e.OrderUpdate? || e.BalanceUpdate? || e.PositionUpdate? }

  predicate TickFor(e: Event, key: (string, string)) { e.Tick? && (e.symbol, e.exchange) == key }

  // ---------------------------------------------------------------------
  // Coalescing
  // ---------------------------------------------------------------------

  predicate HasTick(events: seq<Event>, key: (string, string)) {
    exists e :: e in events && TickFor(e, key)
  }

  /** Drop every tick that a later one of the same symbol and exchange replaces. */
  function Coalesce(events: seq<Event>): seq<Event> {
    if events == [] then []
    else if events[0].Tick? && HasTick(events[1..], (events[0].symbol, events[0].exchange)) then Coalesce(events[1..])
    else [events[0]] + Coalesce(events[1..])
  }

  /** `last` maps each key to the index of its last tick. */
  ghost predicate LastIndices(last: map<(string, string), nat>, events: seq<Event>) {
    && (forall key :: key in last ==> last[key] < |events| && TickFor(events[last[key]], key))
    && (forall key, i :: key in last && last[key] < i < |events| ==> !TickFor(events[i], key))
    && (forall i :: 0 <= i < |events| && events[i].Tick? ==> (events[i].symbol, events[i].exchange) in last)
  }

  lemma LastIndicesMore(last: map<(string, string), nat>, events: seq<Event>, e: Event)
    requires LastIndices(last, events)
    ensures LastIndices(if e.Tick? then last[(e.symbol, e.exchange) := |events|] else last, events + [e])
  {}

  method LastSeen(events: seq<Event>) returns (last: map<(string, string), nat>)
    ensures LastIndices(last, events)
  {
    last := map[];
    for i := 0 to |events|
      invariant LastIndices(last, events[..i])
    {
      LastIndicesMore(last, events[..i], events[i]);
      assert events[..i + 1] == events[..i] + [events[i]];
      if events[i].Tick? {
        last := last[(events[i].symbol, events[i].exchange) := i];
      }
    }
    assert events[..|events|] == events;
  }

  method CoalesceTicks(events: seq<Event>) returns (out: seq<Event>)
    ensures out == Coalesce(events)
  {
    var last := LastSeen(events);
    var keep := set key | key in last :: last[key];
    out := [];
    for i := 0 to |events|
      invariant out + Coalesce(events[i..]) == Coalesce(events)
    {
      assert events[i..][1..] == events[i + 1..];
      if events[i].Tick? { KeptIffLast(last, events, i); }
      if !events[i].Tick? || i in keep { out := out + [events[i]]; }
    }
  }

  lemma KeptIffLast(last: map<(string, string), nat>, events: seq<Event>, i: nat)
    requires LastIndices(last, events) && i < |events| && events[i].Tick?
    ensures (exists key :: key in last && last[key] == i) <==> !HasTick(events[i + 1..], (events[i].symbol, events[i].exchange))
  {
    var key := (events[i].symbol, events[i].exchange);
    if last[key] != i {
      assert last[key] > i;
      assert events[i + 1..][last[key] - i - 1] == events[last[key]];
    } else {
      forall e | e in events[i + 1..] ensures !TickFor(e, key) {
        var k :| 0 <= k < |events[i + 1..]| && events[i + 1..][k] == e;
        assert events[i + 1 + k] == e;
      }
    }
  }

  // ---------------------------------------------------------------------
  // Dispatch
  // ---------------------------------------------------------------------

  predicate IsControl(e: Event) { e.Pause? || e.Resume? || e.Stop? }

  /** The pause flag after an event. */
  function Next(paused: bool, e: Event): bool {
    if e.Pause? then true else if e.Resume? then false else paused
  }

  /** What was dispatched, and how the engine was left. */
  datatype Outcome = Outcome(sent: seq<Event>, paused: bool, stopped: bool)

  /** While paused only order, balance and position updates go through; a stop drops everything after it. */
  function Deliver(paused: bool, events: seq<Event>): Outcome
    decreases |events|
  {
    if events == [] then Outcome([], paused, false)
    else
      match events[0]
      case Pause => Deliver(true, events[1..])
      case Resume => Deliver(false, events[1..])
      case Stop => Outcome([], paused, true)
      case e =>
        var rest := Deliver(paused, events[1..]);
        if paused && !IsOms(e) then rest else rest.(sent := [e] + rest.sent)
  }

  function Then(x: Outcome, y: Outcome): Outcome {
    if x.stopped then x else Outcome(x.sent + y.sent, y.paused, y.stopped)
  }

  /** The whole run: batch after batch until a stop. */
  function RunBatches(paused: bool, batches: seq<seq<Event>>): Outcome
    decreases |batches|
  {
    if batches == [] then Outcome([], paused, false)
    else
      var x := Deliver(paused, Coalesce(batches[0]));
      Then(x, RunBatches(x.paused, batches[1..]))
  }

  ghost function Flatten(batches: seq<seq<Event>>): seq<Event> {
    if batches == [] then [] else batches[0] + Flatten(batches[1..])
  }

  function NonTicks(events: seq<Event>): seq<Event> {
    if events == [] then [] else (if events[0].Tick? then [] else [events[0]]) + NonTicks(events[1..])
  }

  lemma DeliverCons(paused: bool, e: Event, rest: seq<Event>)
    ensures Deliver(paused, [e] + rest) ==
            if e.Stop? then Outcome([], paused, true)
            else
              var x := Deliver(Next(paused, e), rest);
              if IsControl(e) || (paused && !IsOms(e)) then x else x.(sent := [e] + x.sent)
  {
    assert ([e] + rest)[1..] == rest;
  }

  lemma NonTicksCons(e: Event, rest: seq<Event>)
    ensures NonTicks([e] + rest) == if e.Tick? then NonTicks(rest) else [e] + NonTicks(rest)
  {
    assert ([e] + rest)[1..] == rest;
  }

  lemma {:induction false} DeliverAppend(paused: bool, a: seq<Event>, b: seq<Event>)
    ensures Deliver(paused, a + b) == Then(Deliver(paused, a), Deliver(Deliver(paused, a).paused, b))
    decreases |a|
  {
    if a == [] {
      assert a + b == b;
    } else {
      assert (a + b)[1..] == a[1..] + b;
      DeliverAppend(Next(paused, a[0]), a[1..], b);
    }
  }

  lemma {:induction false} NonTicksAppend(a: seq<Event>, b: seq<Event>)
    ensures NonTicks(a + b) == NonTicks(a) + NonTicks(b)
  {
    if a == [] {
      assert a + b == b;
    } else {
      assert (a + b)[1..] == a[1..] + b;
      NonTicksAppend(a[1..], b);
    }
  }

  lemma {:induction false} CoalesceKeepsOthers(events: seq<Event>)
    ensures NonTicks(Coalesce(events)) == NonTicks(events)
  {
    if events != [] {
      CoalesceKeepsOthers(events[1..]);
      var rest := Coalesce(events[1..]);
      assert ([events[0]] + rest)[1..] == rest;
    }
  }

  /** Ticks never influence what else is dispatched. */
  lemma {:induction false} TicksDontMatter(paused: bool, events: seq<Event>)
    ensures Deliver(paused, NonTicks(events)) == Deliver(paused, events).(sent := NonTicks(Deliver(paused, events).sent))
    decreases |events|
  {
    if events != [] {
      var e, rest := events[0], events[1..];
      assert events == [e] + rest;
      TicksDontMatter(Next(paused, e), rest);
      NonTicksCons(e, rest);
      DeliverCons(paused, e, rest);
      DeliverCons(paused, e, NonTicks(rest));
      NonTicksCons(e, Deliver(Next(paused, e), rest).sent);
    }
  }

  lemma NonTicksThen(x: Outcome, y: Outcome)
    ensures NonTicks(Then(x, y).sent) == if x.stopped then NonTicks(x.sent) else NonTicks(x.sent) + NonTicks(y.sent)
  {
    if !x.stopped { NonTicksAppend(x.sent, y.sent); }
  }

  /**
   However the channel is cut into batches, everything but ticks is dispatched as if the events had
   been handled one by one in their order of arrival, and the engine ends in the same state.
   */
  lemma {:induction false} CutsDontMatter(paused: bool, batches: seq<seq<Event>>)
    ensures var run, plain := RunBatches(paused, batches), Deliver(paused, Flatten(batches));
            NonTicks(run.sent) == NonTicks(plain.sent) && run.paused == plain.paused && run.stopped == plain.stopped
    decreases |batches|
  {
    if batches != [] {
      var first, rest := batches[0], batches[1..];
      var x, y := Deliver(paused, Coalesce(first)), Deliver(paused, first);
      TicksDontMatter(paused, Coalesce(first));
      TicksDontMatter(paused, first);
      CoalesceKeepsOthers(first);
      assert NonTicks(x.sent) == NonTicks(y.sent) && x.paused == y.paused && x.stopped == y.stopped;
      DeliverAppend(paused, first, Flatten(rest));
      CutsDontMatter(x.paused, rest);
      NonTicksThen(x, RunBatches(x.paused, rest));
      NonTicksThen(y, Deliver(y.paused, Flatten(rest)));
    }
  }

  // ---------------------------------------------------------------------
  // What gets through
  // ---------------------------------------------------------------------

  function OmsOf(events: seq<Event>): seq<Event> {
    if events == [] then [] else (if IsOms(events[0]) then [events[0]] else []) + OmsOf(events[1..])
  }

  function UpToStop(events: seq<Event>): seq<Event> {
    if events == [] || events[0].Stop? then [] else [events[0]] + UpToStop(events[1..])
  }

  lemma {:induction false} OmsOfNonTicks(events: seq<Event>)
    ensures OmsOf(NonTicks(events)) == OmsOf(events)
  {
    if events != [] {
      OmsOfNonTicks(events[1..]);
      assert NonTicks(events) == if events[0].Tick? then NonTicks(events[1..]) else [events[0]] + NonTicks(events[1..]);
      assert ([events[0]] + NonTicks(events[1..]))[1..] == NonTicks(events[1..]);
    }
  }

  lemma {:induction false} OmsDelivered(paused: bool, events: seq<Event>)
    ensures OmsOf(Deliver(paused, events).sent) == OmsOf(UpToStop(events))
    decreases |events|
  {
    if events != [] && !events[0].Stop? {
      var e, rest := events[0], events[1..];
      var next := Next(paused, e);
      OmsDelivered(next, rest);
      assert ([e] + UpToStop(rest))[1..] == UpToStop(rest);
      assert ([e] + Deliver(next, rest).sent)[1..] == Deliver(next, rest).sent;
    }
  }

  /** Every order, balance or position update before the first stop is dispatched once, in order, paused or not. */
  lemma OmsAlwaysDelivered(paused: bool, batches: seq<seq<Event>>)
    ensures OmsOf(RunBatches(paused, batches).sent) == OmsOf(UpToStop(Flatten(batches)))
  {
    var run, plain := RunBatches(paused, batches).sent, Deliver(paused, Flatten(batches)).sent;
    CutsDontMatter(paused, batches);
    OmsOfNonTicks(run);
    OmsOfNonTicks(plain);
    OmsDelivered(paused, Flatten(batches));
  }

  // ---------------------------------------------------------------------
  // Position by position
  // ---------------------------------------------------------------------

  /** The event at position `i` gets through when events are handled one by one. */
  predicate Through(paused: bool, events: seq<Event>, i: nat)
    requires i < |events|
    decreases i
  {
    if i == 0 then !IsControl(events[0]) && (!paused || IsOms(events[0]))
    else !events[0].Stop? && Through(Next(paused, events[0]), events[1..], i - 1)
  }

  predicate Replaced(events: seq<Event>, i: nat)
    requires i < |events|
  {
    events[i].Tick? && HasTick(events[i + 1..], (events[i].symbol, events[i].exchange))
  }

  /** The event at position `i` in the order of arrival is dispatched: it gets through, and is no tick replaced in its batch. */
  ghost predicate Dispatched(paused: bool, batches: seq<seq<Event>>, i: nat)
    requires i < |Flatten(batches)|
    decreases |batches|
  {
    var first, x := batches[0], Deliver(paused, Coalesce(batches[0]));
    if i < |first| then Through(paused, first, i) && !Replaced(first, i)
    else !x.stopped && Dispatched(x.paused, batches[1..], i - |first|)
  }

  ghost function BatchMask(paused: bool, events: seq<Event>): (mask: seq<bool>)
    ensures |mask| == |events| && forall i :: 0 <= i < |events| ==> mask[i] == (Through(paused, events, i) && !Replaced(events, i))
  {
    seq(|events|, i requires 0 <= i < |events| => Through(paused, events, i) && !Replaced(events, i))
  }

  ghost function RunMask(paused: bool, batches: seq<seq<Event>>): (mask: seq<bool>)
    ensures |mask| == |Flatten(batches)| && forall i :: 0 <= i < |mask| ==> mask[i] == Dispatched(paused, batches, i)
  {
    seq(|Flatten(batches)|, i requires 0 <= i < |Flatten(batches)| => Dispatched(paused, batches, i))
  }

  ghost function Picked(events: seq<Event>, mask: seq<bool>): seq<Event>
    requires |mask| == |events|
  {
    if events == [] then [] else (if mask[0] then [events[0]] else []) + Picked(events[1..], mask[1..])
  }

  lemma {:induction false} PickedAppend(a: seq<Event>, m: seq<bool>, b: seq<Event>, n: seq<bool>)
    requires |a| == |m| && |b| == |n|
    ensures Picked(a + b, m + n) == Picked(a, m) + Picked(b, n)
  {
    if a == [] {
      assert a + b == b && m + n == n;
    } else {
      assert (a + b)[1..] == a[1..] + b && (m + n)[1..] == m[1..] + n;
      PickedAppend(a[1..], m[1..], b, n);
      var first := if m[0] then [a[0]] else [];
      assert first + (Picked(a[1..], m[1..]) + Picked(b, n)) == first + Picked(a[1..], m[1..]) + Picked(b, n);
    }
  }

  lemma {:induction false} PickedNothing(events: seq<Event>, mask: seq<bool>)
    requires |mask| == |events| && forall i :: 0 <= i < |mask| ==> !mask[i]
    ensures Picked(events, mask) == []
  {
    if events != [] { PickedNothing(events[1..], mask[1..]); }
  }

  lemma PickedCons(e: Event, rest: seq<Event>, m: bool, mask: seq<bool>)
    requires |mask| == |rest|
    ensures Picked([e] + rest, [m] + mask) == if m then [e] + Picked(rest, mask) else Picked(rest, mask)
  {
    assert ([e] + rest)[1..] == rest && ([m] + mask)[1..] == mask;
  }

  lemma ReplacedCons(e: Event, rest: seq<Event>, i: nat)
    requires i < |rest|
    ensures Replaced([e] + rest, i + 1) == Replaced(rest, i)
  {
    assert ([e] + rest)[i + 2..] == rest[i + 1..];
  }

  lemma ThroughCons(paused: bool, e: Event, rest: seq<Event>, i: nat)
    requires i < |rest|
    ensures Through(paused, [e] + rest, i + 1) == (!e.Stop? && Through(Next(paused, e), rest, i))
  {
    assert ([e] + rest)[1..] == rest;
  }

  /** The mask of a batch, one event at a time. */
  lemma BatchMaskCons(paused: bool, e: Event, rest: seq<Event>)
    requires !e.Stop?
    ensures BatchMask(paused, [e] + rest) == [BatchMask(paused, [e] + rest)[0]] + BatchMask(Next(paused, e), rest)
  {
    var mask, tail := BatchMask(paused, [e] + rest), BatchMask(Next(paused, e), rest);
    forall i | 0 <= i < |rest| ensures mask[i + 1] == tail[i] {
      ThroughCons(paused, e, rest, i);
      ReplacedCons(e, rest, i);
    }
  }

  lemma StopMask(paused: bool, e: Event, rest: seq<Event>)
    requires e.Stop?
    ensures forall i :: 0 <= i <= |rest| ==> !BatchMask(paused, [e] + rest)[i]
  {
    forall i | 0 < i <= |rest| ensures !BatchMask(paused, [e] + rest)[i] { ThroughCons(paused, e, rest, i - 1); }
  }

  /** A batch dispatches exactly the events its mask picks. */
  lemma {:induction false} BatchPicks(paused: bool, events: seq<Event>)
    ensures Deliver(paused, Coalesce(events)).sent == Picked(events, BatchMask(paused, events))
    decreases |events|
  {
    if events != [] {
      var e, rest := events[0], events[1..];
      assert events == [e] + rest;
      DeliverCons(paused, e, Coalesce(rest));
      if e.Stop? {
        StopMask(paused, e, rest);
        PickedNothing(events, BatchMask(paused, events));
      } else {
        BatchMaskCons(paused, e, rest);
        BatchPicks(Next(paused, e), rest);
        PickedCons(e, rest, BatchMask(paused, events)[0], BatchMask(Next(paused, e), rest));
      }
    }
  }

  lemma RunMaskSplit(paused: bool, batches: seq<seq<Event>>)
    requires batches != []
    ensures var n, x, mask := |batches[0]|, Deliver(paused, Coalesce(batches[0])), RunMask(paused, batches);
            && mask[..n] == BatchMask(paused, batches[0])
            && if x.stopped then forall i :: n <= i < |mask| ==> !mask[i] else mask[n..] == RunMask(x.paused, batches[1..])
  {}

  /** A run dispatches exactly the events its mask picks: each at most once, in the order of arrival. */
  lemma {:induction false} RunPicks(paused: bool, batches: seq<seq<Event>>)
    ensures RunBatches(paused, batches).sent == Picked(Flatten(batches), RunMask(paused, batches))
    decreases |batches|
  {
    if batches != [] {
      var first, rest := batches[0], batches[1..];
      var x, mask := Deliver(paused, Coalesce(first)), RunMask(paused, batches);
      RunMaskSplit(paused, batches);
      BatchPicks(paused, first);
      assert mask == mask[..|first|] + mask[|first|..];
      PickedAppend(first, mask[..|first|], Flatten(rest), mask[|first|..]);
      if x.stopped { PickedNothing(Flatten(rest), mask[|first|..]); } else { RunPicks(x.paused, rest); }
    }
  }

  lemma {:induction false} ThroughBefore(paused: bool, a: seq<Event>, b: seq<Event>, i: nat)
    requires i < |a|
    ensures Through(paused, a + b, i) == Through(paused, a, i)
    decreases i
  {
    if i > 0 {
      assert (a + b)[1..] == a[1..] + b;
      ThroughBefore(Next(paused, a[0]), a[1..], b, i - 1);
    }
  }

  lemma {:induction false} ThroughAfter(paused: bool, a: seq<Event>, b: seq<Event>, i: nat)
    requires i < |b|
    ensures Through(paused, a + b, |a| + i) <==> !Deliver(paused, a).stopped && Through(Deliver(paused, a).paused, b, i)
    decreases |a|
  {
    if a == [] {
      assert a + b == b;
    } else {
      assert (a + b)[1..] == a[1..] + b;
      ThroughAfter(Next(paused, a[0]), a[1..], b, i);
    }
  }

  lemma BatchOutcome(paused: bool, events: seq<Event>)
    ensures Deliver(paused, Coalesce(events)).paused == Deliver(paused, events).paused
    ensures Deliver(paused, Coalesce(events)).stopped == Deliver(paused, events).stopped
  {
    TicksDontMatter(paused, Coalesce(events));
    TicksDontMatter(paused, events);
    CoalesceKeepsOthers(events);
  }

  /**
   However the channel is cut, what is dispatched got through one by one, and whatever is no tick and got
   through one by one is dispatched.
   */
  lemma {:induction false} RunThrough(paused: bool, batches: seq<seq<Event>>, i: nat)
    requires i < |Flatten(batches)|
    ensures Dispatched(paused, batches, i) ==> Through(paused, Flatten(batches), i)
    ensures !Flatten(batches)[i].Tick? ==> Dispatched(paused, batches, i) == Through(paused, Flatten(batches), i)
    decreases |batches|
  {
    var first, rest := batches[0], batches[1..];
    if i < |first| {
      ThroughBefore(paused, first, Flatten(rest), i);
    } else {
      BatchOutcome(paused, first);
      ThroughAfter(paused, first, Flatten(rest), i - |first|);
      if !Deliver(paused, first).stopped { RunThrough(Deliver(paused, first).paused, rest, i - |first|); }
    }
  }

  lemma {:induction false} SilentFrom(events: seq<Event>, j: nat)
    requires j < |events| && !IsOms(events[j]) && forall m :: 0 <= m < j ==> !events[m].Resume?
    ensures !Through(true, events, j)
    decreases |events|
  {
    if j > 0 && !events[0].Stop? { SilentFrom(events[1..], j - 1); }
  }

  lemma {:induction false} SilentAfterPause(paused: bool, events: seq<Event>, k: nat, j: nat)
    requires k < j < |events| && events[k].Pause? && !IsOms(events[j]) && forall m :: k < m < j ==> !events[m].Resume?
    ensures !Through(paused, events, j)
    decreases |events|
  {
    if !events[0].Stop? {
      if k == 0 { SilentFrom(events[1..], j - 1); } else { SilentAfterPause(Next(paused, events[0]), events[1..], k - 1, j - 1); }
    }
  }

  /**
   However the channel is cut, and wherever in it a pause arrives: until the next resume no market or timer
   event is dispatched.
   */
  lemma SilentWhilePaused(paused: bool, batches: seq<seq<Event>>, k: nat, j: nat)
    requires k < j < |Flatten(batches)| && Flatten(batches)[k].Pause? && !IsOms(Flatten(batches)[j])
    requires forall m :: k < m < j ==> !Flatten(batches)[m].Resume?
    ensures !Dispatched(paused, batches, j)
  {
    RunThrough(paused, batches, j);
    SilentAfterPause(paused, Flatten(batches), k, j);
  }

  // ---------------------------------------------------------------------
  // Ticks
  // ---------------------------------------------------------------------

  function TicksFor(events: seq<Event>, key: (string, string)): seq<Event> {
    if events == [] then [] else (if TickFor(events[0], key) then [events[0]] else []) + TicksFor(events[1..], key)
  }

  function LastTick(events: seq<Event>, key: (string, string)): (i: nat)
    requires HasTick(events, key)
    ensures i < |events| && TickFor(events[i], key) && forall k :: i < k < |events| ==> !TickFor(events[k], key)
  {
    if HasTick(events[1..], key) then 1 + LastTick(events[1..], key)
    else
      assert forall k :: 0 < k < |events| ==> events[k] == events[1..][k - 1];
      0
  }

  /** The engine is neither paused nor stopped when it comes to position `i`. */
  predicate OpenAt(paused: bool, events: seq<Event>, i: nat)
    requires i < |events|
    decreases i
  {
    if i == 0 then !paused
    else !events[0].Stop? && OpenAt(Next(paused, events[0]), events[1..], i - 1)
  }

  /** The tick a batch should deliver for a key: its last one, if the engine is open when it gets there. */
  function TickDue(paused: bool, events: seq<Event>, key: (string, string)): seq<Event> {
    if HasTick(events, key) && OpenAt(paused, events, LastTick(events, key)) then [events[LastTick(events, key)]] else []
  }

  lemma TickDueCons(paused: bool, e: Event, rest: seq<Event>, key: (string, string))
    ensures var next := Next(paused, e);
            TickDue(paused, [e] + rest, key) ==
            if e.Stop? then [] else if HasTick(rest, key) then TickDue(next, rest, key) else if TickFor(e, key) && !paused then [e] else []
  {
    var events := [e] + rest;
    assert events[1..] == rest && events[0] == e;
    assert HasTick(events, key) <==> TickFor(e, key) || HasTick(rest, key);
  }

  /**
   A batch delivers exactly the last tick of each symbol and exchange - and no tick at all if the
   engine is paused or stopped by the time it gets there, even if earlier ticks would have got through.
   */
  lemma {:induction false} LastTickDelivered(paused: bool, events: seq<Event>, key: (string, string))
    ensures TicksFor(Deliver(paused, Coalesce(events)).sent, key) == TickDue(paused, events, key)
    decreases |events|
  {
    if events != [] {
      var e, rest := events[0], events[1..];
      assert events == [e] + rest;
      LastTickDelivered(Next(paused, e), rest, key);
      TickDueCons(paused, e, rest, key);
      if !(e.Tick? && HasTick(rest, (e.symbol, e.exchange))) {
        TickHead(paused, e, Coalesce(rest), key);
      }
    }
  }

  /** One event in front adds its own tick, if it is one and gets through. */
  lemma TickHead(paused: bool, e: Event, rest: seq<Event>, key: (string, string))
    ensures var next := Next(paused, e);
            var after := TicksFor(Deliver(next, rest).sent, key);
            TicksFor(Deliver(paused, [e] + rest).sent, key) ==
            if e.Stop? then [] else if TickFor(e, key) && !paused then [e] + after else after
  {
    var next := Next(paused, e);
    assert ([e] + rest)[1..] == rest;
    TicksCons(e, Deliver(next, rest).sent, key);
  }

  lemma TicksCons(e: Event, sent: seq<Event>, key: (string, string))
    ensures TicksFor([e] + sent, key) == if TickFor(e, key) then [e] + TicksFor(sent, key) else TicksFor(sent, key)
    ensures TicksFor([] + sent, key) == TicksFor(sent, key)
  {
    assert ([e] + sent)[1..] == sent && [] + sent == sent;
  }

  /** Of two ticks around a pause the first gets through one by one, and none in one batch. */
  lemma LostTick(first: Event, second: Event)
    requires first.Tick? && second.Tick? && first.symbol == second.symbol && first.exchange == second.exchange
    ensures var events := [first, Pause, second];
            Deliver(false, events).sent == [first] && Deliver(false, Coalesce(events)).sent == []
  {
    var events := [first, Pause, second];
    assert events[1..] == [Pause, second] && events[1..][1..] == [second] && [second][1..] == [];
    assert Deliver(true, [second]).sent == [] && Coalesce([second]) == [second];
    assert second in [Pause, second] && TickFor(second, (first.symbol, first.exchange));
    assert Coalesce(events[1..]) == [Pause, second] && Coalesce(events) == [Pause, second];
  }

  /** With no control command in it, an unpaused batch delivers the last tick of everything it has ticks for. */
  lemma {:induction false} OpenThroughout(events: seq<Event>, i: nat)
    requires i < |events| && forall e :: e in events ==> !e.Pause? && !e.Resume? && !e.Stop?
    ensures OpenAt(false, events, i)
    decreases i
  {
    if i > 0 { OpenThroughout(events[1..], i - 1); }
  }

  // ---------------------------------------------------------------------
  // The engine
  // ---------------------------------------------------------------------

  datatype Lifecycle = Starting | Running | Paused | Stopping | Stopped

  function Settled(paused: bool): Lifecycle { if paused then Paused else Running }

  /** A pause or resume shows only if it changes something. */
  function NextMode(mode: Lifecycle, paused: bool, e: Event): Lifecycle {
    if Next(paused, e) == paused then mode else Settled(Next(paused, e))
  }

  /** The lifecycle shown after the events, up to a stop. */
  function Shown(mode: Lifecycle, paused: bool, events: seq<Event>): Lifecycle
    decreases |events|
  {
    if events == [] || events[0].Stop? then mode
    else Shown(NextMode(mode, paused, events[0]), Next(paused, events[0]), events[1..])
  }

  /** An engine that shows whether it is paused goes on doing so. */
  lemma {:induction false} ShownIsSettled(paused: bool, events: seq<Event>)
    ensures Shown(Settled(paused), paused, events) == Settled(Deliver(paused, events).paused)
    decreases |events|
  {
    if events != [] && !events[0].Stop? { ShownIsSettled(Next(paused, events[0]), events[1..]); }
  }

  /** The lifecycle states published while batches are processed: one for each, and one more for a stop. */
  function Snapshots(mode: Lifecycle, paused: bool, batches: seq<seq<Event>>): seq<Lifecycle>
    decreases |batches|
  {
    if batches == [] then []
    else
      var x, m := Deliver(paused, Coalesce(batches[0])), Shown(mode, paused, Coalesce(batches[0]));
      [m] + if x.stopped then [Stopping] else Snapshots(m, x.paused, batches[1..])
  }

  /** How many of the events sent after `before` the strategy acts on. */
  ghost function Decisions(acts: seq<Event> -> bool, before: seq<Event>, sent: seq<Event>): nat
    decreases |sent|
  {
    if sent == [] then 0
    else (if acts(before + [sent[0]]) then 1 else 0) + Decisions(acts, before + [sent[0]], sent[1..])
  }

  lemma {:induction false} DecisionsAppend(acts: seq<Event> -> bool, before: seq<Event>, a: seq<Event>, b: seq<Event>)
    ensures Decisions(acts, before, a + b) == Decisions(acts, before, a) + Decisions(acts, before + a, b)
    decreases |a|
  {
    if a == [] {
      assert a + b == b && before + a == before;
    } else {
      assert (a + b)[1..] == a[1..] + b && before + [a[0]] + a[1..] == before + a;
      DecisionsAppend(acts, before + [a[0]], a[1..], b);
    }
  }

  /** What the loop carries from event to event. */
  datatype Engine = Engine(paused: bool, decisionSeq: nat, dispatched: seq<Event>)

  /** The engine after the outcome `x`. */
  ghost function Advance(acts: seq<Event> -> bool, s: Engine, x: Outcome): Engine {
    Engine(x.paused, s.decisionSeq + Decisions(acts, s.dispatched, x.sent), s.dispatched + x.sent)
  }

  lemma AdvanceThen(acts: seq<Event> -> bool, s: Engine, x: Outcome, y: Outcome)
    requires !x.stopped
    ensures Advance(acts, Advance(acts, s, x), y) == Advance(acts, s, Then(x, y))
  {
    DecisionsAppend(acts, s.dispatched, x.sent, y.sent);
    Regroup(s.dispatched, x.sent, y.sent);
  }

  /** One event other than a stop. */
  function Handle(acts: seq<Event> -> bool, s: Engine, e: Event): Engine {
    if e.Pause? then s.(paused := true)
    else if e.Resume? then s.(paused := false)
    else if s.paused && !IsOms(e) then s
    else s.(dispatched := s.dispatched + [e], decisionSeq := s.decisionSeq + if acts(s.dispatched + [e]) then 1 else 0)
  }

  /** Where the events that are left lead the engine from `s`. */
  ghost function Reach(acts: seq<Event> -> bool, s: Engine, left: seq<Event>): Engine {
    Advance(acts, s, Deliver(s.paused, left))
  }

  lemma ReachNothing(acts: seq<Event> -> bool, s: Engine, x: Outcome)
    requires x.paused == s.paused && x.sent == []
    ensures Advance(acts, s, x) == s
  {
    assert s.dispatched + [] == s.dispatched;
  }

  lemma HandleReaches(acts: seq<Event> -> bool, s: Engine, e: Event, left: seq<Event>)
    requires !e.Stop?
    ensures Reach(acts, Handle(acts, s, e), left) == Reach(acts, s, [e] + left)
    ensures Deliver(Handle(acts, s, e).paused, left).stopped == Deliver(s.paused, [e] + left).stopped
  {
    DeliverCons(s.paused, e, left);
    if !IsControl(e) && (!s.paused || IsOms(e)) {
      var sent := Deliver(s.paused, left).sent;
      assert ([e] + sent)[1..] == sent;
      Regroup(s.dispatched, [e], sent);
    }
  }

  /** Handle events one by one, up to a stop. */
  method DispatchAll(acts: seq<Event> -> bool, s: Engine, mode: Lifecycle, events: seq<Event>) returns (s': Engine, mode': Lifecycle, stop: bool)
    ensures s' == Advance(acts, s, Deliver(s.paused, events))
    ensures mode' == Shown(mode, s.paused, events)
    ensures stop == Deliver(s.paused, events).stopped
  {
    s', mode' := s, mode;
    assert events[0..] == events;
    for i := 0 to |events|
      invariant Reach(acts, s', events[i..]) == Reach(acts, s, events)
      invariant Shown(mode', s'.paused, events[i..]) == Shown(mode, s.paused, events)
      invariant Deliver(s'.paused, events[i..]).stopped == Deliver(s.paused, events).stopped
    {
      assert events[i..] == [events[i]] + events[i + 1..] && events[i..][1..] == events[i + 1..];
      if events[i].Stop? {
        ReachNothing(acts, s', Deliver(s'.paused, events[i..]));
        return s', mode', true;
      }
      HandleReaches(acts, s', events[i], events[i + 1..]);
      s', mode' := Handle(acts, s', events[i]), NextMode(mode', s'.paused, events[i]);
    }
    ReachNothing(acts, s', Deliver(s'.paused, events[|events|..]));
    return s', mode', false;
  }

  /** Dispatch a batch up to a stop, and publish how it left the engine. */
  method RunBatch(acts: seq<Event> -> bool, s: Engine, mode: Lifecycle, batch: seq<Event>)
    returns (s': Engine, mode': Lifecycle, snapshots: seq<Lifecycle>, stop: bool)
    ensures s' == Advance(acts, s, Deliver(s.paused, Coalesce(batch)))
    ensures mode' == Shown(mode, s.paused, Coalesce(batch))
    ensures stop == Deliver(s.paused, Coalesce(batch)).stopped
    ensures snapshots == Snapshots(mode, s.paused, [batch])
  {
    var events := CoalesceTicks(batch);
    s', mode', stop := DispatchAll(acts, s, mode, events);
    snapshots := [mode'];
    assert [batch][1..] == [];
    if stop { snapshots := snapshots + [Stopping]; }
  }

  /** The batches that are left lead from `s`, with `published` out already, to `end` with `log` out. */
  ghost predicate Leads(acts: seq<Event> -> bool, s: Engine, mode: Lifecycle, published: seq<Lifecycle>, left: seq<seq<Event>>,
                        end: Engine, log: seq<Lifecycle>)
  {
    end == Advance(acts, s, RunBatches(s.paused, left)) && log == published + Snapshots(mode, s.paused, left)
  }

  lemma NothingLeads(acts: seq<Event> -> bool, s: Engine, mode: Lifecycle, published: seq<Lifecycle>, end: Engine, log: seq<Lifecycle>)
    requires Leads(acts, s, mode, published, [], end, log)
    ensures s == end && published == log
  {
    assert s.dispatched + [] == s.dispatched && published + [] == published;
  }

  /** What one batch leads to: the end, if it holds a stop, and else what the batches after it lead on from. */
  lemma BatchLeads(acts: seq<Event> -> bool, s: Engine, mode: Lifecycle, published: seq<Lifecycle>, left: seq<seq<Event>>,
                   end: Engine, log: seq<Lifecycle>)
    requires left != [] && Leads(acts, s, mode, published, left, end, log)
    ensures var x := Deliver(s.paused, Coalesce(left[0]));
            var s', mode' := Advance(acts, s, x), Shown(mode, s.paused, Coalesce(left[0]));
            var published' := published + Snapshots(mode, s.paused, [left[0]]);
            if x.stopped then s' == end && published' == log else Leads(acts, s', mode', published', left[1..], end, log)
  {
    BatchAdvances(acts, s, left);
    BatchPublishes(mode, s.paused, published, left);
  }

  lemma BatchAdvances(acts: seq<Event> -> bool, s: Engine, left: seq<seq<Event>>)
    requires left != []
    ensures var x := Deliver(s.paused, Coalesce(left[0]));
            Advance(acts, s, RunBatches(s.paused, left)) ==
            if x.stopped then Advance(acts, s, x) else Advance(acts, Advance(acts, s, x), RunBatches(x.paused, left[1..]))
  {
    var x := Deliver(s.paused, Coalesce(left[0]));
    if !x.stopped { AdvanceThen(acts, s, x, RunBatches(x.paused, left[1..])); }
  }

  lemma BatchPublishes(mode: Lifecycle, paused: bool, published: seq<Lifecycle>, left: seq<seq<Event>>)
    requires left != []
    ensures var x, m := Deliver(paused, Coalesce(left[0])), Shown(mode, paused, Coalesce(left[0]));
            var published' := published + Snapshots(mode, paused, [left[0]]);
            published + Snapshots(mode, paused, left) == if x.stopped then published' else published' + Snapshots(m, x.paused, left[1..])
  {
    var x, m := Deliver(paused, Coalesce(left[0])), Shown(mode, paused, Coalesce(left[0]));
    assert [left[0]][1..] == [];
    if !x.stopped {
      assert Snapshots(mode, paused, [left[0]]) == [m];
      Regroup(published, [m], Snapshots(m, x.paused, left[1..]));
    }
  }

  /** Process batches until the channel closes or a stop arrives. */
  method RunAll(acts: seq<Event> -> bool, s: Engine, batches: seq<seq<Event>>) returns (s': Engine, snapshots: seq<Lifecycle>)
    ensures s' == Advance(acts, s, RunBatches(s.paused, batches))
    ensures snapshots == Snapshots(Running, s.paused, batches)
  {
    s', snapshots := s, [];
    var mode := Running;
    ghost var end, log := Advance(acts, s, RunBatches(s.paused, batches)), Snapshots(Running, s.paused, batches);
    assert batches[0..] == batches;
    for i := 0 to |batches|
      invariant Leads(acts, s', mode, snapshots, batches[i..], end, log)
    {
      BatchLeads(acts, s', mode, snapshots, batches[i..], end, log);
      assert batches[i..][1..] == batches[i + 1..];
      var more, stop;
      s', mode, more, stop := RunBatch(acts, s', mode, batches[i]);
      snapshots := snapshots + more;
      if stop { return; }
    }
    NothingLeads(acts, s', mode, snapshots, end, log);
  }

  class LiveEngine {
    /** Whether the strategy acts on the last of the events dispatched to it so far. */
    const acts: seq<Event> -> bool
    var lifecycle: Lifecycle
    var state: Engine
    var published: seq<Lifecycle>

    constructor (acts: seq<Event> -> bool)
      ensures this.acts == acts && lifecycle == Starting && state == Engine(false, 0, []) && published == []
    {
      this.acts, lifecycle, state, published := acts, Starting, Engine(false, 0, []), [];
    }

    /** Run until the channel closes or a stop arrives. */
    method Run(batches: seq<seq<Event>>)
      modifies this
      ensures state == Advance(acts, old(state), RunBatches(old(state).paused, batches)) && lifecycle == Stopped
      ensures published == old(published) + Snapshots(Running, old(state).paused, batches) + [Stopped]
    {
      lifecycle := Running;
      var snapshots;
      state, snapshots := RunAll(acts, state, batches);
      lifecycle := Stopped;
      published := published + snapshots + [lifecycle];
    }
  }
}
