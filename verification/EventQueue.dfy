/**
 The backtest event queue: a merge of pre-sorted streams and a small heap of events
 made during the simulation. Together they behave as one priority queue.
 */
module EventQueue {
  import opened Ordering

  datatype Kind = Tick | Signal | Bar | BalanceUpdate | PositionUpdate | OrderUpdate | Timer

  datatype Event = Event(ts: int, kind: Kind, payload: int)

  function Priority(kind: Kind): int {
    match kind
    case Tick => 10
    case Signal => 9
    case Bar => 8
    case BalanceUpdate => 7
    case PositionUpdate => 7
    case OrderUpdate => 6
    case Timer => 5
  }

  /** Earlier first; at the same time higher priority first. */
  predicate Before(a: Event, b: Event) {
    a.ts < b.ts || (a.ts == b.ts && Priority(a.kind) > Priority(b.kind))
  }

  // ---------------------------------------------------------------------
  // One priority queue, as a multiset
  // ---------------------------------------------------------------------

  datatype Op = Push(e: Event) | AddStream(events: seq<Event>) | Pop(popped: Event)

  /** Only an earliest event may be popped. */
  ghost predicate Legal(m: multiset<Event>, op: Op) {
    op.Pop? ==> op.popped in m && forall e :: e in m ==> op.popped.ts <= e.ts
  }

  function After(m: multiset<Event>, op: Op): multiset<Event> {
    match op
    case Push(e) => m + multiset{e}
    case AddStream(events) => m + multiset(events)
    case Pop(e) => m - multiset{e}
  }

  ghost predicate LegalRun(m: multiset<Event>, ops: seq<Op>)
    decreases |ops|
  {
    ops == [] || (Legal(m, ops[0]) && LegalRun(After(m, ops[0]), ops[1..]))
  }

  ghost function AfterAll(m: multiset<Event>, ops: seq<Op>): multiset<Event>
    decreases |ops|
  {
    if ops == [] then m else AfterAll(After(m, ops[0]), ops[1..])
  }

  ghost function Popped(ops: seq<Op>): seq<Event> {
    if ops == [] then [] else (if ops[0].Pop? then [ops[0].popped] else []) + Popped(ops[1..])
  }

  ghost function Added(ops: seq<Op>): multiset<Event> {
    if ops == [] then multiset{}
    else (match ops[0] case Push(e) => multiset{e} case AddStream(es) => multiset(es) case Pop(_) => multiset{}) + Added(ops[1..])
  }

  /** Every event that went in has come out or is still there, exactly once. */
  lemma {:induction false} Conservation(m: multiset<Event>, ops: seq<Op>)
    requires LegalRun(m, ops)
    ensures m + Added(ops) == multiset(Popped(ops)) + AfterAll(m, ops)
    decreases |ops|
  {
    if ops != [] {
      Conservation(After(m, ops[0]), ops[1..]);
      var rest, more, left := Popped(ops[1..]), Added(ops[1..]), AfterAll(m, ops);
      match ops[0]
      case Push(e) => Shift(m, multiset{e}, more, multiset(rest), left); assert Popped(ops) == rest;
      case AddStream(es) => Shift(m, multiset(es), more, multiset(rest), left); assert Popped(ops) == rest;
      case Pop(e) =>
        Take(m, e, more, multiset(rest), left);
        assert multiset([e] + rest) == multiset{e} + multiset(rest);
        assert multiset{} + more == more;
    }
  }

  lemma Shift(m: multiset<Event>, x: multiset<Event>, a: multiset<Event>, p: multiset<Event>, z: multiset<Event>)
    requires (m + x) + a == p + z
    ensures m + (x + a) == p + z
  {
    assert m + (x + a) == (m + x) + a;
  }

  lemma Take(m: multiset<Event>, e: Event, a: multiset<Event>, p: multiset<Event>, z: multiset<Event>)
    requires e in m && (m - multiset{e}) + a == p + z
    ensures m + a == (multiset{e} + p) + z
  {
    assert m == multiset{e} + (m - multiset{e});
    assert m + a == multiset{e} + ((m - multiset{e}) + a);
    assert (multiset{e} + p) + z == multiset{e} + (p + z);
  }

  /** Nothing is added before `now`, which moves to the time of each event popped. */
  ghost predicate NeverLate(now: int, ops: seq<Op>)
    decreases |ops|
  {
    ops == [] ||
    match ops[0]
    case Push(e) => e.ts >= now && NeverLate(now, ops[1..])
    case AddStream(es) => (forall e :: e in es ==> e.ts >= now) && NeverLate(now, ops[1..])
    case Pop(e) => NeverLate(e.ts, ops[1..])
  }

  ghost predicate Monotone(events: seq<Event>) {
    forall i, j :: 0 <= i < j < |events| ==> events[i].ts <= events[j].ts
  }

  /** If nothing is added in the past then events come out in time order. */
  lemma {:induction false} PopsInOrder(m: multiset<Event>, now: int, ops: seq<Op>)
    requires LegalRun(m, ops) && NeverLate(now, ops) && forall e :: e in m ==> now <= e.ts
    ensures Monotone(Popped(ops)) && forall e :: e in Popped(ops) ==> now <= e.ts
    decreases |ops|
  {
    if ops != [] {
      var next := if ops[0].Pop? then ops[0].popped.ts else now;
      StillAhead(m, now, ops[0]);
      PopsInOrder(After(m, ops[0]), next, ops[1..]);
      if ops[0].Pop? { MonotoneCons(ops[0].popped, Popped(ops[1..])); } else { assert Popped(ops) == Popped(ops[1..]); }
    }
  }

  lemma StillAhead(m: multiset<Event>, now: int, op: Op)
    requires Legal(m, op) && (forall e :: e in m ==> now <= e.ts) && NeverLate(now, [op])
    ensures forall e :: e in After(m, op) ==> (if op.Pop? then op.popped.ts else now) <= e.ts
    ensures op.Pop? ==> now <= op.popped.ts
  {}

  lemma MonotoneCons(e: Event, rest: seq<Event>)
    requires Monotone(rest) && forall f :: f in rest ==> e.ts <= f.ts
    ensures Monotone([e] + rest)
  {
    var all := [e] + rest;
    forall i, j | 0 <= i < j < |all| ensures all[i].ts <= all[j].ts {
      assert all[j] == rest[j - 1] && rest[j - 1] in rest;
      if i > 0 { assert all[i] == rest[i - 1]; }
    }
  }

  // ---------------------------------------------------------------------
  // Sorted streams
  // ---------------------------------------------------------------------

  datatype Stream = Stream(events: seq<Event>, idx: nat)

  ghost predicate SortedByTime(s: seq<Event>) {
    forall i, j :: 0 <= i < j < |s| ==> s[i].ts <= s[j].ts
  }

  /** At the same time, higher priority comes first. */
  ghost predicate TieOrdered(s: seq<Event>) {
    forall i, j :: 0 <= i < j < |s| && s[i].ts == s[j].ts ==> Priority(s[i].kind) >= Priority(s[j].kind)
  }

  ghost predicate StreamOk(s: Stream) {
    s.idx <= |s.events| && SortedByTime(s.events[s.idx..])
  }

  function Remaining(s: Stream): seq<Event>
    requires s.idx <= |s.events|
  {
    s.events[s.idx..]
  }

  ghost predicate AllOk(streams: seq<Stream>) {
    forall i :: 0 <= i < |streams| ==> StreamOk(streams[i])
  }

  /** Everything still in the streams. */
  ghost function Static(streams: seq<Stream>): multiset<Event>
    requires AllOk(streams)
  {
    if streams == [] then multiset{}
    else multiset(Remaining(streams[|streams| - 1])) + Static(streams[..|streams| - 1])
  }

  lemma {:induction false} StaticHas(streams: seq<Stream>, i: nat, e: Event)
    requires AllOk(streams) && i < |streams| && e in Remaining(streams[i])
    ensures e in Static(streams)
  {
    if i < |streams| - 1 { StaticHas(streams[..|streams| - 1], i, e); }
  }

  /** The stream an event is still in. */
  lemma {:induction false} StaticFrom(streams: seq<Stream>, e: Event) returns (i: nat)
    requires AllOk(streams) && e in Static(streams)
    ensures i < |streams| && e in Remaining(streams[i])
  {
    if e in Remaining(streams[|streams| - 1]) { i := |streams| - 1; } else { i := StaticFrom(streams[..|streams| - 1], e); }
  }

  /** The head is removed and its slot overwritten with a dummy bar. */
  function Advance(s: Stream): Stream
    requires s.idx < |s.events|
  {
    Stream(s.events[s.idx := Event(s.events[s.idx].ts, Bar, 0)], s.idx + 1)
  }

  lemma AdvanceRemoves(s: Stream)
    requires StreamOk(s) && s.idx < |s.events|
    ensures StreamOk(Advance(s)) && Remaining(s) == [s.events[s.idx]] + Remaining(Advance(s))
    ensures TieOrdered(Remaining(s)) ==> TieOrdered(Remaining(Advance(s)))
  {
    assert Remaining(Advance(s)) == Remaining(s)[1..];
  }

  lemma AdvanceOk(streams: seq<Stream>, i: nat)
    requires AllOk(streams) && i < |streams| && streams[i].idx < |streams[i].events|
    ensures AllOk(streams[i := Advance(streams[i])])
  {
    AdvanceRemoves(streams[i]);
  }

  /** What the streams but the last hold, and the last. */
  lemma StaticSplit(streams: seq<Stream>, n: nat)
    requires AllOk(streams) && |streams| == n + 1
    ensures AllOk(streams[..n]) && Static(streams) == multiset(Remaining(streams[n])) + Static(streams[..n])
  {}

  lemma {:induction false} StaticAdvance(streams: seq<Stream>, i: nat)
    requires AllOk(streams) && i < |streams| && streams[i].idx < |streams[i].events|
    ensures AllOk(streams[i := Advance(streams[i])])
    ensures Static(streams) == multiset{streams[i].events[streams[i].idx]} + Static(streams[i := Advance(streams[i])])
  {
    AdvanceOk(streams, i);
    var n, next := |streams| - 1, streams[i := Advance(streams[i])];
    StaticSplit(streams, n);
    StaticSplit(next, n);
    if i == n {
      assert next[..n] == streams[..n];
      AdvanceRemoves(streams[n]);
      HeadOff(streams[n].events[streams[n].idx], Remaining(streams[n]), Remaining(next[n]), Static(streams[..n]));
    } else {
      assert next[..n] == streams[..n][i := Advance(streams[i])];
      StaticAdvance(streams[..n], i);
      PullOut(multiset(Remaining(streams[n])), multiset{streams[i].events[streams[i].idx]}, Static(next[..n]));
    }
  }

  lemma HeadOff(e: Event, all: seq<Event>, rest: seq<Event>, m: multiset<Event>)
    requires all == [e] + rest
    ensures multiset(all) + m == multiset{e} + (multiset(rest) + m)
  {
    assert multiset(all) == multiset{e} + multiset(rest);
  }

  lemma PullOut(a: multiset<Event>, e: multiset<Event>, b: multiset<Event>)
    ensures a + (e + b) == e + (a + b)
  {}

  // ---------------------------------------------------------------------
  // The merge
  // ---------------------------------------------------------------------

  function Head(s: Stream): Event
    requires s.idx < |s.events|
  {
    s.events[s.idx]
  }

  /** Nothing at the head of a stream or in the heap comes before `r`. */
  ghost predicate Leads(streams: seq<Stream>, dynamic: multiset<Event>, r: Event) {
    && (forall d :: d in dynamic ==> !Before(d, r))
    && (forall i :: 0 <= i < |streams| && streams[i].idx < |streams[i].events| ==> !Before(Head(streams[i]), r))
  }

  ghost predicate AllTieOrdered(streams: seq<Stream>) {
    forall i :: 0 <= i < |streams| && streams[i].idx <= |streams[i].events| ==> TieOrdered(Remaining(streams[i]))
  }

  ghost predicate NoneBefore(m: multiset<Event>, r: Event) {
    forall e :: e in m ==> !Before(e, r)
  }

  lemma NoneBeforeRest(m: multiset<Event>, r: Event)
    ensures NoneBefore(multiset{r} + m, r) <==> NoneBefore(m, r)
  {
    assert forall e :: e in m ==> e in multiset{r} + m;
  }

  /** So no event anywhere is earlier, and with tie-ordered streams none comes before `r` at all. */
  lemma LeadsAll(streams: seq<Stream>, dynamic: multiset<Event>, r: Event, e: Event)
    requires AllOk(streams) && Leads(streams, dynamic, r) && e in dynamic + Static(streams)
    ensures r.ts <= e.ts
    ensures AllTieOrdered(streams) ==> !Before(e, r)
  {
    if e !in dynamic {
      var i := StaticFrom(streams, e);
      var rest := Remaining(streams[i]);
      var j :| 0 <= j < |rest| && rest[j] == e;
      assert rest[0] == Head(streams[i]);
      assert j > 0 ==> rest[0].ts <= rest[j].ts;
    }
  }

  /** The head of stream `i` comes strictly before that of every stream in front of it. */
  ghost predicate First(streams: seq<Stream>, i: nat)
    requires i < |streams| && streams[i].idx < |streams[i].events|
  {
    forall k :: 0 <= k < i && streams[k].idx < |streams[k].events| ==> Before(Head(streams[i]), Head(streams[k]))
  }

  /** The first stream whose head nothing comes before. */
  method BestStream(streams: seq<Stream>) returns (best: Option<nat>)
    ensures best.None? ==> forall i :: 0 <= i < |streams| ==> streams[i].idx >= |streams[i].events|
    ensures best.Some? ==> best.value < |streams| && streams[best.value].idx < |streams[best.value].events|
    ensures best.Some? ==> Leads(streams, multiset{}, Head(streams[best.value])) && First(streams, best.value)
  {
    best := None;
    for i := 0 to |streams|
      invariant best.None? ==> forall k :: 0 <= k < i ==> streams[k].idx >= |streams[k].events|
      invariant best.Some? ==> best.value < i && streams[best.value].idx < |streams[best.value].events|
      invariant best.Some? ==> Leads(streams[..i], multiset{}, Head(streams[best.value])) && First(streams, best.value)
    {
      assert streams[..i + 1] == streams[..i] + [streams[i]];
      if streams[i].idx < |streams[i].events| && (best.None? || Before(Head(streams[i]), Head(streams[best.value]))) {
        best := Some(i);
      }
    }
    assert streams[..|streams|] == streams;
  }

  /** A heap has a top. */
  lemma TopExists(m: multiset<Event>) returns (top: Event)
    requires m != multiset{}
    ensures top in m && forall e :: e in m ==> !Before(e, top)
    decreases |m|
  {
    var x :| x in m;
    var rest := m - multiset{x};
    if rest == multiset{} {
      assert forall e :: e in m ==> e in rest || e == x;
      top := x;
    } else {
      var y := TopExists(rest);
      top := if Before(x, y) then x else y;
      assert forall e :: e in m ==> e in rest || e == x;
    }
  }

  lemma {:induction false} StaticEmpty(streams: seq<Stream>)
    requires AllOk(streams)
    ensures Static(streams) == multiset{} <==> forall i :: 0 <= i < |streams| ==> streams[i].idx == |streams[i].events|
  {
    if streams != [] {
      var n := |streams| - 1;
      StaticEmpty(streams[..n]);
      assert |Remaining(streams[n])| == |streams[n].events| - streams[n].idx;
      if Static(streams[..n]) == multiset{} && streams[n].idx != |streams[n].events| {
        assert Remaining(streams[n])[0] in Static(streams);
      }
      if Static(streams[..n]) != multiset{} {
        var e :| e in Static(streams[..n]);
        assert e in Static(streams);
      }
    }
  }

  method Top(m: multiset<Event>) returns (top: Event)
    requires m != multiset{}
    ensures top in m && forall e :: e in m ==> !Before(e, top)
  {
    ghost var t := TopExists(m);
    top :| top in m && forall e :: e in m ==> !Before(e, top);
  }

  lemma LeadsEvery(streams: seq<Stream>, dynamic: multiset<Event>, r: Event)
    requires AllOk(streams) && Leads(streams, dynamic, r)
    ensures forall e :: e in dynamic + Static(streams) ==> r.ts <= e.ts
    ensures AllTieOrdered(streams) ==> NoneBefore(dynamic + Static(streams), r)
  {
    forall e | e in dynamic + Static(streams) ensures r.ts <= e.ts && (AllTieOrdered(streams) ==> !Before(e, r)) {
      LeadsAll(streams, dynamic, r, e);
    }
  }

  /** Nothing left in stream `i` comes before its head. */
  ghost predicate HeadInOrder(streams: seq<Stream>, i: nat)
    requires AllOk(streams) && i < |streams| && streams[i].idx < |streams[i].events|
  {
    forall e :: e in Remaining(Advance(streams[i])) ==> !Before(e, Head(streams[i]))
  }

  lemma TieOrderedCons(e: Event, rest: seq<Event>)
    requires SortedByTime([e] + rest)
    ensures TieOrdered([e] + rest) <==> TieOrdered(rest) && forall f :: f in rest ==> !Before(f, e)
  {
    var all := [e] + rest;
    assert forall j :: 0 <= j < |rest| ==> all[j + 1] == rest[j];
    forall j | 0 <= j < |rest| ensures e.ts <= rest[j].ts { assert all[0].ts <= all[j + 1].ts; }
    if TieOrdered(all) {
      forall i, j | 0 <= i < j < |rest| && rest[i].ts == rest[j].ts ensures Priority(rest[i].kind) >= Priority(rest[j].kind) {
        assert all[i + 1].ts == all[j + 1].ts;
      }
      forall f | f in rest ensures !Before(f, e) {
        var j :| 0 <= j < |rest| && rest[j] == f;
        assert all[0].ts == all[j + 1].ts ==> Priority(all[0].kind) >= Priority(all[j + 1].kind);
      }
    }
    if TieOrdered(rest) && forall f :: f in rest ==> !Before(f, e) {
      forall i, j | 0 <= i < j < |all| && all[i].ts == all[j].ts ensures Priority(all[i].kind) >= Priority(all[j].kind) {
        assert all[j] == rest[j - 1] && rest[j - 1] in rest;
        if i > 0 { assert all[i] == rest[i - 1]; }
      }
    }
  }

  /** Streams are tie-ordered exactly when the head of one is in order and advancing that one leaves them tie-ordered. */
  lemma AdvanceTies(streams: seq<Stream>, i: nat)
    requires AllOk(streams) && i < |streams| && streams[i].idx < |streams[i].events|
    ensures var next := streams[i := Advance(streams[i])];
            AllTieOrdered(streams) <==> HeadInOrder(streams, i) && AllTieOrdered(next)
  {
    var next := streams[i := Advance(streams[i])];
    AdvanceRemoves(streams[i]);
    TieOrderedCons(Head(streams[i]), Remaining(next[i]));
    if AllTieOrdered(streams) { assert TieOrdered(Remaining(streams[i])); }
    if HeadInOrder(streams, i) && AllTieOrdered(next) {
      forall k | 0 <= k < |streams| && streams[k].idx <= |streams[k].events| ensures TieOrdered(Remaining(streams[k])) {
        assert TieOrdered(Remaining(next[k]));
      }
    }
  }

  ghost predicate FromHeap(streams: seq<Stream>, dynamic: multiset<Event>, r: Event, streams': seq<Stream>, dynamic': multiset<Event>) {
    r in dynamic && streams' == streams && dynamic' == dynamic - multiset{r}
  }

  ghost predicate FromStream(streams: seq<Stream>, dynamic: multiset<Event>, r: Event, streams': seq<Stream>, dynamic': multiset<Event>, i: nat) {
    && i < |streams| && streams[i].idx < |streams[i].events| && First(streams, i)
    && r == Head(streams[i]) && streams' == streams[i := Advance(streams[i])] && dynamic' == dynamic
  }

  /**
   One pop: a top of the heap, or the head of the first best stream if that comes strictly before
   everything in the heap.
   */
  ghost predicate PopStep(streams: seq<Stream>, dynamic: multiset<Event>, r: Event, streams': seq<Stream>, dynamic': multiset<Event>) {
    && Leads(streams, dynamic, r)
    && (|| FromHeap(streams, dynamic, r, streams', dynamic')
        || ((exists i: nat :: FromStream(streams, dynamic, r, streams', dynamic', i)) && forall d :: d in dynamic ==> Before(r, d)))
  }

  /** A pop takes one event out, and leaves everything else. */
  lemma PopTakes(streams: seq<Stream>, dynamic: multiset<Event>, r: Event, streams': seq<Stream>, dynamic': multiset<Event>)
    requires AllOk(streams) && PopStep(streams, dynamic, r, streams', dynamic')
    ensures AllOk(streams') && dynamic + Static(streams) == multiset{r} + (dynamic' + Static(streams'))
  {
    if !FromHeap(streams, dynamic, r, streams', dynamic') {
      var i: nat :| FromStream(streams, dynamic, r, streams', dynamic', i);
      StaticAdvance(streams, i);
      PullOut(dynamic, multiset{r}, Static(streams'));
    }
  }

  /** A pop is of greatest priority among what is left at its time, and leaves tie-ordered streams, exactly for tie-ordered streams. */
  lemma PopTies(streams: seq<Stream>, dynamic: multiset<Event>, r: Event, streams': seq<Stream>, dynamic': multiset<Event>)
    requires AllOk(streams) && AllOk(streams') && PopStep(streams, dynamic, r, streams', dynamic')
    ensures AllTieOrdered(streams) <==> AllTieOrdered(streams') && NoneBefore(dynamic' + Static(streams'), r)
  {
    LeadsEvery(streams, dynamic, r);
    PopTakes(streams, dynamic, r, streams', dynamic');
    NoneBeforeRest(dynamic' + Static(streams'), r);
    if !FromHeap(streams, dynamic, r, streams', dynamic') {
      var i: nat :| FromStream(streams, dynamic, r, streams', dynamic', i);
      AdvanceTies(streams, i);
      if NoneBefore(dynamic' + Static(streams'), r) { NoneBeforeHead(streams, dynamic, i); }
    }
  }

  lemma NoneBeforeHead(streams: seq<Stream>, dynamic: multiset<Event>, i: nat)
    requires AllOk(streams) && i < |streams| && streams[i].idx < |streams[i].events|
    requires AllOk(streams[i := Advance(streams[i])])
    requires NoneBefore(dynamic + Static(streams[i := Advance(streams[i])]), Head(streams[i]))
    ensures HeadInOrder(streams, i)
  {
    var next := streams[i := Advance(streams[i])];
    forall e | e in Remaining(Advance(streams[i])) ensures !Before(e, Head(streams[i])) {
      StaticHas(next, i, e);
      assert e in dynamic + Static(next);
    }
  }

  /** What a caller of pop relies on. */
  lemma PopMeans(streams: seq<Stream>, dynamic: multiset<Event>, r: Event, streams': seq<Stream>, dynamic': multiset<Event>)
    requires AllOk(streams) && PopStep(streams, dynamic, r, streams', dynamic')
    ensures AllOk(streams') && Legal(dynamic + Static(streams), Pop(r))
    ensures dynamic' + Static(streams') == After(dynamic + Static(streams), Pop(r))
    ensures AllTieOrdered(streams) ==> AllTieOrdered(streams') && forall e :: e in dynamic + Static(streams) ==> !Before(e, r)
    ensures forall d :: d in dynamic && !Before(r, d) ==> streams' == streams
  {
    PopTakes(streams, dynamic, r, streams', dynamic');
    LeadsEvery(streams, dynamic, r);
    PopTies(streams, dynamic, r, streams', dynamic');
    var all, left := dynamic + Static(streams), dynamic' + Static(streams');
    assert all == multiset{r} + left;
    assert r in all && left == all - multiset{r};
  }

  /** Which event goes next, and what is left: the heap's top unless the head of a stream comes strictly before it. */
  method PopNext(streams: seq<Stream>, dynamic: multiset<Event>)
    returns (r: Option<Event>, streams': seq<Stream>, dynamic': multiset<Event>)
    requires AllOk(streams)
    ensures r.None? ==> dynamic + Static(streams) == multiset{} && streams' == streams && dynamic' == dynamic
    ensures r.Some? ==> PopStep(streams, dynamic, r.value, streams', dynamic')
  {
    var best := BestStream(streams);
    if dynamic == multiset{} && best.None? {
      StaticEmpty(streams);
      return None, streams, dynamic;
    }
    if dynamic != multiset{} {
      var top := Top(dynamic);
      if best.None? || !Before(Head(streams[best.value]), top) {
        return Some(top), streams, dynamic - multiset{top};
      }
    }
    var head := Head(streams[best.value]);
    streams' := streams[best.value := Advance(streams[best.value])];
    assert FromStream(streams, dynamic, head, streams', dynamic, best.value);
    return Some(head), streams', dynamic;
  }

  // ---------------------------------------------------------------------
  // Draining the queue
  // ---------------------------------------------------------------------

  /** Popping until nothing is left gives `pops`. */
  ghost predicate Drains(streams: seq<Stream>, dynamic: multiset<Event>, pops: seq<Event>)
    requires AllOk(streams)
    decreases |pops|
  {
    if pops == [] then dynamic + Static(streams) == multiset{}
    else exists streams', dynamic' :: AllOk(streams') && PopStep(streams, dynamic, pops[0], streams', dynamic') && Drains(streams', dynamic', pops[1..])
  }

  /** No event comes out after one that it comes before. */
  ghost predicate InOrder(pops: seq<Event>) {
    forall i, j :: 0 <= i < j < |pops| ==> !Before(pops[j], pops[i])
  }

  lemma InOrderCons(e: Event, rest: seq<Event>)
    ensures InOrder([e] + rest) <==> InOrder(rest) && forall f :: f in rest ==> !Before(f, e)
  {
    var all := [e] + rest;
    if InOrder(all) {
      forall i, j | 0 <= i < j < |rest| ensures !Before(rest[j], rest[i]) { assert !Before(all[j + 1], all[i + 1]); }
      forall f | f in rest ensures !Before(f, e) {
        var j :| 0 <= j < |rest| && rest[j] == f;
        assert !Before(all[j + 1], all[0]);
      }
    }
    if InOrder(rest) && forall f :: f in rest ==> !Before(f, e) {
      forall i, j | 0 <= i < j < |all| ensures !Before(all[j], all[i]) {
        assert all[j] == rest[j - 1] && rest[j - 1] in rest;
        if i > 0 { assert all[i] == rest[i - 1]; }
      }
    }
  }

  lemma FirstOut(pops: seq<Event>)
    requires pops != []
    ensures multiset(pops) == multiset{pops[0]} + multiset(pops[1..])
  {
    assert pops == [pops[0]] + pops[1..];
  }

  lemma FirstInOrder(r: Event, rest: seq<Event>)
    ensures InOrder([r] + rest) <==> InOrder(rest) && NoneBefore(multiset(rest), r)
  {
    InOrderCons(r, rest);
    assert forall e :: e in rest <==> e in multiset(rest);
  }

  /** A drain gives every event once. */
  lemma {:induction false} DrainsAll(streams: seq<Stream>, dynamic: multiset<Event>, pops: seq<Event>)
    requires AllOk(streams) && Drains(streams, dynamic, pops)
    ensures multiset(pops) == dynamic + Static(streams)
    decreases |pops|
  {
    if pops != [] {
      var streams', dynamic' :| AllOk(streams') && PopStep(streams, dynamic, pops[0], streams', dynamic') && Drains(streams', dynamic', pops[1..]);
      PopTakes(streams, dynamic, pops[0], streams', dynamic');
      DrainsAll(streams', dynamic', pops[1..]);
      FirstOut(pops);
    }
  }

  /**
   However the heap breaks ties, events come out by time and, at the same time, by priority exactly when
   every stream is tie-ordered: one stream that is not makes every drain pop an event before one that
   should have come first.
   */
  lemma {:induction false} DrainsInOrder(streams: seq<Stream>, dynamic: multiset<Event>, pops: seq<Event>)
    requires AllOk(streams) && Drains(streams, dynamic, pops)
    ensures InOrder(pops) <==> AllTieOrdered(streams)
    decreases |pops|
  {
    if pops == [] {
      StaticEmptied(streams, dynamic);
    } else {
      var r, rest := pops[0], pops[1..];
      var streams', dynamic' :| AllOk(streams') && PopStep(streams, dynamic, r, streams', dynamic') && Drains(streams', dynamic', rest);
      DrainsInOrder(streams', dynamic', rest);
      DrainsAll(streams', dynamic', rest);
      PopTies(streams, dynamic, r, streams', dynamic');
      assert pops == [r] + rest;
      FirstInOrder(r, rest);
    }
  }

  lemma StaticEmptied(streams: seq<Stream>, dynamic: multiset<Event>)
    requires AllOk(streams) && dynamic + Static(streams) == multiset{}
    ensures AllTieOrdered(streams)
  {
    assert Static(streams) <= dynamic + Static(streams);
    StaticEmpty(streams);
  }

  /** Popping until nothing is left does come to an end, and is a drain. */
  method PopAll(streams: seq<Stream>, dynamic: multiset<Event>) returns (pops: seq<Event>)
    requires AllOk(streams)
    ensures Drains(streams, dynamic, pops)
    decreases |dynamic + Static(streams)|
  {
    var r, streams', dynamic' := PopNext(streams, dynamic);
    if r.None? { return []; }
    PopTakes(streams, dynamic, r.value, streams', dynamic');
    var rest := PopAll(streams', dynamic');
    assert ([r.value] + rest)[1..] == rest;
    return [r.value] + rest;
  }

  /** One stream alone drains in its own order. */
  lemma {:induction false} OneStreamDrains(events: seq<Event>, k: nat)
    requires k <= |events| && SortedByTime(events[k..])
    ensures AllOk([Stream(events, k)]) && Drains([Stream(events, k)], multiset{}, events[k..])
    decreases |events| - k
  {
    var s := Stream(events, k);
    StaticOne(s);
    if k < |events| {
      AdvanceRemoves(s);
      assert Remaining(Advance(s)) == events[k + 1..] == events[k..][1..];
      OneStreamDrains(Advance(s).events, k + 1);
      OneStreamPops(s);
    }
  }

  lemma OneStreamPops(s: Stream)
    requires s.idx < |s.events|
    ensures PopStep([s], multiset{}, Head(s), [Advance(s)], multiset{})
  {
    assert [s][0 := Advance(s)] == [Advance(s)];
    assert FromStream([s], multiset{}, Head(s), [Advance(s)], multiset{}, 0);
  }

  lemma StaticOne(s: Stream)
    requires StreamOk(s)
    ensures AllOk([s]) && Static([s]) == multiset(Remaining(s))
  {
    assert [s][..0] == [];
  }

  lemma EarliestHead(streams: seq<Stream>, dynamic: multiset<Event>, ts: int)
    requires AllOk(streams) && (forall d :: d in dynamic ==> ts <= d.ts)
    requires forall k :: 0 <= k < |streams| && streams[k].idx < |streams[k].events| ==> ts <= Head(streams[k]).ts
    ensures forall e :: e in dynamic + Static(streams) ==> ts <= e.ts
  {
    forall e | e in Static(streams) ensures ts <= e.ts {
      var i := StaticFrom(streams, e);
      var rest := Remaining(streams[i]);
      var j :| 0 <= j < |rest| && rest[j] == e;
      assert rest[0] == Head(streams[i]) && (j > 0 ==> rest[0].ts <= rest[j].ts);
    }
  }

  lemma StaticAppend(streams: seq<Stream>, s: Stream)
    requires AllOk(streams) && StreamOk(s)
    ensures AllOk(streams + [s]) && Static(streams + [s]) == Static(streams) + multiset(Remaining(s))
  {
    assert (streams + [s])[..|streams|] == streams;
  }

  // ---------------------------------------------------------------------
  // Streams are sorted by time alone
  // ---------------------------------------------------------------------

  predicate Earlier(a: Event, b: Event) { a.ts < b.ts }

  /** Sorting by time that may leave ties in any order. */
  method SortUnstable(events: seq<Event>) returns (sorted: seq<Event>)
    ensures SortedByTime(sorted) && multiset(sorted) == multiset(events)
  {
    sorted := Sort(Earlier, events);
    SortSorts(Earlier, events);
  }

  /** Events of the stream at the same time have the same priority. */
  ghost predicate OneKindAtATime(events: seq<Event>) {
    forall e, f :: e in events && f in events && e.ts == f.ts ==> Priority(e.kind) == Priority(f.kind)
  }

  lemma TiesAnyOrder(events: seq<Event>, sorted: seq<Event>)
    requires OneKindAtATime(events) && multiset(sorted) == multiset(events)
    ensures TieOrdered(sorted)
  {
    SameElements(sorted, events);
  }

  lemma {:induction false} SwapKeeps(s: seq<Event>, i: nat, j: nat)
    requires i < j < |s| && s[i].ts == s[j].ts && SortedByTime(s)
    ensures var t := s[i := s[j]][j := s[i]]; SortedByTime(t) && multiset(t) == multiset(s)
  {}

  /** One of the results that sorting by time may have. */
  ghost predicate MaySortTo(events: seq<Event>, sorted: seq<Event>) {
    SortedByTime(sorted) && multiset(sorted) == multiset(events)
  }

  /** Sorted events with the one of lower priority in front of the other. */
  lemma PutFirst(s: seq<Event>, i: nat, j: nat) returns (t: seq<Event>)
    requires SortedByTime(s) && i < |s| && j < |s| && s[i].ts == s[j].ts && Priority(s[i].kind) < Priority(s[j].kind)
    ensures SortedByTime(t) && multiset(t) == multiset(s) && !TieOrdered(t)
  {
    t := s;
    if i > j {
      SwapKeeps(s, j, i);
      t := s[j := s[i]][i := s[j]];
      assert t[j] == s[i] && t[i] == s[j];
    }
  }

  /** Two simultaneous events of different priority can come out in the wrong order. */
  lemma WrongOrder(events: seq<Event>, e: Event, f: Event) returns (sorted: seq<Event>)
    requires e in events && f in events && e.ts == f.ts && Priority(e.kind) < Priority(f.kind)
    ensures MaySortTo(events, sorted) && !TieOrdered(sorted)
  {
    var s := Sort(Earlier, events);
    SortSorts(Earlier, events);
    SameElements(s, events);
    var i :| 0 <= i < |s| && s[i] == e;
    var j :| 0 <= j < |s| && s[j] == f;
    sorted := PutFirst(s, i, j);
  }

  /**
   Highest priority first at equal times needs tie-ordered streams. Whatever way the sort happens to
   leave ties, a stream is tie-ordered exactly when its simultaneous events have equal priority.
   */
  lemma AlwaysTieOrdered(events: seq<Event>)
    ensures OneKindAtATime(events) <==> forall sorted :: MaySortTo(events, sorted) ==> TieOrdered(sorted)
  {
    if OneKindAtATime(events) {
      forall sorted | MaySortTo(events, sorted) ensures TieOrdered(sorted) {
        TiesAnyOrder(events, sorted);
      }
    } else {
      var e, f :| e in events && f in events && e.ts == f.ts && Priority(e.kind) != Priority(f.kind);
      var sorted := WrongOrder(events, if Priority(e.kind) < Priority(f.kind) then e else f, if Priority(e.kind) < Priority(f.kind) then f else e);
    }
  }

  const TIMER := Event(1, Timer, 0)
  const TICK := Event(1, Tick, 0)

  /** A tick and a timer at the same time may be sorted timer first, and then the timer is popped first. */
  lemma TimerFirst(r: Event, streams': seq<Stream>, dynamic': multiset<Event>)
    requires PopStep([Stream([TIMER, TICK], 0)], multiset{}, r, streams', dynamic')
    ensures MaySortTo([TICK, TIMER], [TIMER, TICK])
    ensures r == TIMER && Before(TICK, r) && streams' == [Advance(Stream([TIMER, TICK], 0))]
  {
    var s := Stream([TIMER, TICK], 0);
    assert multiset([TICK, TIMER]) == multiset([TIMER, TICK]);
    assert [s][0 := Advance(s)] == [Advance(s)];
  }

  lemma StreamInOrder(sorted: seq<Event>, pops: seq<Event>)
    requires AllOk([Stream(sorted, 0)]) && Drains([Stream(sorted, 0)], multiset{}, pops)
    ensures InOrder(pops) <==> TieOrdered(sorted)
  {
    DrainsInOrder([Stream(sorted, 0)], multiset{}, pops);
    assert Remaining([Stream(sorted, 0)][0]) == sorted;
  }

  /** One of the results that adding the events to an empty queue and draining it may have. */
  ghost predicate MayDrainTo(events: seq<Event>, pops: seq<Event>) {
    exists sorted :: MaySortTo(events, sorted) && AllOk([Stream(sorted, 0)]) && Drains([Stream(sorted, 0)], multiset{}, pops)
  }

  /**
   A stream of events comes out by time and priority, however sorting leaves its ties, exactly when its
   simultaneous events have equal priority.
   */
  lemma AlwaysInOrder(events: seq<Event>)
    ensures OneKindAtATime(events) <==> forall pops :: MayDrainTo(events, pops) ==> InOrder(pops)
  {
    AlwaysTieOrdered(events);
    if OneKindAtATime(events) {
      forall pops | MayDrainTo(events, pops) ensures InOrder(pops) {
        var sorted :| MaySortTo(events, sorted) && AllOk([Stream(sorted, 0)]) && Drains([Stream(sorted, 0)], multiset{}, pops);
        StreamInOrder(sorted, pops);
      }
    } else {
      var sorted :| MaySortTo(events, sorted) && !TieOrdered(sorted);
      assert sorted[0..] == sorted;
      OneStreamDrains(sorted, 0);
      StreamInOrder(sorted, sorted);
      assert MayDrainTo(events, sorted);
    }
  }

  /** A stream with the earliest head. */
  method EarliestStream(streams: seq<Stream>) returns (at: Option<nat>)
    ensures at.None? ==> forall k :: 0 <= k < |streams| ==> streams[k].idx >= |streams[k].events|
    ensures at.Some? ==> at.value < |streams| && streams[at.value].idx < |streams[at.value].events|
    ensures at.Some? ==> forall k :: 0 <= k < |streams| && streams[k].idx < |streams[k].events| ==> Head(streams[at.value]).ts <= Head(streams[k]).ts
  {
    at := None;
    for i := 0 to |streams|
      invariant at.None? ==> forall k :: 0 <= k < i ==> streams[k].idx >= |streams[k].events|
      invariant at.Some? ==> at.value < i && streams[at.value].idx < |streams[at.value].events|
      invariant at.Some? ==> forall k :: 0 <= k < i && streams[k].idx < |streams[k].events| ==> Head(streams[at.value]).ts <= Head(streams[k]).ts
    {
      if streams[i].idx < |streams[i].events| && (at.None? || Head(streams[i]).ts < Head(streams[at.value]).ts) { at := Some(i); }
    }
  }

  /** The earliest time at the heads of the streams and in the heap. */
  method EarliestTs(streams: seq<Stream>, dynamic: multiset<Event>) returns (ts: Option<int>)
    requires AllOk(streams)
    ensures ts.None? <==> dynamic + Static(streams) == multiset{}
    ensures ts.Some? ==> exists e :: e in dynamic + Static(streams) && e.ts == ts.value
    ensures ts.Some? ==> forall e :: e in dynamic + Static(streams) ==> ts.value <= e.ts
  {
    StaticEmpty(streams);
    var at := EarliestStream(streams);
    ts := None;
    if at.Some? {
      var head := Head(streams[at.value]);
      assert head == Remaining(streams[at.value])[0];
      StaticHas(streams, at.value, head);
      assert head in dynamic + Static(streams);
      ts := Some(head.ts);
    }
    if dynamic != multiset{} {
      var top := Top(dynamic);
      assert top in dynamic + Static(streams);
      if ts.None? || top.ts < ts.value { ts := Some(top.ts); }
    }
    if ts.Some? { EarliestHead(streams, dynamic, ts.value); }
  }

  class EventQueue {
    var streams: seq<Stream>
    var dynamic: multiset<Event>

    ghost predicate Valid()
      reads this
    {
      AllOk(streams)
    }

    /** The events still in the queue. */
    ghost function Contents(): multiset<Event>
      requires Valid()
      reads this
    {
      dynamic + Static(streams)
    }

    constructor ()
      ensures Valid() && Contents() == multiset{}
    {
      streams, dynamic := [], multiset{};
    }

    method PushEvent(e: Event)
      requires Valid()
      modifies this`dynamic
      ensures Valid() && Contents() == After(old(Contents()), Push(e))
    {
      dynamic := dynamic + multiset{e};
    }

    /** Add a stream; the caller need not have sorted it. */
    method AddEvents(events: seq<Event>)
      requires Valid()
      modifies this`streams
      ensures Valid() && Contents() == After(old(Contents()), AddStream(events))
      ensures AllTieOrdered(old(streams)) && OneKindAtATime(events) ==> AllTieOrdered(streams)
    {
      if events != [] {
        var sorted := SortUnstable(events);
        if OneKindAtATime(events) { TiesAnyOrder(events, sorted); }
        StaticAppend(streams, Stream(sorted, 0));
        assert dynamic + (Static(streams) + multiset(sorted)) == (dynamic + Static(streams)) + multiset(events);
        streams := streams + [Stream(sorted, 0)];
      }
    }

    method PopEvent() returns (r: Option<Event>)
      requires Valid()
      modifies this
      ensures Valid()
      ensures r.None? ==> old(Contents()) == multiset{} == Contents()
      ensures r.Some? ==> Legal(old(Contents()), Pop(r.value)) && Contents() == After(old(Contents()), Pop(r.value))
      ensures AllTieOrdered(old(streams)) ==> AllTieOrdered(streams)
      ensures AllTieOrdered(old(streams)) && r.Some? ==> forall e :: e in old(Contents()) ==> !Before(e, r.value)
      ensures r.Some? ==> PopStep(old(streams), old(dynamic), r.value, streams, dynamic)
    {
      r, streams, dynamic := PopNext(streams, dynamic);
      if r.Some? { PopMeans(old(streams), old(dynamic), r.value, streams, dynamic); }
    }

    /** The time of whatever PopEvent would return. */
    method PeekTs() returns (ts: Option<int>)
      requires Valid()
      ensures ts.None? <==> Contents() == multiset{}
      ensures ts.Some? ==> (exists e :: e in Contents() && e.ts == ts.value) && forall e :: e in Contents() ==> ts.value <= e.ts
    {
      ts := EarliestTs(streams, dynamic);
    }

    method IsEmpty() returns (empty: bool)
      requires Valid()
      ensures empty <==> Contents() == multiset{}
    {
      StaticEmpty(streams);
      empty := dynamic == multiset{};
      for i := 0 to |streams|
        invariant empty <==> dynamic == multiset{} && forall k :: 0 <= k < i ==> streams[k].idx == |streams[k].events|
      {
        empty := empty && streams[i].idx >= |streams[i].events|;
      }
    }

    method Len() returns (n: nat)
      requires Valid()
      ensures n == |Contents()|
    {
      n := |dynamic|;
      for i := 0 to |streams|
        invariant n == |dynamic| + |Static(streams[..i])|
      {
        assert streams[..i + 1][..i] == streams[..i];
        n := n + (|streams[i].events| - streams[i].idx);
      }
      assert streams[..|streams|] == streams;
    }
  }
}
