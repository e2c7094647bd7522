/**
 The scheduling engine: a heap of (instant, key, generation) entries with lazy
 deletion, a table of active timers and a set of cancelled keys. Each method is
 proved to do to the abstract table `live` what Timers says it should, so the
 heap, the generations and the cancelled set are invisible from outside.
 */
module Scheduler {
  import opened Ordering
  import opened Timers

  datatype Entry = Entry(fire: int, key: string, generation: nat)

  datatype TimerState = TimerState(schedule: Schedule, policy: Policy, generation: nat)

  ghost predicate NoDuplicates<T>(s: seq<T>) {
    forall i, j :: 0 <= i < j < |s| ==> s[i] != s[j]
  }

  ghost predicate Increasing(s: seq<int>) {
    forall i, j :: 0 <= i < j < |s| ==> s[i] < s[j]
  }

  lemma AppendIncreasing(s: seq<int>, t: int)
    requires Increasing(s) && forall u :: u in s ==> u < t
    ensures Increasing(s + [t])
    ensures forall u :: u in s + [t] <==> u in s || u == t
  {
    forall i, j | 0 <= i < j < |s + [t]| ensures (s + [t])[i] < (s + [t])[j] {
      assert s[i] in s;
    }
  }

  /** `ts` lists the fires `p` makes at `now`, oldest first. */
  ghost predicate Lists(ts: seq<int>, p: Pending, now: int)
    requires Ready(p)
  {
    Increasing(ts) && forall t :: t in ts <==> t in FiredAt(p, now)
  }

  lemma {:induction false} CountOne<T>(s: seq<T>, x: T)
    requires NoDuplicates(s)
    ensures multiset(s)[x] <= 1
  {
    if s != [] {
      assert s == [s[0]] + s[1..];
      CountOne(s[1..], x);
      assert forall i :: 0 <= i < |s[1..]| ==> s[1..][i] == s[i + 1];
      assert x in multiset(s[1..]) <==> x in s[1..];
    }
  }

  lemma PermutationHasNoDuplicates<T>(s: seq<T>, r: seq<T>)
    requires NoDuplicates(s) && multiset(s) == multiset(r)
    ensures NoDuplicates(r)
  {
    forall i, j | 0 <= i < j < |r| ensures r[i] != r[j] {
      CountOne(s, r[i]);
      assert r == r[..i] + [r[i]] + r[i + 1..];
      assert multiset(r) == multiset(r[..i]) + multiset{r[i]} + multiset(r[i + 1..]);
      assert r[i + 1..][j - i - 1] == r[j];
      assert r[j] in multiset(r[i + 1..]);
    }
  }

  /** Sorting the fires of one drain leaves no ties. */
  lemma SortedFiresAreStrict(live: Live, now: int, fires: seq<Fire>)
    requires AllReady(live) && NoDuplicates(fires)
    requires forall f :: f in fires ==> IsFire(live, now, f)
    ensures StrictlySorted(FireLess, Sort(FireLess, fires))
    ensures forall f :: f in Sort(FireLess, fires) <==> f in fires
  {
    FireLessIsOrder();
    SortSorts(FireLess, fires);
    var r := Sort(FireLess, fires);
    SameElements(r, fires);
    PermutationHasNoDuplicates(fires, r);
    forall i, j | 0 <= i < j < |r| ensures FireLess(r[i], r[j]) {
      assert r[i] in fires && r[j] in fires;
      NoTies(live, now, r[i], r[j]);
    }
  }

  lemma NoTies(live: Live, now: int, a: Fire, b: Fire)
    requires AllReady(live) && IsFire(live, now, a) && IsFire(live, now, b) && a != b && !FireLess(b, a)
    ensures FireLess(a, b)
  {
    StrLessTrichotomy(a.key, b.key);
  }

  /** Every occurrence from the first due one up to `now`, inside the window. */
  method FireAllInterval(p: Pending, now: int) returns (ts: seq<int>)
    requires Ready(p) && p.schedule.Interval? && p.policy.FireAll? && p.next <= now
    ensures Lists(ts, p, now)
  {
    var s := p.schedule;
    ts := [];
    var t := p.next;
    while t <= now
      invariant p.next <= t
      invariant forall u :: u in ts <==> u in Owed(p, now) && u < t
      invariant Increasing(ts)
      invariant Occurs(s, t)
      decreases now - t
    {
      NextIsLeast(s, t);
      if InWindow(s.end, t) {
        AppendIncreasing(ts, t);
        ts := ts + [t];
      }
      t := NextIntervalFire(s.start, s.every, t);
    }
  }

  ghost function OwedBelow(p: Pending, now: int, bound: int): set<int>
    requires Ready(p)
  {
    set u | u in Owed(p, now) && u < bound
  }

  /** Moving the bound from one occurrence to the next adds just that occurrence. */
  lemma OwedExtends(p: Pending, now: int, t: int, bound: int)
    requires Ready(p) && !p.schedule.OnceAt? && p.next <= t <= now && t < bound && Occurs(p.schedule, t)
    requires forall u :: t < u < bound ==> !Occurs(p.schedule, u)
    ensures OwedBelow(p, now, bound) ==
            OwedBelow(p, now, t) + if InWindow(End(p.schedule), t) then {t} else {}
  {}

  /** The first owed cron occurrences, at most MAX_CRON_FIRES_PER_DRAIN of them. */
  method FireAllCron(p: Pending, now: int) returns (ts: seq<int>, exhausted: bool)
    requires Ready(p) && p.schedule.Cron? && p.policy.FireAll? && p.next <= now
    ensures Lists(ts, p, now)
    ensures exhausted ==> p.schedule.after(now).None?
  {
    var s := p.schedule;
    ts := [];
    exhausted := false;
    var t := p.next;
    var count: nat := 0;
    ghost var bound := t;
    while t <= now && count < MAX_CRON_FIRES_PER_DRAIN
      invariant p.next <= t == bound && Occurs(s, t)
      invariant forall u :: u in ts <==> u in OwedBelow(p, now, bound)
      invariant |OwedBelow(p, now, bound)| == count <= MAX_CRON_FIRES_PER_DRAIN
      invariant Increasing(ts)
      invariant !exhausted
      decreases now - t
    {
      NextIsLeast(s, t);
      bound := if s.after(t).Some? then s.after(t).value else now + 1;
      OwedExtends(p, now, t, bound);
      if InWindow(s.end, t) {
        AppendIncreasing(ts, t);
        ts := ts + [t];
        count := count + 1;
      }
      if s.after(t).None? {
        assert IsSuccessor(s.after);
        exhausted := true;
        break;
      }
      t := s.after(t).value;
    }
    CapIsRank(p, now, OwedBelow(p, now, bound), bound);
  }

  /** Stopping at the cap keeps exactly the occurrences of rank below the cap. */
  lemma CapIsRank(p: Pending, now: int, fired: set<int>, bound: int)
    requires Ready(p) && p.schedule.Cron? && p.policy.FireAll?
    requires fired == set u | u in Owed(p, now) && u < bound
    requires |fired| <= MAX_CRON_FIRES_PER_DRAIN
    requires now < bound || |fired| == MAX_CRON_FIRES_PER_DRAIN
    ensures fired == FiredAt(p, now)
  {
    forall t | t in Owed(p, now)
      ensures t in fired <==> |Owed(p, t - 1)| < MAX_CRON_FIRES_PER_DRAIN
    {
      var before := Owed(p, t - 1);
      if t in fired {
        assert before <= fired - {t};
        SubsetSize(before, fired - {t});
      } else {
        assert fired <= before;
        SubsetSize(fired, before);
      }
    }
  }

  lemma {:induction false} SubsetSize<T>(a: set<T>, b: set<T>)
    requires a <= b
    ensures |a| <= |b|
  {
    assert b == a + (b - a);
  }

  /** The last cron occurrence not after `now`. */
  method LastCron(p: Pending, now: int) returns (last: int)
    requires Ready(p) && p.schedule.Cron? && p.next <= now
    ensures p.next <= last <= now && Occurs(p.schedule, last)
    ensures forall u :: last < u <= now ==> !Occurs(p.schedule, u)
    ensures p.schedule.after(last) == p.schedule.after(now)
  {
    var s := p.schedule;
    last := p.next;
    while true
      invariant p.next <= last <= now && Occurs(s, last)
      decreases now - last
    {
      NextIsLeast(s, last);
      match s.after(last)
      case Some(next) =>
        if next > now { break; }
        last := next;
      case None => break;
    }
  }

  method DispatchInterval(p: Pending, now: int) returns (ts: seq<int>, candidate: int)
    requires Ready(p) && p.schedule.Interval? && p.next <= now
    ensures Lists(ts, p, now)
    ensures Next(p.schedule, now) == Some(candidate)
  {
    var Interval(every, start, end) := p.schedule;
    match p.policy
    case FireAll =>
      ts := FireAllInterval(p, now);
      AtOrAfterIsNext(start, every, now);
      candidate := NextIntervalFireAtOrAfter(start, every, now + 1);
    case FireOnce =>
      LatestIntervalFireIsGreatest(start, every, now);
      var latest := LatestIntervalFireAtOrBefore(start, every, now);
      latest := if latest < p.next then p.next else latest;
      NextIsLeast(p.schedule, latest);
      NextIsLeast(p.schedule, now);
      candidate := NextIntervalFire(start, every, latest);
      ts := if InWindow(end, latest) then [latest] else [];
      OnlyTheLatest(p, now, latest);
    case SkipMissed =>
      ts := if p.next == now && InWindow(end, p.next) then [p.next] else [];
      AtOrAfterIsNext(start, every, now);
      candidate := NextIntervalFireAtOrAfter(start, every, now + 1);
  }

  method DispatchCron(p: Pending, now: int) returns (ts: seq<int>, following: Option<int>)
    requires Ready(p) && p.schedule.Cron? && p.next <= now
    ensures Lists(ts, p, now)
    ensures Next(p.schedule, now) == following
  {
    var Cron(after, end) := p.schedule;
    match p.policy
    case FireAll =>
      var exhausted;
      ts, exhausted := FireAllCron(p, now);
      following := if exhausted then None else after(now);
    case FireOnce =>
      var last := LastCron(p, now);
      following := after(last);
      ts := if InWindow(end, last) then [last] else [];
      OnlyTheLatest(p, now, last);
    case SkipMissed =>
      ts := if p.next == now && InWindow(end, p.next) then [p.next] else [];
      following := after(now);
  }

  /** Under FireOnce the only candidate is the latest occurrence, and only if it is inside the window. */
  lemma OnlyTheLatest(p: Pending, now: int, latest: int)
    requires Ready(p) && !p.schedule.OnceAt? && p.policy.FireOnce?
    requires p.next <= latest <= now && Occurs(p.schedule, latest)
    requires forall u :: latest < u <= now ==> !Occurs(p.schedule, u)
    ensures FiredAt(p, now) == if InWindow(End(p.schedule), latest) then {latest} else {}
  {
    forall t | t in FiredAt(p, now) ensures t == latest {
      assert Selected(p, now, t);
    }
  }

  /** One due timer: the instants it fires at and the instant it waits for next, if any. */
  method Dispatch(p: Pending, now: int) returns (ts: seq<int>, next: Option<int>)
    requires Ready(p) && p.next <= now
    ensures Lists(ts, p, now)
    ensures next == if After(p, now).Some? then Some(After(p, now).value.next) else None
  {
    match p.schedule
    case OnceAt =>
      ts, next := [p.next], None;
    case Interval(_, _, end) =>
      var candidate;
      ts, candidate := DispatchInterval(p, now);
      next := if InWindow(end, candidate) then Some(candidate) else None;
    case Cron(_, end) =>
      var following;
      ts, following := DispatchCron(p, now);
      next := if following.Some? && InWindow(end, following.value) then following else None;
  }

  ghost predicate IsLive(timers: map<string, TimerState>, e: Entry) {
    e.key in timers && timers[e.key].generation == e.generation
  }

  /** Every active timer has exactly one live heap entry, at the instant it waits for. */
  ghost predicate OneEntryEach(heap: multiset<Entry>, timers: map<string, TimerState>, live: Live) {
    && live.Keys == timers.Keys
    && (forall k :: k in timers ==> Entry(live[k].next, k, timers[k].generation) in heap)
    && (forall e :: e in heap && IsLive(timers, e) ==> e.fire == live[e.key].next)
    && (forall e :: e in heap ==> heap[e] == 1)
  }

  /** The table and the abstract timers agree, and generations are never reused. */
  ghost predicate Consistent(heap: multiset<Entry>, timers: map<string, TimerState>, cancelled: set<string>,
                             nextGeneration: nat, live: Live)
  {
    && OneEntryEach(heap, timers, live)
    && (forall k :: k in timers ==>
          && live[k].schedule == timers[k].schedule && live[k].policy == timers[k].policy
          && timers[k].generation < nextGeneration)
    && (forall e :: e in heap ==> e.generation < nextGeneration)
    && cancelled !! timers.Keys
    && (forall k :: k in cancelled ==> exists e :: e in heap && e.key == k)
  }

  /** A timer taken away leaves its entry behind. */
  lemma CancelKeeps(heap: multiset<Entry>, timers: map<string, TimerState>, cancelled: set<string>, g: nat, live: Live, key: string)
    requires Consistent(heap, timers, cancelled, g, live) && key in timers
    ensures Consistent(heap, timers - {key}, cancelled + {key}, g, live - {key})
  {
    assert Entry(live[key].next, key, timers[key].generation) in heap;
  }

  /** A generation that is used for nothing, and a key no longer marked as cancelled. */
  lemma SkipKeeps(heap: multiset<Entry>, timers: map<string, TimerState>, cancelled: set<string>, g: nat, live: Live, key: string)
    requires Consistent(heap, timers, cancelled, g, live)
    ensures Consistent(heap, timers, cancelled - {key}, g + 1, live)
  {}

  lemma InsertOneEntry(heap: multiset<Entry>, timers: map<string, TimerState>, g: nat, live: Live, key: string, p: Pending)
    requires OneEntryEach(heap, timers, live)
    requires (forall e :: e in heap ==> e.generation < g) && forall k :: k in timers ==> timers[k].generation < g
    ensures OneEntryEach(heap + multiset{Entry(p.next, key, g)}, timers[key := TimerState(p.schedule, p.policy, g)], live[key := p])
  {
    var entry := Entry(p.next, key, g);
    assert entry !in heap;
    assert forall e :: e in heap + multiset{entry} <==> e in heap || e == entry;
  }

  /** A fresh generation makes the new entry the only live one of its key. */
  lemma InsertKeeps(heap: multiset<Entry>, timers: map<string, TimerState>, cancelled: set<string>,
                    g: nat, live: Live, key: string, p: Pending)
    requires Consistent(heap, timers, cancelled, g, live)
    ensures Consistent(heap + multiset{Entry(p.next, key, g)}, timers[key := TimerState(p.schedule, p.policy, g)],
                       cancelled - {key}, g + 1, live[key := p])
  {
    InsertOneEntry(heap, timers, g, live, key, p);
    var heap' := heap + multiset{Entry(p.next, key, g)};
    forall k | k in cancelled - {key} ensures exists e :: e in heap' && e.key == k {
      var e :| e in heap && e.key == k;
      assert e in heap';
    }
  }

  /** Popping an entry that is not live changes no timer. */
  lemma DropKeeps(heap: multiset<Entry>, timers: map<string, TimerState>, cancelled: set<string>,
                  g: nat, live: Live, e: Entry)
    requires Consistent(heap, timers, cancelled, g, live)
    requires e in heap && !IsLive(timers, e)
    ensures Consistent(heap - multiset{e}, timers, cancelled - {e.key}, g, live)
  {
    var heap' := heap - multiset{e};
    forall k | k in cancelled - {e.key} ensures exists x :: x in heap' && x.key == k {
      var x :| x in heap && x.key == k;
      assert x in heap';
    }
  }

  /** Popping the live entry of a timer that is finished retires the timer. */
  lemma RetireKeeps(heap: multiset<Entry>, timers: map<string, TimerState>, cancelled: set<string>,
                    g: nat, live: Live, e: Entry)
    requires Consistent(heap, timers, cancelled, g, live)
    requires e in heap && IsLive(timers, e)
    ensures Consistent(heap - multiset{e}, timers - {e.key}, cancelled, g, live - {e.key})
  {
    var heap' := heap - multiset{e};
    forall k | k in cancelled ensures exists x :: x in heap' && x.key == k {
      var x :| x in heap && x.key == k;
      assert x in heap';
    }
  }

  /** Popping the live entry and pushing it back at a new instant moves the timer. */
  lemma RescheduleKeeps(heap: multiset<Entry>, timers: map<string, TimerState>, cancelled: set<string>,
                        g: nat, live: Live, e: Entry, next: int)
    requires Consistent(heap, timers, cancelled, g, live)
    requires e in heap && IsLive(timers, e)
    ensures Consistent(heap - multiset{e} + multiset{Entry(next, e.key, e.generation)}, timers, cancelled, g,
                       live[e.key := live[e.key].(next := next)])
  {
    var entry := Entry(next, e.key, e.generation);
    var heap' := heap - multiset{e} + multiset{entry};
    assert forall x :: x in heap && x != e && x.key == e.key ==> x.generation != e.generation;
    assert entry !in heap - multiset{e};
    forall k | k in cancelled ensures exists x :: x in heap' && x.key == k {
      var x :| x in heap && x.key == k;
      assert x in heap';
    }
  }

  ghost function DueEntries(heap: multiset<Entry>, now: int): set<Entry> {
    set e | e in heap && e.fire <= now
  }

  lemma DueEntriesShrink(heap: multiset<Entry>, e: Entry, now: int)
    requires e in heap && heap[e] == 1
    ensures DueEntries(heap - multiset{e}, now) == DueEntries(heap, now) - {e}
    ensures forall x: Entry :: now < x.fire ==>
              DueEntries(heap - multiset{e} + multiset{x}, now) == DueEntries(heap, now) - {e}
  {
    forall x: Entry | now < x.fire
      ensures DueEntries(heap - multiset{e} + multiset{x}, now) == DueEntries(heap, now) - {e}
    {
      assert forall y :: y in heap - multiset{e} + multiset{x} <==> (y in heap && y != e) || y == x;
    }
  }

  /** Part-way through a drain: the timers in `done` have been handled, the others are untouched. */
  ghost predicate Progress(before: Live, live: Live, now: int, done: set<string>)
    requires AllReady(before)
  {
    && live.Keys <= before.Keys && done <= before.Keys
    && (forall k :: k in before && k !in done ==> k in live && live[k] == before[k])
    && (forall k :: k in done ==> before[k].next <= now && (k in live <==> After(before[k], now).Some?))
    && (forall k :: k in done && k in live ==> live[k] == After(before[k], now).value)
  }

  /** The fires collected so far are exactly those of the handled timers, each once. */
  ghost predicate Collected(before: Live, now: int, done: set<string>, fires: seq<Fire>)
    requires AllReady(before)
  {
    NoDuplicates(fires) && forall f :: f in fires <==> f.key in done && IsFire(before, now, f)
  }

  function FiresOf(key: string, ts: seq<int>, now: int): seq<Fire> {
    seq(|ts|, i requires 0 <= i < |ts| => Fire(key, ts[i], now, now - ts[i]))
  }

  lemma CollectMore(before: Live, now: int, done: set<string>, fires: seq<Fire>, key: string, ts: seq<int>)
    requires AllReady(before) && Collected(before, now, done, fires)
    requires key in before && key !in done && Lists(ts, before[key], now)
    ensures Collected(before, now, done + {key}, fires + FiresOf(key, ts, now))
  {
    var more := FiresOf(key, ts, now);
    forall f ensures f in more <==> f.key == key && IsFire(before, now, f) {
      if f.key == key && IsFire(before, now, f) {
        assert f.scheduled in ts;
        var i :| 0 <= i < |ts| && ts[i] == f.scheduled;
        assert more[i] == f;
      }
      if f in more {
        var i :| 0 <= i < |more| && more[i] == f;
        assert ts[i] in ts;
      }
    }
    var all := fires + more;
    forall i, j | 0 <= i < j < |all| ensures all[i] != all[j] {
      if i < |fires| <= j {
        assert all[i] in fires && all[j] in more;
      }
    }
  }

  /** Handling one due timer. */
  lemma ProgressMore(before: Live, live: Live, now: int, done: set<string>, key: string)
    requires AllReady(before) && Progress(before, live, now, done)
    requires key in live && live[key].next <= now
    ensures key !in done && key in before && live[key] == before[key]
    ensures var q := After(before[key], now);
            && Progress(before, if q.Some? then live[key := q.value] else live - {key}, now, done + {key})
            && (q.Some? ==> q.value == live[key].(next := q.value.next) && now < q.value.next)
  {
    if key in done { AfterIsReady(before[key], now); }
    if After(before[key], now).Some? { AfterIsReady(before[key], now); }
  }

  /** When nothing due is left, the drain is complete. */
  lemma DrainComplete(before: Live, live: Live, now: int, done: set<string>, fires: seq<Fire>)
    requires AllReady(before) && Progress(before, live, now, done) && Collected(before, now, done, fires)
    requires forall k :: k in live ==> now < live[k].next
    ensures live == Drained(before, now) && AllReady(live)
    ensures forall f :: f in fires <==> IsFire(before, now, f)
  {
    forall k | k in live ensures Ready(live[k]) {
      if k in done { AfterIsReady(before[k], now); }
    }
    forall f | IsFire(before, now, f) ensures f.key in done {
      assert f.scheduled in Owed(before[f.key], now);
    }
  }

  class Scheduler {
    var heap: multiset<Entry>
    var timers: map<string, TimerState>
    var cancelled: set<string>
    var nextGeneration: nat

    /** The active timers, each with the instant its one live heap entry carries. */
    ghost var live: Live

    ghost predicate Valid()
      reads this
    {
      Consistent(heap, timers, cancelled, nextGeneration, live) && AllReady(live)
    }

    constructor ()
      ensures Valid() && live == map[]
    {
      heap := multiset{};
      timers := map[];
      cancelled := {};
      nextGeneration := 0;
      live := map[];
    }

    /** Register or replace a timer. A rejected request, and one that would never fire, keep the old timer. */
    method Register(req: TimerRequest, now: int) returns (r: Option<ClockError>)
      requires Valid()
      modifies this
      ensures Valid()
      ensures live == Registered(old(live), req, now)
      ensures r == match Admit(req, now) case Rejected(e) => Some(e) case _ => None
    {
      RegisteredIsReady(live, req, now);
      SkipKeeps(heap, timers, cancelled, nextGeneration, live, req.key);
      var generation := nextGeneration;
      nextGeneration := nextGeneration + 1;
      cancelled := cancelled - {req.key};
      match Admit(req, now)
      case Rejected(e) => r := Some(e);
      case Never => r := None;
      case Admitted(p) =>
        InsertKeeps(heap, timers, old(cancelled), generation, live, req.key, p);
        timers := timers[req.key := TimerState(p.schedule, p.policy, generation)];
        heap := heap + multiset{Entry(p.next, req.key, generation)};
        live := live[req.key := p];
        r := None;
    }

    /** Cancel a timer. The heap entry stays behind and is dropped when it comes up. */
    method Cancel(key: string) returns (wasActive: bool)
      requires Valid()
      modifies this
      ensures Valid()
      ensures wasActive == (key in old(live))
      ensures live == old(live) - {key}
    {
      if key in timers {
        CancelKeeps(heap, timers, cancelled, nextGeneration, live, key);
        timers := timers - {key};
        cancelled := cancelled + {key};
        live := live - {key};
        return true;
      }
      return false;
    }

    /** The earliest entry of the heap; ties are broken arbitrarily. */
    method Peek() returns (top: Option<Entry>)
      ensures top.None? ==> heap == multiset{}
      ensures top.Some? ==> top.value in heap && forall e :: e in heap ==> top.value.fire <= e.fire
    {
      if heap == multiset{} { return None; }
      MinExists(heap);
      var e :| e in heap && forall x :: x in heap ==> e.fire <= x.fire;
      return Some(e);
    }

    /** Fire the timer whose live entry `e` is due. */
    method FireLive(e: Entry, now: int, fires: seq<Fire>, ghost before: Live, ghost done: set<string>) returns (fires': seq<Fire>)
      requires Consistent(heap, timers, cancelled, nextGeneration, live)
      requires AllReady(before) && Progress(before, live, now, done) && Collected(before, now, done, fires)
      requires e in heap && e.fire <= now && IsLive(timers, e)
      modifies this
      ensures Consistent(heap, timers, cancelled, nextGeneration, live)
      ensures Progress(before, live, now, done + {e.key}) && Collected(before, now, done + {e.key}, fires')
      ensures DueEntries(heap, now) == old(DueEntries(heap, now)) - {e}
    {
      ProgressMore(before, live, now, done, e.key);
      var ts, next := Dispatch(Pending(timers[e.key].schedule, timers[e.key].policy, e.fire), now);
      CollectMore(before, now, done, fires, e.key, ts);
      fires' := fires + FiresOf(e.key, ts, now);
      DueEntriesShrink(heap, e, now);
      match next {
        case Some(u) => Reschedule(e, u);
        case None => Retire(e);
      }
    }

    /** Take the due entry `e` off the heap: drop it if it is cancelled or superseded, else fire its timer. */
    method HandleDue(e: Entry, now: int, fires: seq<Fire>, ghost before: Live, ghost done: set<string>)
      returns (fires': seq<Fire>, ghost done': set<string>)
      requires Consistent(heap, timers, cancelled, nextGeneration, live)
      requires AllReady(before) && Progress(before, live, now, done) && Collected(before, now, done, fires)
      requires e in heap && e.fire <= now
      modifies this
      ensures Consistent(heap, timers, cancelled, nextGeneration, live)
      ensures Progress(before, live, now, done') && Collected(before, now, done', fires')
      ensures DueEntries(heap, now) == old(DueEntries(heap, now)) - {e}
    {
      if e.key in cancelled || e.key !in timers || timers[e.key].generation != e.generation {
        DropKeeps(heap, timers, cancelled, nextGeneration, live, e);
        DueEntriesShrink(heap, e, now);
        heap := heap - multiset{e};
        cancelled := cancelled - {e.key};
        fires', done' := fires, done;
      } else {
        fires' := FireLive(e, now, fires, before, done);
        done' := done + {e.key};
      }
    }

    method Reschedule(e: Entry, next: int)
      requires Consistent(heap, timers, cancelled, nextGeneration, live)
      requires e in heap && IsLive(timers, e)
      modifies this
      ensures Consistent(heap, timers, cancelled, nextGeneration, live)
      ensures live == old(live[e.key := live[e.key].(next := next)])
      ensures heap == old(heap) - multiset{e} + multiset{Entry(next, e.key, e.generation)}
    {
      RescheduleKeeps(heap, timers, cancelled, nextGeneration, live, e, next);
      heap := heap - multiset{e} + multiset{Entry(next, e.key, e.generation)};
      live := live[e.key := live[e.key].(next := next)];
    }

    method Retire(e: Entry)
      requires Consistent(heap, timers, cancelled, nextGeneration, live)
      requires e in heap && IsLive(timers, e)
      modifies this
      ensures Consistent(heap, timers, cancelled, nextGeneration, live)
      ensures live == old(live) - {e.key}
      ensures heap == old(heap) - multiset{e}
    {
      RetireKeeps(heap, timers, cancelled, nextGeneration, live, e);
      heap := heap - multiset{e};
      timers := timers - {e.key};
      live := live - {e.key};
    }

    /** All fires due at or before `now`, in order; every timer left waits for a later instant. */
    method DrainDue(now: int) returns (fires: seq<Fire>)
      requires Valid()
      modifies this
      ensures Valid()
      ensures live == Drained(old(live), now)
      ensures forall k :: k in live ==> now < live[k].next
      ensures StrictlySorted(FireLess, fires)
      ensures forall f :: f in fires <==> IsFire(old(live), now, f)
    {
      ghost var before := live;
      ghost var done: set<string> := {};
      fires := [];
      var top := Peek();
      while top.Some? && top.value.fire <= now
        invariant Consistent(heap, timers, cancelled, nextGeneration, live)
        invariant Progress(before, live, now, done)
        invariant Collected(before, now, done, fires)
        invariant top.None? ==> heap == multiset{}
        invariant top.Some? ==> top.value in heap && forall e :: e in heap ==> top.value.fire <= e.fire
        decreases |DueEntries(heap, now)|
      {
        assert top.value in DueEntries(heap, now);
        fires, done := HandleDue(top.value, now, fires, before, done);
        top := Peek();
      }
      forall k | k in live ensures now < live[k].next {
        assert Entry(live[k].next, k, timers[k].generation) in heap;
      }
      DrainComplete(before, live, now, done, fires);
      SortedFiresAreStrict(before, now, fires);
      fires := Sort(FireLess, fires);
    }

    /** The earliest instant any active timer waits for. */
    method PeekNextFire() returns (best: Option<int>)
      requires Valid()
      ensures best.None? <==> live == map[]
      ensures best.Some? ==>
                && (exists k :: k in live && live[k].next == best.value)
                && (forall k :: k in live ==> best.value <= live[k].next)
    {
      best := None;
      ghost var holder := "";
      var todo := set e | e in heap;
      while todo != {}
        invariant todo <= (set e | e in heap)
        invariant best.Some? ==> holder in live && live[holder].next == best.value
        invariant forall e :: e in heap && e !in todo && IsLive(timers, e) ==> best.Some? && best.value <= e.fire
        decreases todo
      {
        var e :| e in todo;
        todo := todo - {e};
        if e.key !in cancelled && e.key in timers && timers[e.key].generation == e.generation {
          if best.None? || e.fire < best.value {
            best := Some(e.fire);
            holder := e.key;
          }
        }
      }
      forall k | k in live ensures best.Some? && best.value <= live[k].next {
        assert IsLive(timers, Entry(live[k].next, k, timers[k].generation));
      }
    }

    method IsEmpty() returns (r: bool)
      requires Valid()
      ensures r <==> live == map[]
    {
      r := timers == map[];
    }
  }

  lemma {:induction false} MinExists(h: multiset<Entry>)
    requires h != multiset{}
    ensures exists e :: e in h && forall x :: x in h ==> e.fire <= x.fire
    decreases |h|
  {
    var a :| a in h;
    var rest := h - multiset{a};
    assert forall x :: x in h <==> x == a || x in rest;
    if rest != multiset{} {
      MinExists(rest);
      var b :| b in rest && forall x :: x in rest ==> b.fire <= x.fire;
      var m := if a.fire <= b.fire then a else b;
      assert m in h && forall x :: x in h ==> m.fire <= x.fire;
    }
  }
}
