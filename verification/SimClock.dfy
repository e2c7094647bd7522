/**
 The simulation clock: time moves only when `AdvanceTo` is called. The class is
 proved to follow the functional state machine `Apply`, and the rest of the
 module states what that machine does over whole runs of operations.
 */
module SimClock {
  import opened Ordering
  import opened Timers
  import Scheduler

  datatype ClockState = ClockState(now: int, live: Live)

  datatype Op = SetTimer(req: TimerRequest) | CancelTimer(key: string) | AdvanceTo(to: int)

  predicate Accepted(c: ClockState, op: Op) {
    op.AdvanceTo? ==> c.now <= op.to
  }

  ghost function Apply(c: ClockState, op: Op): ClockState
    requires AllReady(c.live)
  {
    match op
    case SetTimer(req) => c.(live := Registered(c.live, req, c.now))
    case CancelTimer(key) => c.(live := c.live - {key})
    case AdvanceTo(to) => if c.now <= to then ClockState(to, Drained(c.live, to)) else c
  }

  class SimClock {
    var current: int
    const scheduler: Scheduler.Scheduler

    ghost predicate Valid()
      reads this, scheduler
    {
      scheduler.Valid()
    }

    ghost function State(): ClockState
      reads this, scheduler
    {
      ClockState(current, scheduler.live)
    }

    constructor (start: int)
      ensures Valid() && fresh(scheduler) && State() == ClockState(start, map[])
    {
      current := start;
      scheduler := new Scheduler.Scheduler();
    }

    method NowMs() returns (now: int)
      ensures now == State().now
    {
      now := current;
    }

    method SetTimer(req: TimerRequest) returns (r: Option<ClockError>)
      requires Valid()
      modifies scheduler
      ensures Valid() && State() == Apply(old(State()), Op.SetTimer(req))
      ensures r == match Admit(req, current) case Rejected(e) => Some(e) case _ => None
    {
      r := scheduler.Register(req, current);
    }

    method CancelTimer(key: string) returns (wasActive: bool)
      requires Valid()
      modifies scheduler
      ensures Valid() && State() == Apply(old(State()), Op.CancelTimer(key))
      ensures wasActive == (key in old(State()).live)
    {
      wasActive := scheduler.Cancel(key);
    }

    /** Move time forward and return the due fires in order; a move backward is refused and changes nothing. */
    method AdvanceTo(to: int) returns (r: Option<ClockError>, fires: seq<Fire>)
      requires Valid()
      modifies this, scheduler
      ensures Valid() && State() == Apply(old(State()), Op.AdvanceTo(to))
      ensures r == if to < old(current) then Some(TimeMovedBackward(old(current), to)) else None
      ensures StrictlySorted(FireLess, fires)
      ensures forall f :: f in fires <==> r.None? && IsFire(old(State()).live, to, f)
    {
      if to < current {
        return Some(TimeMovedBackward(current, to)), [];
      }
      current := to;
      fires := scheduler.DrainDue(to);
      r := None;
    }
  }

  // ---------------------------------------------------------------------
  // One timer over a whole run
  // ---------------------------------------------------------------------

  lemma ApplyKeepsReady(c: ClockState, op: Op)
    requires AllReady(c.live)
    ensures AllReady(Apply(c, op).live)
  {
    match op
    case SetTimer(req) => RegisteredIsReady(c.live, req, c.now);
    case CancelTimer(key) =>
    case AdvanceTo(to) =>
      forall k | k in Drained(c.live, to) ensures Ready(Drained(c.live, to)[k]) {
        AfterIsReady(c.live[k], to);
      }
  }

  /** The scheduled instants at which `key` fires when `op` is applied to `c`. */
  ghost function FiredBy(c: ClockState, op: Op, key: string): set<int>
    requires AllReady(c.live)
  {
    if op.AdvanceTo? && Accepted(c, op) && key in c.live then FiredAt(c.live[key], op.to) else {}
  }

  ghost function Run(c: ClockState, ops: seq<Op>): ClockState
    requires AllReady(c.live)
    decreases |ops|
  {
    if ops == [] then c else
      ApplyKeepsReady(c, ops[0]);
      Run(Apply(c, ops[0]), ops[1..])
  }

  /** All instants at which `key` fires over the run. */
  ghost function FiredIn(c: ClockState, ops: seq<Op>, key: string): set<int>
    requires AllReady(c.live)
    decreases |ops|
  {
    if ops == [] then {} else
      ApplyKeepsReady(c, ops[0]);
      FiredBy(c, ops[0], key) + FiredIn(Apply(c, ops[0]), ops[1..], key)
  }

  /** The run neither registers nor cancels `key`. Other timers may come and go. */
  ghost predicate Untouched(ops: seq<Op>, key: string) {
    forall op :: op in ops ==> !(op.SetTimer? && op.req.key == key) && !(op.CancelTimer? && op.key == key)
  }

  ghost predicate NeverSet(ops: seq<Op>, key: string) {
    forall op :: op in ops ==> !(op.SetTimer? && op.req.key == key)
  }

  /** Time moves forward at least once in the run (possibly by nothing). */
  ghost predicate Moves(c: ClockState, ops: seq<Op>)
    requires AllReady(c.live)
    decreases |ops|
  {
    ops != [] &&
    (ApplyKeepsReady(c, ops[0]);
     (ops[0].AdvanceTo? && Accepted(c, ops[0])) || Moves(Apply(c, ops[0]), ops[1..]))
  }

  /** The occurrences owed up to `n` are those owed up to `t` and those the timer owes afterwards. */
  lemma OwedSplit(p: Pending, t: int, n: int)
    requires Ready(p) && t <= n
    ensures After(p, t).Some? ==> Ready(After(p, t).value)
    ensures Owed(p, n) == Owed(p, t) + if After(p, t).Some? then Owed(After(p, t).value, n) else {}
  {
    if p.next <= t { NextIsLeast(p.schedule, t); }
    if After(p, t).Some? { AfterIsReady(p, t); }
  }

  /** Where a timer stands after a drain does not depend on the drains before it, whatever the policy. */
  lemma AfterTwice(p: Pending, t: int, n: int)
    requires Ready(p) && t <= n
    ensures After(p, t).Some? ==> Ready(After(p, t).value)
    ensures (if After(p, t).Some? then After(After(p, t).value, n) else None) == After(p, n)
  {
    if p.next <= t {
      NextIsLeast(p.schedule, t);
      NextIsLeast(p.schedule, n);
    }
    if After(p, t).Some? { AfterIsReady(p, t); }
  }

  /** FireAll delivers everything it owes, except that one drain delivers at most the cap of a cron timer. */
  lemma FireAllDelivers(p: Pending, now: int)
    requires Ready(p) && (p.policy.FireAll? || p.schedule.OnceAt?)
    ensures FiredAt(p, now) == Owed(p, now) <==> (p.schedule.Cron? ==> |Owed(p, now)| <= MAX_CRON_FIRES_PER_DRAIN)
  {
    if p.schedule.Cron? {
      if |Owed(p, now)| <= MAX_CRON_FIRES_PER_DRAIN {
        UnderTheCap(p, now);
      } else {
        OverTheCap(p, now);
      }
    }
  }

  lemma UnderTheCap(p: Pending, now: int)
    requires Ready(p) && p.policy.FireAll? && |Owed(p, now)| <= MAX_CRON_FIRES_PER_DRAIN
    ensures FiredAt(p, now) == Owed(p, now)
  {
    forall t | t in Owed(p, now) ensures Selected(p, now, t) {
      var others := Owed(p, now) - {t};
      assert Owed(p, t - 1) <= others;
      Scheduler.SubsetSize(Owed(p, t - 1), others);
    }
  }

  lemma OverTheCap(p: Pending, now: int)
    requires Ready(p) && p.policy.FireAll? && p.schedule.Cron? && |Owed(p, now)| > MAX_CRON_FIRES_PER_DRAIN
    ensures FiredAt(p, now) != Owed(p, now)
  {
    var last := Greatest(Owed(p, now));
    var below := Owed(p, now) - {last};
    assert |below| >= MAX_CRON_FIRES_PER_DRAIN;
    assert below == Owed(p, last - 1);
    assert last !in FiredAt(p, now);
  }

  /** Every drain of the run meets at most the cap of cron occurrences of `key`. */
  ghost predicate WithinCap(c: ClockState, ops: seq<Op>, key: string)
    requires AllReady(c.live)
    decreases |ops|
  {
    ops == [] ||
    (ApplyKeepsReady(c, ops[0]);
     && (ops[0].AdvanceTo? && Accepted(c, ops[0]) && key in c.live && c.live[key].schedule.Cron? ==>
           |Owed(c.live[key], ops[0].to)| <= MAX_CRON_FIRES_PER_DRAIN)
     && WithinCap(Apply(c, ops[0]), ops[1..], key))
  }

  lemma RunMovesForward(c: ClockState, ops: seq<Op>)
    requires AllReady(c.live)
    ensures AllReady(Run(c, ops).live)
    ensures c.now <= Run(c, ops).now
    decreases |ops|
  {
    if ops != [] {
      ApplyKeepsReady(c, ops[0]);
      RunMovesForward(Apply(c, ops[0]), ops[1..]);
    }
  }

  /** A key that is not active fires nothing until it is registered again. */
  lemma {:induction false} InactiveIsSilent(c: ClockState, ops: seq<Op>, key: string)
    requires AllReady(c.live) && key !in c.live && NeverSet(ops, key)
    ensures FiredIn(c, ops, key) == {} && key !in Run(c, ops).live
    decreases |ops|
  {
    if ops != [] {
      ApplyKeepsReady(c, ops[0]);
      assert ops[0] in ops;
      assert forall op :: op in ops[1..] ==> op in ops;
      InactiveIsSilent(Apply(c, ops[0]), ops[1..], key);
    }
  }

  /** A successful cancel silences the key for the rest of any run that does not register it again. */
  lemma CancelSilences(c: ClockState, key: string, ops: seq<Op>)
    requires AllReady(c.live) && NeverSet(ops, key)
    ensures FiredIn(c, [CancelTimer(key)] + ops, key) == {}
  {
    ApplyKeepsReady(c, CancelTimer(key));
    assert ([CancelTimer(key)] + ops)[1..] == ops;
    InactiveIsSilent(Apply(c, CancelTimer(key)), ops, key);
  }

  /**
   A FireAll (or one-shot) timer over any run that leaves it alone: what has fired is exactly what
   was owed from the instant it first waited for up to the final time, if and only if no single
   drain met more cron occurrences than the cap. Interval timers have no cap, so for them the
   equality always holds.
   */
  lemma {:induction false} FireAllExact(c: ClockState, ops: seq<Op>, key: string)
    requires AllReady(c.live) && key in c.live && Untouched(ops, key)
    requires c.live[key].policy.FireAll? || c.live[key].schedule.OnceAt?
    ensures FiredIn(c, ops, key) <= Owed(c.live[key], Run(c, ops).now)
    ensures Moves(c, ops) ==>
              (FiredIn(c, ops, key) == Owed(c.live[key], Run(c, ops).now) <==> WithinCap(c, ops, key))
    ensures !Moves(c, ops) ==> FiredIn(c, ops, key) == {} && WithinCap(c, ops, key) && Run(c, ops).now == c.now
    decreases |ops|
  {
    if ops != [] {
      var op, rest := ops[0], ops[1..];
      assert op in ops;
      assert forall o :: o in rest ==> o in ops;
      ApplyKeepsReady(c, op);
      var c' := Apply(c, op);
      if op.AdvanceTo? && Accepted(c, op) {
        if key in c'.live { FireAllExact(c', rest, key); } else { SilentRun(c', rest, key); }
        FireAllAdvance(c, ops, key);
      } else {
        IdleStep(c, ops, key);
        FireAllExact(c', rest, key);
      }
    }
  }

  /** A step that neither moves time nor touches the timer is as good as none. */
  lemma IdleStep(c: ClockState, ops: seq<Op>, key: string)
    requires AllReady(c.live) && key in c.live && ops != [] && Untouched(ops[..1], key) && !(ops[0].AdvanceTo? && Accepted(c, ops[0]))
    ensures var c', rest := Apply(c, ops[0]), ops[1..];
            && AllReady(c'.live) && key in c'.live && c'.live[key] == c.live[key] && c'.now == c.now
            && Run(c, ops) == Run(c', rest) && FiredIn(c, ops, key) == FiredIn(c', rest, key)
            && (Moves(c, ops) <==> Moves(c', rest)) && (WithinCap(c, ops, key) <==> WithinCap(c', rest, key))
  {
    ApplyKeepsReady(c, ops[0]);
    assert ops[0] in ops[..1];
    assert {} + FiredIn(Apply(c, ops[0]), ops[1..], key) == FiredIn(Apply(c, ops[0]), ops[1..], key);
  }

  /** What has fired for the timer `p`, up to `n`: nothing that is not owed, and all of it exactly when within the cap. */
  ghost predicate Exact(p: Pending, n: int, fired: set<int>, withinCap: bool)
    requires Ready(p)
  {
    fired <= Owed(p, n) && (fired == Owed(p, n) <==> withinCap)
  }

  lemma FireAllAdvance(c: ClockState, ops: seq<Op>, key: string)
    requires AllReady(c.live) && key in c.live && ops != [] && ops[0].AdvanceTo? && Accepted(c, ops[0])
    requires c.live[key].policy.FireAll? || c.live[key].schedule.OnceAt?
    requires AllReady(Apply(c, ops[0]).live)
    requires var c', rest := Apply(c, ops[0]), ops[1..];
             var fired, within := FiredIn(c', rest, key), WithinCap(c', rest, key);
             if key !in c'.live then fired == {} && within
             else if Moves(c', rest) then Exact(c'.live[key], Run(c', rest).now, fired, within)
             else fired == {} && within && Run(c', rest).now == c'.now
    ensures Exact(c.live[key], Run(c, ops).now, FiredIn(c, ops, key), WithinCap(c, ops, key))
  {
    var p, t, c', rest := c.live[key], ops[0].to, Apply(c, ops[0]), ops[1..];
    RunMovesForward(c', rest);
    assert After(p, t).Some? <==> key in c'.live;
    FireAllStep(p, t, Run(c', rest).now, FiredIn(c', rest, key));
  }

  /** One drain followed by a run that fired `later`: nothing is lost overall iff nothing is lost in either part. */
  lemma FireAllStep(p: Pending, t: int, n: int, later: set<int>)
    requires Ready(p) && t <= n && (p.policy.FireAll? || p.schedule.OnceAt?)
    requires After(p, t).Some? ==> Ready(After(p, t).value)
    requires later <= OwedLater(p, t, n)
    ensures FiredAt(p, t) + later <= Owed(p, n)
    ensures FiredAt(p, t) + later == Owed(p, n) <==>
              && later == OwedLater(p, t, n)
              && (p.schedule.Cron? ==> |Owed(p, t)| <= MAX_CRON_FIRES_PER_DRAIN)
    ensures n == t ==> OwedLater(p, t, n) == {}
  {
    OwedSplit(p, t, n);
    FireAllDelivers(p, t);
    if After(p, t).Some? { AfterIsReady(p, t); }
    UnionExact(FiredAt(p, t), Owed(p, t), later, OwedLater(p, t, n));
  }

  ghost function OwedLater(p: Pending, t: int, n: int): set<int>
    requires Ready(p) && (After(p, t).Some? ==> Ready(After(p, t).value))
  {
    if After(p, t).Some? then Owed(After(p, t).value, n) else {}
  }

  lemma UnionExact(f: set<int>, o: set<int>, f': set<int>, o': set<int>)
    requires f <= o && f' <= o' && o !! o'
    ensures f + f' == o + o' <==> f == o && f' == o'
  {
    if f + f' == o + o' {
      assert forall x :: x in o ==> x in f + f';
      assert forall x :: x in o' ==> x in f + f';
    }
  }

  lemma SilentRun(c: ClockState, ops: seq<Op>, key: string)
    requires AllReady(c.live) && key !in c.live && Untouched(ops, key)
    ensures FiredIn(c, ops, key) == {} && WithinCap(c, ops, key)
    decreases |ops|
  {
    if ops != [] {
      ApplyKeepsReady(c, ops[0]);
      assert ops[0] in ops;
      assert forall op :: op in ops[1..] ==> op in ops;
      SilentRun(Apply(c, ops[0]), ops[1..], key);
    }
  }

  lemma {:induction false} RunAppend(c: ClockState, xs: seq<Op>, ys: seq<Op>)
    requires AllReady(c.live)
    ensures AllReady(Run(c, xs).live)
    ensures Run(c, xs + ys) == Run(Run(c, xs), ys)
    decreases |xs|
  {
    if xs == [] {
      assert xs + ys == ys;
    } else {
      ApplyKeepsReady(c, xs[0]);
      assert (xs + ys)[1..] == xs[1..] + ys;
      RunAppend(Apply(c, xs[0]), xs[1..], ys);
    }
  }

  /** The instants at which `key` fires in step `i` of the run. */
  ghost function StepFires(c: ClockState, ops: seq<Op>, i: nat, key: string): set<int>
    requires AllReady(c.live) && i < |ops|
  {
    RunAppend(c, ops[..i], []);
    FiredBy(Run(c, ops[..i]), ops[i], key)
  }

  /**
   Where a timer stands after any run that leaves it alone depends on the final time only, whatever its
   policy and however the run gets there.
   */
  lemma {:induction false} StandsByTime(c: ClockState, ops: seq<Op>, key: string)
    requires AllReady(c.live) && key in c.live && Untouched(ops, key)
    ensures var live, due := Run(c, ops).live, if Moves(c, ops) then After(c.live[key], Run(c, ops).now) else Some(c.live[key]);
            (key in live <==> due.Some?) && (key in live ==> live[key] == due.value)
    decreases |ops|
  {
    if ops != [] {
      var op, rest := ops[0], ops[1..];
      assert op in ops && forall o :: o in rest ==> o in ops;
      ApplyKeepsReady(c, op);
      var c' := Apply(c, op);
      RunMovesForward(c', rest);
      if key in c'.live { StandsByTime(c', rest, key); } else { InactiveIsSilent(c', rest, key); }
      if op.AdvanceTo? && Accepted(c, op) {
        AfterTwice(c.live[key], op.to, Run(c', rest).now);
        if !Moves(c', rest) { StaysPut(c', rest); }
      }
    }
  }

  lemma {:induction false} StaysPut(c: ClockState, ops: seq<Op>)
    requires AllReady(c.live) && !Moves(c, ops)
    ensures Run(c, ops).now == c.now
    decreases |ops|
  {
    if ops != [] {
      ApplyKeepsReady(c, ops[0]);
      StaysPut(Apply(c, ops[0]), ops[1..]);
    }
  }

  /** A run that only advances the clock leaves the timers as one advance to its final time would. */
  lemma LiveByTime(c: ClockState, ops: seq<Op>)
    requires AllReady(c.live) && Moves(c, ops) && forall op :: op in ops ==> op.AdvanceTo?
    ensures Run(c, ops).live == Drained(c.live, Run(c, ops).now)
  {
    var live := Run(c, ops).live;
    forall key ensures key in live <==> key in Drained(c.live, Run(c, ops).now) {
      if key in c.live { StandsByTime(c, ops, key); } else { InactiveIsSilent(c, ops, key); }
    }
    forall key | key in live ensures live[key] == Drained(c.live, Run(c, ops).now)[key] { StandsByTime(c, ops, key); }
  }

  /** The timer, if active, waits for an instant later than `m`, and goes on doing so. */
  lemma {:induction false} StaysLater(c: ClockState, ops: seq<Op>, key: string, m: int)
    requires AllReady(c.live) && NeverSet(ops, key)
    requires key in c.live ==> m < c.live[key].next
    ensures AllReady(Run(c, ops).live)
    ensures key in Run(c, ops).live ==> m < Run(c, ops).live[key].next
    decreases |ops|
  {
    if ops != [] {
      assert ops[0] in ops;
      assert forall o :: o in ops[1..] ==> o in ops;
      ApplyKeepsReady(c, ops[0]);
      var c' := Apply(c, ops[0]);
      if key in c'.live && ops[0].AdvanceTo? && Accepted(c, ops[0]) {
        AfterIsReady(c.live[key], ops[0].to);
      }
      StaysLater(c', ops[1..], key, m);
    }
  }

  /**
   Over any run that does not register `key` again, its scheduled instants strictly increase from
   step to step: no instant fires twice and none fires out of order, whatever the policy.
   */
  lemma ScheduledTimesIncrease(c: ClockState, ops: seq<Op>, key: string, i: nat, j: nat)
    requires AllReady(c.live) && NeverSet(ops, key) && i < j < |ops|
    ensures forall a, b :: a in StepFires(c, ops, i, key) && b in StepFires(c, ops, j, key) ==> a < b
  {
    var ci := Run(c, ops[..i]);
    RunAppend(c, ops[..i], []);
    RunAppend(c, ops[..j], []);
    if ops[i].AdvanceTo? && Accepted(ci, ops[i]) && key in ci.live {
      var op := ops[i];
      var middle := ops[i + 1..j];
      assert ops[..j] == ops[..i] + ([op] + middle);
      RunAppend(c, ops[..i], [op] + middle);
      ApplyKeepsReady(ci, op);
      var c' := Apply(ci, op);
      assert ([op] + middle)[1..] == middle;
      assert Run(ci, [op] + middle) == Run(c', middle);
      if key in c'.live { AfterIsReady(ci.live[key], op.to); }
      assert forall o :: o in middle ==> o in ops;
      StaysLater(c', middle, key, op.to);
    }
  }

  /**
   Two runs from the same state that leave a FireAll timer alone and reach the same time fire the
   same instants, however they cut the way there (for cron: as long as no drain exceeds the cap).
   */
  lemma FireAllIgnoresSteps(c: ClockState, ops: seq<Op>, ops': seq<Op>, key: string)
    requires AllReady(c.live) && key in c.live && Untouched(ops, key) && Untouched(ops', key)
    requires c.live[key].policy.FireAll? || c.live[key].schedule.OnceAt?
    requires Moves(c, ops) && Moves(c, ops') && Run(c, ops).now == Run(c, ops').now
    requires WithinCap(c, ops, key) && WithinCap(c, ops', key)
    ensures FiredIn(c, ops, key) == FiredIn(c, ops', key)
  {
    FireAllExact(c, ops, key);
    FireAllExact(c, ops', key);
  }

  lemma {:induction false} IntervalsHaveNoCap(c: ClockState, ops: seq<Op>, key: string)
    requires AllReady(c.live) && Untouched(ops, key) && (key in c.live ==> !c.live[key].schedule.Cron?)
    ensures WithinCap(c, ops, key)
    decreases |ops|
  {
    if ops != [] {
      assert ops[0] in ops;
      assert forall o :: o in ops[1..] ==> o in ops;
      ApplyKeepsReady(c, ops[0]);
      IntervalsHaveNoCap(Apply(c, ops[0]), ops[1..], key);
    }
  }

  /** A FireAll interval timer fires every grid point from its first fire up to the final time and its end. */
  lemma IntervalFireAllCoversGrid(c: ClockState, ops: seq<Op>, key: string)
    requires AllReady(c.live) && key in c.live && Untouched(ops, key) && Moves(c, ops)
    requires c.live[key].schedule.Interval? && c.live[key].policy.FireAll?
    ensures var p := c.live[key];
            forall t :: t in FiredIn(c, ops, key) <==>
              && p.next <= t <= Run(c, ops).now && InWindow(p.schedule.end, t)
              && (t - p.schedule.start) % p.schedule.every == 0
  {
    IntervalsHaveNoCap(c, ops, key);
    FireAllExact(c, ops, key);
  }

  // ---------------------------------------------------------------------
  // Where the documentation promises more than the code does
  // ---------------------------------------------------------------------

  /** The timer has the requested policy, and owes exactly the instants that are wanted. */
  ghost predicate Fulfils(p: Pending, req: TimerRequest, now: int)
    requires Ready(p) && !Malformed(req)
  {
    p.policy == req.policy && forall n, t :: t in Owed(p, n) <==> t <= n && Wanted(req, now, t)
  }

  lemma AdmittedFulfils(req: TimerRequest, now: int)
    requires Admit(req, now).Admitted?
    ensures !Malformed(req) && Ready(Admit(req, now).timer) && Fulfils(Admit(req, now).timer, req, now)
  {
    AdmitMeaning(req, now);
    AdmittedIsReady(req, now);
  }

  /** After a registration that reports success the key carries the requested timer: none at all, if no instant is wanted. */
  ghost predicate Replaces(c: ClockState, req: TimerRequest)
    requires AllReady(c.live) && !Malformed(req)
  {
    var live' := Apply(c, SetTimer(req)).live;
    if exists t :: Wanted(req, c.now, t) then req.key in live' && Ready(live'[req.key]) && Fulfils(live'[req.key], req, c.now)
    else req.key !in live'
  }

  /**
   Setting a timer replaces the old one exactly when some instant is wanted, or there was no old one. A
   malformed request changes nothing.
   */
  lemma SetTimerReplaces(c: ClockState, req: TimerRequest)
    requires AllReady(c.live)
    ensures Malformed(req) ==> Apply(c, SetTimer(req)) == c
    ensures !Malformed(req) ==> (Replaces(c, req) <==> (exists t :: Wanted(req, c.now, t)) || req.key !in c.live)
  {
    AdmitMeaning(req, c.now);
    if Admit(req, c.now).Admitted? { AdmittedFulfils(req, c.now); }
  }

  /** A re-registration whose window is already over keeps the old timer, which then still fires. */
  lemma StaleTimerSurvives()
    ensures exists c: ClockState, req: TimerRequest ::
              && AllReady(c.live) && !Malformed(req) && !Replaces(c, req)
              && FiredIn(c, [SetTimer(req), AdvanceTo(20)], req.key) == {10}
  {
    var p := Pending(OnceAt, FireAll, 10);
    var c := ClockState(5, map["k" := p]);
    var req := TimerRequest("k", IntervalReq(1, Some(7), Some(6)), FireAll);
    assert Ready(p);
    var ops := [SetTimer(req), AdvanceTo(20)];
    assert Apply(c, ops[0]) == c;
    assert ops[1..] == [AdvanceTo(20)];
    ApplyKeepsReady(c, ops[1]);
    assert FiredIn(Apply(c, ops[1]), [], "k") == {};
    assert Owed(p, 20) == {10};
    assert FiredBy(c, ops[1], "k") == {10};
    assert FiredIn(c, ops[1..], "k") == FiredBy(c, ops[1], "k") + FiredIn(Apply(c, ops[1]), ops[1..][1..], "k");
    assert FiredIn(c, ops, "k") == {10};
    AdmitMeaning(req, c.now);
    assert !Replaces(c, req);
  }

  /** Coalescing as documented: all missed occurrences become one fire at the latest of them. */
  ghost predicate Coalesces(p: Pending, now: int)
    requires Ready(p)
  {
    FiredAt(p, now) == if Owed(p, now) == {} then {} else {Greatest(Owed(p, now))}
  }

  /** FireOnce coalesces as documented exactly when no occurrence past the end of the window has been reached. */
  lemma FireOnceCoalesces(p: Pending, now: int)
    requires Ready(p) && p.policy.FireOnce? && !p.schedule.OnceAt?
    ensures Coalesces(p, now) <==>
              now < p.next || forall t :: p.next <= t <= now && Occurs(p.schedule, t) ==> InWindow(End(p.schedule), t)
  {
    var owed := Owed(p, now);
    if p.next <= now {
      assert p.next in owed;
      var g := Greatest(owed);
      if t :| p.next <= t <= now && Occurs(p.schedule, t) && !InWindow(End(p.schedule), t) {
        assert !Selected(p, now, g);
        assert g !in FiredAt(p, now);
        assert g in {Greatest(owed)};
      } else {
        forall u | g < u <= now ensures !Occurs(p.schedule, u) {
          assert u in owed <==> Occurs(p.schedule, u);
        }
        Scheduler.OnlyTheLatest(p, now, g);
      }
    } else {
      assert owed == {};
    }
  }

  /** A jump over the end of the window swallows the occurrences inside it. */
  lemma FireOnceLosesLast()
    ensures exists p: Pending, now: int ::
              Ready(p) && p.policy.FireOnce? && Owed(p, now) == {10, 20} && FiredAt(p, now) == {}
  {
    var p := Pending(Interval(10, 10, Some(25)), FireOnce, 10);
    assert Occurs(p.schedule, 10) && Occurs(p.schedule, 20) && Occurs(p.schedule, 30);
    assert Ready(p);
    forall t ensures t in Owed(p, 30) <==> t in {10, 20} {}
    assert Owed(p, 30) == {10, 20};
    assert !Selected(p, 30, 10) && !Selected(p, 30, 20);
    assert FiredAt(p, 30) == {};
  }

  /** SkipMissed as commented: an occurrence that is on time is emitted. */
  ghost predicate EmitsOnTime(p: Pending, now: int)
    requires Ready(p)
  {
    now in Owed(p, now) ==> now in FiredAt(p, now)
  }

  /** An on-time occurrence is emitted exactly when no earlier one was missed in the same drain. */
  lemma SkipMissedOnTime(p: Pending, now: int)
    requires Ready(p) && p.policy.SkipMissed? && !p.schedule.OnceAt?
    ensures EmitsOnTime(p, now) <==> now <= p.next || now !in Owed(p, now)
  {}

  /** A drain that lands exactly on an occurrence after missing another one emits nothing. */
  lemma SkipMissedDropsOnTime()
    ensures exists p: Pending, now: int ::
              Ready(p) && p.policy.SkipMissed? && now in Owed(p, now) && FiredAt(p, now) == {}
  {
    var p := Pending(Interval(10, 10, None), SkipMissed, 10);
    assert Occurs(p.schedule, 10) && Occurs(p.schedule, 20);
    assert Ready(p) && 20 in Owed(p, 20);
    assert FiredAt(p, 20) == {};
  }

  /** A cron that occurs at every millisecond, waiting for the first. */
  ghost predicate EveryMillisecond(p: Pending) {
    Ready(p) && p.schedule.Cron? && p.schedule.end.None? && p.policy.FireAll? && p.next == 1 &&
    forall t :: p.schedule.after(t) == Some(t + 1)
  }

  lemma OwesNext(p: Pending, n: nat)
    requires EveryMillisecond(p) && n > 0
    ensures Owed(p, n) == Owed(p, n - 1) + {n}
  {
    assert Occurs(p.schedule, n);
  }

  lemma {:induction false} OwesEach(p: Pending, n: nat)
    requires EveryMillisecond(p)
    ensures |Owed(p, n)| == n
  {
    if n > 0 {
      OwesEach(p, n - 1);
      OwesNext(p, n);
    } else {
      assert Owed(p, n) == {};
    }
  }

  /** A per-millisecond cron advanced by one more than the cap loses an occurrence. */
  lemma CronCapLoses() returns (p: Pending)
    ensures EveryMillisecond(p)
    ensures FiredAt(p, MAX_CRON_FIRES_PER_DRAIN + 1) != Owed(p, MAX_CRON_FIRES_PER_DRAIN + 1)
  {
    p := EachMillisecond();
    OwesEach(p, MAX_CRON_FIRES_PER_DRAIN + 1);
    OverTheCap(p, MAX_CRON_FIRES_PER_DRAIN + 1);
  }

  function EachMs(t: int): Option<int> { Some(t + 1) }

  lemma EachMillisecond() returns (p: Pending)
    ensures EveryMillisecond(p)
  {
    assert IsSuccessor(EachMs);
    p := Pending(Cron(EachMs, None), FireAll, 1);
    assert Occurs(p.schedule, 1);
  }
}
