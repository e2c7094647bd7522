/**
 What a registered timer means, independent of how the scheduler stores it:
 the instants at which a schedule occurs, the fires each catch-up policy makes
 when the clock reaches `now`, and the instant the timer waits for afterwards.
 */
module Timers {
  import opened Ordering

  /** Cap on cron fires produced by one drain of one timer. */
  const MAX_CRON_FIRES_PER_DRAIN: nat := 10_000

  datatype Policy = FireAll | FireOnce | SkipMissed

  /** `f(t)` is the least element of some set of instants that is greater than `t`, if there is one. */
  ghost predicate IsSuccessor(f: int -> Option<int>) {
    && (forall t :: f(t).Some? ==> t < f(t).value)
    && (forall t, u :: f(t).Some? && t <= u < f(t).value ==> f(u) == f(t))
    && (forall t, u :: f(t).None? && t <= u ==> f(u).None?)
  }

  /** A parsed cron expression: only its strict-successor function matters here. */
  type CronNext = f: int -> Option<int> | IsSuccessor(f) witness (t: int) => None

  datatype Schedule =
    | OnceAt
    | Interval(every: int, start: int, end: Option<int>)
    | Cron(after: CronNext, end: Option<int>)

  /** An active timer: its schedule, its policy and the instant it waits for. */
  datatype Pending = Pending(schedule: Schedule, policy: Policy, next: int)

  datatype Fire = Fire(key: string, scheduled: int, dispatched: int, lag: int)

  datatype TimerSchedule =
    | OnceAtReq(fireAt: int)
    | IntervalReq(every: int, start: Option<int>, end: Option<int>)
    | CronReq(parsed: Option<CronNext>, start: Option<int>, end: Option<int>)

  datatype TimerRequest = TimerRequest(key: string, schedule: TimerSchedule, policy: Policy)

  datatype ClockError = InvalidCronExpression | InvalidInterval | TimeMovedBackward(current: int, requested: int)

  // ---------------------------------------------------------------------
  // Interval arithmetic (the source's operands are non-negative at each
  // division, so its truncating `/` and Dafny's agree)
  // ---------------------------------------------------------------------

  /** The next grid point strictly after `current`. */
  function NextIntervalFire(start: int, every: int, current: int): int
    requires 0 < every
  {
    if current < start then start
    else start + ((current - start) / every + 1) * every
  }

  /** The first grid point at or after `target`. */
  function NextIntervalFireAtOrAfter(start: int, every: int, target: int): int
    requires 0 < every
  {
    if target <= start then start
    else
      var candidate := start + (target - start) / every * every;
      if candidate >= target then candidate else candidate + every
  }

  /** The last grid point at or before `target` (`start` itself when there is none). */
  function LatestIntervalFireAtOrBefore(start: int, every: int, target: int): int
    requires 0 < every
  {
    if target < start then start
    else start + (target - start) / every * every
  }

  predicate OnGrid(start: int, every: int, t: int)
    requires 0 < every
  {
    start <= t && (t - start) % every == 0
  }

  /** Multiples of `every` are exactly the numbers with remainder zero, and are `every` apart. */
  lemma GridStep(every: int, k: int, d: int)
    requires 0 < every
    ensures (k * every) % every == 0
    ensures k * every < d < (k + 1) * every ==> d % every != 0
  {
    assert (k * every) % every == 0 by { MulMod(every, k); }
    if k * every < d < (k + 1) * every && d % every == 0 {
      var q := d / every;
      assert d == q * every;
      if q <= k { MulMono(q, k, every); } else { MulMono(k + 1, q, every); }
      assert false;
    }
  }

  lemma MulMod(every: int, k: int)
    requires 0 < every
    ensures (k * every) % every == 0
  {
    var m := k * every;
    assert m == (m / every) * every + m % every;
    assert (k - m / every) * every == m % every;
    if k - m / every >= 1 { MulMono(1, k - m / every, every); }
    if k - m / every <= -1 { MulMono(k - m / every, -1, every); }
  }

  lemma MulMono(a: int, b: int, c: int)
    requires a <= b && 0 < c
    ensures a * c <= b * c
  {}

  /** NextIntervalFire is the least grid point after `current`. */
  lemma NextIntervalFireIsLeast(start: int, every: int, current: int)
    requires 0 < every
    ensures var r := NextIntervalFire(start, every, current);
            && current < r && OnGrid(start, every, r)
            && forall t :: current < t < r ==> !OnGrid(start, every, t)
  {
    if current >= start {
      var k := (current - start) / every;
      assert k * every <= current - start < (k + 1) * every;
      GridStep(every, k + 1, 0);
      forall t | current < t < start + (k + 1) * every
        ensures !OnGrid(start, every, t)
      {
        GridStep(every, k, t - start);
      }
    }
  }

  /** LatestIntervalFireAtOrBefore is the greatest grid point not after `target`, or `start` when there is none. */
  lemma LatestIntervalFireIsGreatest(start: int, every: int, target: int)
    requires 0 < every
    ensures var r := LatestIntervalFireAtOrBefore(start, every, target);
            && OnGrid(start, every, r)
            && (r <= target || (r == start && forall t :: t <= target ==> !OnGrid(start, every, t)))
            && forall t :: r < t <= target ==> !OnGrid(start, every, t)
  {
    if start <= target {
      var k := (target - start) / every;
      assert k * every <= target - start < (k + 1) * every;
      GridStep(every, k, 0);
      forall t | start + k * every < t <= target
        ensures !OnGrid(start, every, t)
      {
        GridStep(every, k, t - start);
      }
    }
  }

  /** "At or after `now + 1`" is "strictly after `now`". */
  lemma AtOrAfterIsNext(start: int, every: int, now: int)
    requires 0 < every
    ensures NextIntervalFireAtOrAfter(start, every, now + 1) == NextIntervalFire(start, every, now)
  {
    if now >= start {
      var k := (now - start) / every;
      var j := (now + 1 - start) / every;
      assert k * every <= now - start < (k + 1) * every;
      assert j * every <= now + 1 - start < (j + 1) * every;
      if j > k + 1 { MulMono(k + 2, j, every); }
      if j < k { MulMono(j + 1, k, every); }
      assert j == k || j == k + 1;
    }
  }

  // ---------------------------------------------------------------------
  // Occurrences
  // ---------------------------------------------------------------------

  ghost predicate ValidSchedule(s: Schedule) {
    s.Interval? ==> 0 < s.every
  }

  /** The recurring schedule occurs at `t`, whatever its end. */
  ghost predicate Occurs(s: Schedule, t: int)
    requires ValidSchedule(s)
  {
    match s
    case OnceAt => false
    case Interval(every, start, _) => OnGrid(start, every, t)
    case Cron(after, _) => after(t - 1) == Some(t)
  }

  predicate InWindow(end: Option<int>, t: int) {
    end.Some? ==> t <= end.value
  }

  function End(s: Schedule): Option<int> {
    if s.OnceAt? then None else s.end
  }

  /** The first occurrence strictly after `t`, whatever the end of the schedule. */
  function Next(s: Schedule, t: int): Option<int>
    requires ValidSchedule(s)
  {
    match s
    case OnceAt => None
    case Interval(every, start, _) => Some(NextIntervalFire(start, every, t))
    case Cron(after, _) => after(t)
  }

  lemma NextIsLeast(s: Schedule, t: int)
    requires ValidSchedule(s)
    ensures match Next(s, t)
            case Some(u) => t < u && Occurs(s, u) && forall v :: t < v < u ==> !Occurs(s, v)
            case None => forall v :: t < v ==> !Occurs(s, v)
  {
    match s
    case OnceAt =>
    case Interval(every, start, _) => NextIntervalFireIsLeast(start, every, t);
    case Cron(after, _) =>
      assert IsSuccessor(after);
      if after(t).Some? {
        assert after(after(t).value - 1) == after(t);
        forall v | t < v < after(t).value ensures !Occurs(s, v) {
          assert after(v - 1) == after(t);
        }
      }
  }

  // ---------------------------------------------------------------------
  // What one timer does when the clock reaches `now`
  // ---------------------------------------------------------------------

  /** The timer waits for one of its own occurrences, inside its window. */
  ghost predicate Ready(p: Pending) {
    && ValidSchedule(p.schedule)
    && (p.schedule.OnceAt? || (Occurs(p.schedule, p.next) && InWindow(End(p.schedule), p.next)))
  }

  /** The occurrences the timer owes at `now`: from the one it waits for up to `now`, inside the window. */
  ghost function Owed(p: Pending, now: int): set<int>
    requires Ready(p)
  {
    set t: int | p.next <= t <= now &&
                 (if p.schedule.OnceAt? then t == p.next
                  else Occurs(p.schedule, t) && InWindow(End(p.schedule), t))
  }

  /** Which owed occurrences the catch-up policy lets through. */
  ghost predicate Selected(p: Pending, now: int, t: int)
    requires Ready(p)
  {
    p.schedule.OnceAt? ||
    match p.policy
    case FireAll => p.schedule.Cron? ==> |Owed(p, t - 1)| < MAX_CRON_FIRES_PER_DRAIN
    case FireOnce => forall u :: t < u <= now ==> !Occurs(p.schedule, u)
    case SkipMissed => p.next == now
  }

  ghost function FiredAt(p: Pending, now: int): set<int>
    requires Ready(p)
  {
    set t | t in Owed(p, now) && Selected(p, now, t)
  }

  /** The timer after a drain at `now`; None when it is finished. */
  function After(p: Pending, now: int): Option<Pending>
    requires ValidSchedule(p.schedule)
  {
    if now < p.next then Some(p)
    else match Next(p.schedule, now)
      case Some(u) => if InWindow(End(p.schedule), u) then Some(p.(next := u)) else None
      case None => None
  }

  /** A drain leaves only timers that wait for an occurrence of their own, later than `now`. */
  lemma AfterIsReady(p: Pending, now: int)
    requires Ready(p) && After(p, now).Some?
    ensures Ready(After(p, now).value) && now < After(p, now).value.next
    ensures p.next <= After(p, now).value.next
  {
    if p.next <= now { NextIsLeast(p.schedule, now); }
  }

  // ---------------------------------------------------------------------
  // Registration
  // ---------------------------------------------------------------------

  datatype Admission = Rejected(error: ClockError) | Never | Admitted(timer: Pending)

  /** The first grid point of an interval timer that is not before `now`, as `register` computes it. */
  function FirstIntervalFire(start: int, every: int, now: int): int
    requires 0 < every
  {
    if start >= now then start
    else
      var candidate := start + (now - start) / every * every;
      if candidate < now then candidate + every else candidate
  }

  lemma FirstIntervalFireIsLeast(start: int, every: int, now: int)
    requires 0 < every
    ensures var r := FirstIntervalFire(start, every, now);
            && now <= r && OnGrid(start, every, r)
            && forall t :: now <= t < r ==> !OnGrid(start, every, t)
  {
    AtOrAfterIsNext(start, every, now - 1);
    NextIntervalFireIsLeast(start, every, now - 1);
  }

  /** What registering `req` at `now` asks for. */
  function Admit(req: TimerRequest, now: int): Admission {
    match req.schedule
    case OnceAtReq(fireAt) => Admitted(Pending(OnceAt, req.policy, fireAt))
    case IntervalReq(every, start, end) =>
      if every <= 0 then Rejected(InvalidInterval) else
        var from := if start.Some? then start.value else now;
        var first := FirstIntervalFire(from, every, now);
        if InWindow(end, first) then Admitted(Pending(Interval(every, from, end), req.policy, first)) else Never
    case CronReq(parsed, start, end) =>
      if parsed.None? then Rejected(InvalidCronExpression) else
        var from := if start.Some? then start.value else now;
        match parsed.value(from)
        case Some(first) =>
          if InWindow(end, first) then Admitted(Pending(Cron(parsed.value, end), req.policy, first)) else Never
        case None => Never
  }

  ghost predicate Malformed(req: TimerRequest) {
    (req.schedule.IntervalReq? && req.schedule.every <= 0) || (req.schedule.CronReq? && req.schedule.parsed.None?)
  }

  /** `t` is an instant the request, made at `now`, asks to fire at. */
  ghost predicate Wanted(req: TimerRequest, now: int, t: int)
    requires !Malformed(req)
  {
    match req.schedule
    case OnceAtReq(fireAt) => t == fireAt
    case IntervalReq(every, start, end) =>
      now <= t && InWindow(end, t) && OnGrid(if start.Some? then start.value else now, every, t)
    case CronReq(parsed, start, end) =>
      (if start.Some? then start.value else now) < t && InWindow(end, t) && Occurs(Cron(parsed.value, end), t)
  }

  /** A well-formed request is admitted at the least instant it wants, and is a no-op exactly when it wants none. */
  lemma AdmitMeaning(req: TimerRequest, now: int)
    ensures Admit(req, now).Rejected? <==> Malformed(req)
    ensures Admit(req, now).Never? <==> !Malformed(req) && forall t :: !Wanted(req, now, t)
    ensures Admit(req, now).Admitted? ==>
              var p := Admit(req, now).timer;
              && p.policy == req.policy && Wanted(req, now, p.next)
              && forall t :: Wanted(req, now, t) ==> p.next <= t
  {
    match req.schedule
    case OnceAtReq(fireAt) => assert Wanted(req, now, fireAt);
    case IntervalReq(every, start, end) =>
      if 0 < every {
        var from := if start.Some? then start.value else now;
        FirstIntervalFireIsLeast(from, every, now);
        assert InWindow(end, FirstIntervalFire(from, every, now)) ==> Wanted(req, now, FirstIntervalFire(from, every, now));
      }
    case CronReq(parsed, start, end) =>
      if parsed.Some? {
        var from := if start.Some? then start.value else now;
        NextIsLeast(Cron(parsed.value, end), from);
        assert parsed.value(from).Some? && InWindow(end, parsed.value(from).value) ==>
            Wanted(req, now, parsed.value(from).value);
      }
  }

  lemma AdmittedIsReady(req: TimerRequest, now: int)
    requires Admit(req, now).Admitted?
    ensures Ready(Admit(req, now).timer)
  {
    match req.schedule
    case OnceAtReq(_) =>
    case IntervalReq(every, start, end) =>
      FirstIntervalFireIsLeast(if start.Some? then start.value else now, every, now);
    case CronReq(parsed, start, end) =>
      NextIsLeast(Cron(parsed.value, end), if start.Some? then start.value else now);
  }

  // ---------------------------------------------------------------------
  // All active timers together
  // ---------------------------------------------------------------------

  type Live = map<string, Pending>

  ghost predicate AllReady(live: Live) {
    forall k :: k in live ==> Ready(live[k])
  }

  /** The active timers after a registration: a request that never fires changes nothing. */
  function Registered(live: Live, req: TimerRequest, now: int): Live {
    match Admit(req, now)
    case Admitted(p) => live[req.key := p]
    case _ => live
  }

  lemma RegisteredIsReady(live: Live, req: TimerRequest, now: int)
    requires AllReady(live)
    ensures AllReady(Registered(live, req, now))
  {
    if Admit(req, now).Admitted? { AdmittedIsReady(req, now); }
  }

  /** The active timers after a drain. */
  ghost function Drained(live: Live, now: int): Live
    requires AllReady(live)
  {
    map k | k in live && After(live[k], now).Some? :: After(live[k], now).value
  }

  /** `f` is a fire that a drain at `now` owes to its caller. */
  ghost predicate IsFire(live: Live, now: int, f: Fire)
    requires AllReady(live)
  {
    && f.key in live && f.scheduled in FiredAt(live[f.key], now)
    && f.dispatched == now && f.lag == now - f.scheduled
  }

  /** The output order: by scheduled instant, then by key. */
  predicate FireLess(a: Fire, b: Fire) {
    a.scheduled < b.scheduled || (a.scheduled == b.scheduled && StrLess(a.key, b.key))
  }

  lemma FireLessIsOrder()
    ensures StrictWeak(FireLess)
  {
    forall a, b | FireLess(a, b) ensures !FireLess(b, a) {
      StrLessTrichotomy(a.key, b.key);
    }
    forall a, b, c | FireLess(a, b) && FireLess(b, c) ensures FireLess(a, c) {
      if StrLess(a.key, b.key) && StrLess(b.key, c.key) { StrLessTransitive(a.key, b.key, c.key); }
    }
    forall a, b, c | !FireLess(a, b) && !FireLess(b, c) ensures !FireLess(a, c) {
      StrLessTrichotomy(a.key, b.key);
      StrLessTrichotomy(b.key, c.key);
      StrLessTrichotomy(a.key, c.key);
      if StrLess(b.key, a.key) && StrLess(c.key, b.key) { StrLessTransitive(c.key, b.key, a.key); }
    }
  }

  /** The output of a drain is a function of the active timers: no heap order can show through. */
  lemma FiresAreDetermined(live: Live, now: int, fires: seq<Fire>, fires': seq<Fire>)
    requires AllReady(live)
    requires StrictlySorted(FireLess, fires) && StrictlySorted(FireLess, fires')
    requires forall f :: f in fires <==> IsFire(live, now, f)
    requires forall f :: f in fires' <==> IsFire(live, now, f)
    ensures fires == fires'
  {
    FireLessIsOrder();
    StrictlySortedUnique(FireLess, fires, fires');
  }
}
