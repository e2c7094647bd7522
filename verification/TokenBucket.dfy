/** The token bucket that paces requests to the venue. Times and tokens are reals; the clock never runs backwards. */
module TokenBucket {
  import opened Ordering
  import opened Reals

  datatype Limits = Limits(rate: real, burst: int)

  datatype Bucket = Bucket(tokens: real, last: real)

  function Refill(l: Limits, b: Bucket, now: real): Bucket {
    Bucket(Min(l.burst as real, b.tokens + (now - b.last) * l.rate), now)
  }

  /** Refill, then take `count` tokens if there are that many. */
  function Try(l: Limits, b: Bucket, now: real, count: nat): (Bucket, bool) {
    var r := Refill(l, b, now);
    if r.tokens >= count as real then (r.(tokens := r.tokens - count as real), true) else (r, false)
  }

  ghost predicate Ok(l: Limits, b: Bucket) {
    l.rate > 0.0 && 0.0 <= b.tokens <= l.burst as real
  }

  /** An attempt to take tokens: a non-blocking call, or one turn of a blocking one. */
  datatype Attempt = Attempt(now: real, count: nat)

  ghost predicate InOrder(from: real, attempts: seq<Attempt>)
    decreases |attempts|
  {
    attempts == [] || (from <= attempts[0].now && InOrder(attempts[0].now, attempts[1..]))
  }

  ghost function Run(l: Limits, b: Bucket, attempts: seq<Attempt>): Bucket
    decreases |attempts|
  {
    if attempts == [] then b else Run(l, Try(l, b, attempts[0].now, attempts[0].count).0, attempts[1..])
  }

  /** The tokens handed out. */
  ghost function Taken(l: Limits, b: Bucket, attempts: seq<Attempt>): real
    decreases |attempts|
  {
    if attempts == [] then 0.0
    else
      var (b', ok) := Try(l, b, attempts[0].now, attempts[0].count);
      (if ok then attempts[0].count as real else 0.0) + Taken(l, b', attempts[1..])
  }

  /** What comes in between two times. */
  function Income(l: Limits, from: real, to: real): real { (to - from) * l.rate }

  lemma IncomeAdds(l: Limits, from: real, mid: real, to: real)
    requires l.rate > 0.0 && from <= mid <= to
    ensures Income(l, from, to) == Income(l, from, mid) + Income(l, mid, to)
    ensures Income(l, from, mid) >= 0.0 && Income(l, mid, to) >= 0.0
  {
    Distribute(mid - from, to - mid, l.rate);
    ProductSign(mid - from, l.rate);
    ProductSign(to - mid, l.rate);
  }

  /** Refilling up to a limit, in terms of what came in. */
  lemma Refilled(l: Limits, b: Bucket, now: real)
    requires Ok(l, b) && b.last <= now
    ensures Refill(l, b, now) == Bucket(Min(l.burst as real, b.tokens + Income(l, b.last, now)), now)
    ensures Ok(l, Refill(l, b, now)) && Refill(l, b, now).tokens <= b.tokens + Income(l, b.last, now)
  {
    IncomeAdds(l, b.last, now, now);
  }

  lemma TryKeepsOk(l: Limits, b: Bucket, now: real, count: nat)
    requires Ok(l, b) && b.last <= now
    ensures var (b', ok) := Try(l, b, now, count);
            Ok(l, b') && b'.last == now && b'.tokens + (if ok then count as real else 0.0) <= b.tokens + Income(l, b.last, now)
  {
    Refilled(l, b, now);
  }

  /** In every run the tokens stay between zero and the burst. */
  lemma {:induction false} RunKeepsOk(l: Limits, b: Bucket, attempts: seq<Attempt>)
    requires Ok(l, b) && InOrder(b.last, attempts)
    ensures Ok(l, Run(l, b, attempts))
    ensures Run(l, b, attempts).last == if attempts == [] then b.last else attempts[|attempts| - 1].now
    decreases |attempts|
  {
    if attempts != [] {
      TryKeepsOk(l, b, attempts[0].now, attempts[0].count);
      RunKeepsOk(l, Try(l, b, attempts[0].now, attempts[0].count).0, attempts[1..]);
    }
  }

  /** What is handed out is covered by what was there and what came in. */
  lemma {:induction false} TakenBound(l: Limits, b: Bucket, attempts: seq<Attempt>, end: real)
    requires Ok(l, b) && InOrder(b.last, attempts) && b.last <= end
    requires attempts != [] ==> attempts[|attempts| - 1].now <= end
    ensures Taken(l, b, attempts) <= b.tokens + Income(l, b.last, end)
    decreases |attempts|
  {
    if attempts == [] {
      IncomeAdds(l, b.last, end, end);
    } else {
      var a := attempts[0];
      LastIsLatest(b.last, attempts);
      TryKeepsOk(l, b, a.now, a.count);
      TakenBound(l, Try(l, b, a.now, a.count).0, attempts[1..], end);
      IncomeAdds(l, b.last, a.now, end);
    }
  }

  lemma {:induction false} LastIsLatest(from: real, attempts: seq<Attempt>)
    requires InOrder(from, attempts) && attempts != []
    ensures attempts[0].now <= attempts[|attempts| - 1].now
    decreases |attempts|
  {
    if |attempts| > 1 { LastIsLatest(attempts[0].now, attempts[1..]); }
  }

  lemma {:induction false} InOrderSplit(l: Limits, b: Bucket, a: seq<Attempt>, w: seq<Attempt>)
    requires InOrder(b.last, a + w)
    ensures InOrder(b.last, a) && InOrder(Run(l, b, a).last, w)
    decreases |a|
  {
    if a == [] {
      assert a + w == w;
    } else {
      assert (a + w)[1..] == a[1..] + w && (a + w)[0] == a[0];
      InOrderSplit(l, Try(l, b, a[0].now, a[0].count).0, a[1..], w);
    }
  }

  /**
   In any window of any run, from its first attempt to its last, no more is handed out than the burst
   plus what the rate brings in over the window's length.
   */
  lemma WindowBound(l: Limits, b: Bucket, before: seq<Attempt>, window: seq<Attempt>)
    requires Ok(l, b) && window != [] && InOrder(b.last, before + window)
    ensures Taken(l, Run(l, b, before), window) <= l.burst as real + Income(l, window[0].now, window[|window| - 1].now)
  {
    InOrderSplit(l, b, before, window);
    RunKeepsOk(l, b, before);
    WindowFrom(l, Run(l, b, before), window);
  }

  lemma WindowFrom(l: Limits, b: Bucket, window: seq<Attempt>)
    requires Ok(l, b) && window != [] && InOrder(b.last, window)
    ensures Taken(l, b, window) <= l.burst as real + Income(l, window[0].now, window[|window| - 1].now)
  {
    var start := window[0].now;
    Refilled(l, b, start);
    LastIsLatest(b.last, window);
    SameTaken(l, b, window);
    TakenBound(l, Refill(l, b, start), window, window[|window| - 1].now);
  }

  /** An attempt refills first, so refilling just before it changes nothing. */
  lemma SameTaken(l: Limits, b: Bucket, window: seq<Attempt>)
    requires l.rate > 0.0 && window != []
    ensures Taken(l, Refill(l, b, window[0].now), window) == Taken(l, b, window)
  {
    RefillTwice(l, b, window[0].now, window[0].now);
  }

  // ---------------------------------------------------------------------
  // Waiting
  // ---------------------------------------------------------------------

  /** How long the missing tokens take to come in. */
  function Wait(l: Limits, b: Bucket, count: nat): real
    requires l.rate > 0.0
  {
    (count as real - b.tokens) / l.rate
  }

  /** Left alone for at least the computed wait, the bucket has the tokens exactly when the burst allows that many. */
  lemma WaitSuffices(l: Limits, b: Bucket, count: nat, now: real)
    requires Ok(l, b) && b.tokens < count as real && now >= b.last + Wait(l, b, count)
    ensures Try(l, b, now, count).1 <==> count <= l.burst
  {
    var wait := Wait(l, b, count);
    Quotient(count as real - b.tokens, l.rate);
    ProductSign(now - b.last - wait, l.rate);
    Distribute(now - b.last - wait, wait, l.rate);
  }

  lemma WaitPositive(l: Limits, b: Bucket, count: nat)
    requires l.rate > 0.0 && b.tokens < count as real
    ensures Wait(l, b, count) > 0.0
  {
    Quotient(count as real - b.tokens, l.rate);
    if Wait(l, b, count) <= 0.0 { ProductSign(-Wait(l, b, count), l.rate); }
  }

  /** Refilling in between changes nothing. */
  lemma RefillTwice(l: Limits, b: Bucket, t: real, u: real)
    requires l.rate > 0.0 && t <= u
    ensures Refill(l, Refill(l, b, t), u) == Refill(l, b, u)
  {
    ProductSign(u - t, l.rate);
    Distribute(u - t, t - b.last, l.rate);
  }

  /** In any run, whatever came before and however late it is, an attempt to take more than the burst is refused. */
  lemma TooMuchForever(l: Limits, b: Bucket, attempts: seq<Attempt>, i: nat)
    requires Ok(l, b) && InOrder(b.last, attempts) && i < |attempts| && attempts[i].count > l.burst
    ensures !Try(l, Run(l, b, attempts[..i]), attempts[i].now, attempts[i].count).1
  {
    assert attempts == attempts[..i] + attempts[i..];
    InOrderSplit(l, b, attempts[..i], attempts[i..]);
    RunKeepsOk(l, b, attempts[..i]);
    Refilled(l, Run(l, b, attempts[..i]), attempts[i].now);
  }

  /** One turn of a blocking call: what others did since the turn before it, and when it comes. */
  datatype Turn = Turn(others: seq<Attempt>, now: real)

  datatype Blocked = Blocked(bucket: Bucket, granted: bool, waits: seq<real>)

  /** A blocking call for `count`: how the turns leave it, and how long it asked to sleep after each that was refused. */
  ghost function Block(l: Limits, b: Bucket, count: nat, turns: seq<Turn>): Blocked
    requires l.rate > 0.0
    decreases |turns|
  {
    if turns == [] then Blocked(b, false, [])
    else
      var (b', ok) := Try(l, Run(l, b, turns[0].others), turns[0].now, count);
      if ok then Blocked(b', true, [])
      else
        var rest := Block(l, b', count, turns[1..]);
        rest.(waits := [Wait(l, b', count)] + rest.waits)
  }

  /** The turns as attempts among the others'. */
  ghost function History(count: nat, turns: seq<Turn>): seq<Attempt> {
    if turns == [] then [] else turns[0].others + [Attempt(turns[0].now, count)] + History(count, turns[1..])
  }

  lemma {:induction false} RunAppend(l: Limits, b: Bucket, a: seq<Attempt>, w: seq<Attempt>)
    ensures Run(l, b, a + w) == Run(l, Run(l, b, a), w)
    decreases |a|
  {
    if a == [] {
      assert a + w == w;
    } else {
      assert (a + w)[1..] == a[1..] + w;
      RunAppend(l, Try(l, b, a[0].now, a[0].count).0, a[1..], w);
    }
  }

  /** The bucket after one turn. */
  lemma TurnIsRun(l: Limits, b: Bucket, count: nat, turn: Turn)
    ensures Run(l, b, turn.others + [Attempt(turn.now, count)]) == Try(l, Run(l, b, turn.others), turn.now, count).0
  {
    RunAppend(l, b, turn.others, [Attempt(turn.now, count)]);
    assert [Attempt(turn.now, count)][1..] == [];
  }

  /** A blocking call does nothing but attempt, up to the turn that is granted. */
  lemma {:induction false} BlockIsRun(l: Limits, b: Bucket, count: nat, turns: seq<Turn>)
    requires l.rate > 0.0
    ensures var x := Block(l, b, count, turns);
            var n := |x.waits| + if x.granted then 1 else 0;
            n <= |turns| && (!x.granted ==> n == |turns|) && x.bucket == Run(l, b, History(count, turns[..n]))
    decreases |turns|
  {
    if turns != [] {
      var first, n := turns[0], |Block(l, b, count, turns).waits| + if Block(l, b, count, turns).granted then 1 else 0;
      var (b', ok) := Try(l, Run(l, b, first.others), first.now, count);
      TurnIsRun(l, b, count, first);
      if !ok { BlockIsRun(l, b', count, turns[1..]); }
      assert turns[..n][1..] == turns[1..][..n - 1];
      RunAppend(l, b, first.others + [Attempt(first.now, count)], History(count, turns[1..][..n - 1]));
    }
  }

  /** A call that is refused always asks to sleep for some time. */
  lemma {:induction false} WaitsArePositive(l: Limits, b: Bucket, count: nat, turns: seq<Turn>)
    requires l.rate > 0.0
    ensures forall w :: w in Block(l, b, count, turns).waits ==> w > 0.0
    decreases |turns|
  {
    if turns != [] {
      var (b', ok) := Try(l, Run(l, b, turns[0].others), turns[0].now, count);
      if !ok {
        WaitPositive(l, b', count);
        WaitsArePositive(l, b', count, turns[1..]);
      }
    }
  }

  /** More than the burst is waited for forever, whoever else is at it. */
  lemma {:induction false} BlockedForever(l: Limits, b: Bucket, count: nat, turns: seq<Turn>)
    requires Ok(l, b) && InOrder(b.last, History(count, turns)) && count > l.burst
    ensures !Block(l, b, count, turns).granted
    decreases |turns|
  {
    if turns != [] {
      var first, all := turns[0], History(count, turns);
      var now := first.others + [Attempt(first.now, count)];
      assert all[..|first.others|] == first.others && all[|first.others|] == Attempt(first.now, count);
      TooMuchForever(l, b, all, |first.others|);
      InOrderSplit(l, b, now, History(count, turns[1..]));
      RunKeepsOk(l, b, now);
      TurnIsRun(l, b, count, first);
      BlockedForever(l, Run(l, b, now), count, turns[1..]);
    }
  }

  lemma OneTurn(l: Limits, b: Bucket, count: nat, now: real)
    requires l.rate > 0.0
    ensures var (b', ok) := Try(l, b, now, count);
            Block(l, b, count, [Turn([], now)]) == Blocked(b', ok, if ok then [] else [Wait(l, b', count)])
  {
    assert [Turn([], now)][1..] == [];
    assert Run(l, b, []) == b;
  }

  /**
   With nobody else at it, a call that is refused at first is granted on its second turn, if that comes no
   earlier than it asked for, exactly when the burst allows that many.
   */
  lemma AloneInTwo(l: Limits, b: Bucket, count: nat, first: real, second: real)
    requires Ok(l, b) && b.last <= first && !Block(l, b, count, [Turn([], first)]).granted
    requires second >= first + Block(l, b, count, [Turn([], first)]).waits[0]
    ensures Block(l, b, count, [Turn([], first), Turn([], second)]).granted <==> count <= l.burst
  {
    OneTurn(l, b, count, first);
    var b' := Try(l, b, first, count).0;
    assert [Turn([], first), Turn([], second)][1..] == [Turn([], second)];
    OneTurn(l, b', count, second);
    TryKeepsOk(l, b, first, count);
    WaitSuffices(l, b', count, second);
  }

  class RateLimiter {
    const limits: Limits
    var tokens: real
    var lastRefill: real

    function State(): Bucket
      reads this
    {
      Bucket(tokens, lastRefill)
    }

    constructor (rate: real, burst: int, now: real)
      requires rate > 0.0
      ensures limits == Limits(rate, burst) && State() == Bucket(burst as real, now)
      ensures burst >= 0 ==> Ok(limits, State())
    {
      limits, tokens, lastRefill := Limits(rate, burst), burst as real, now;
    }

    method RefillAt(now: real)
      modifies this
      ensures State() == Refill(limits, old(State()), now)
    {
      var elapsed := now - lastRefill;
      tokens := Min(limits.burst as real, tokens + elapsed * limits.rate);
      lastRefill := now;
    }

    method TryAcquire(now: real, count: nat) returns (ok: bool)
      modifies this
      ensures (State(), ok) == Try(limits, old(State()), now, count)
    {
      RefillAt(now);
      if tokens >= count as real {
        tokens := tokens - count as real;
        return true;
      }
      return false;
    }

    /** What other users do. */
    method Others(attempts: seq<Attempt>)
      modifies this
      ensures State() == Run(limits, old(State()), attempts)
    {
      ghost var end := Run(limits, State(), attempts);
      assert attempts[0..] == attempts;
      for i := 0 to |attempts|
        invariant Run(limits, State(), attempts[i..]) == end
      {
        assert attempts[i..][1..] == attempts[i + 1..];
        var _ := TryAcquire(attempts[i].now, attempts[i].count);
      }
    }

    /**
     Block until `count` tokens are there, then take them. The turns say when it is scheduled and what
     others do in between; it is still blocked if they run out first.
     */
    method Acquire(count: nat, turns: seq<Turn>) returns (granted: bool, waits: seq<real>)
      requires limits.rate > 0.0
      modifies this
      ensures Blocked(State(), granted, waits) == Block(limits, old(State()), count, turns)
    {
      waits := [];
      ghost var end := Block(limits, State(), count, turns);
      assert turns[0..] == turns;
      for i := 0 to |turns|
        invariant EndsIn(limits, State(), count, turns[i..], waits, end)
      {
        assert turns[i..][1..] == turns[i + 1..];
        Others(turns[i].others);
        granted := TryAcquire(turns[i].now, count);
        if granted { return; }
        waits := waits + [Wait(limits, State(), count)];
      }
      return false, waits;
    }
  }

  /** With `waits` asked for already, the turns that are left lead to `end`. */
  ghost predicate EndsIn(l: Limits, b: Bucket, count: nat, left: seq<Turn>, waits: seq<real>, end: Blocked) {
    l.rate > 0.0 && end == Block(l, b, count, left).(waits := waits + Block(l, b, count, left).waits)
  }

  /** A rate that is not positive is refused; without a burst of its own the limiter allows one second's worth, at least one. */
  method NewLimiter(rate: real, burst: Option<int>, now: real) returns (r: Option<RateLimiter>)
    ensures r.None? <==> rate <= 0.0
    ensures r.Some? ==> fresh(r.value) && r.value.State().last == now && r.value.limits.rate == rate
    ensures r.Some? ==> r.value.State().tokens == r.value.limits.burst as real
    ensures r.Some? && burst.Some? ==> r.value.limits.burst == burst.value
    ensures r.Some? && burst.None? ==> Ok(r.value.limits, r.value.State()) && r.value.limits.burst == if rate < 1.0 then 1 else rate.Floor
  {
    if rate <= 0.0 { return None; }
    var limiter := new RateLimiter(rate, if burst.Some? then burst.value else if rate.Floor < 1 then 1 else rate.Floor, now);
    return Some(limiter);
  }
}
