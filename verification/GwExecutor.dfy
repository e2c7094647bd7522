/**
 The gateway's execution pool: actions go to the bounded queue of a shard chosen by
 order id, and one worker per shard carries them out one at a time. Dispatching and
 the workers of all shards interleave in any way.
 */
module GwExecutor {
  import opened Ordering

  const TWO_TO_THE_64 := 0x1_0000_0000_0000_0000

  datatype Action = Action(order: int, isCancel: bool, payload: int)

  /** The histories: `accepted` into a queue, `started` with the venue, `finished`, `done` without error, and `reported` as rejected. */
  datatype Pool = Pool(capacity: nat, queues: seq<seq<Action>>, busy: seq<Option<Action>>, accepted: seq<Action>, started: seq<Action>,
                       finished: seq<Action>, done: seq<Action>, reported: seq<Action>)

  datatype Step = Dispatch(a: Action) | Take(w: int) | Finish(worker: int, ok: bool)

  /** An order id is reduced as an unsigned 64-bit number. */
  function Shard(order: int, n: nat): (k: nat)
    requires n > 0
    ensures k < n
  {
    (order % TWO_TO_THE_64) % n
  }

  ghost predicate Shaped(p: Pool) { |p.queues| == |p.busy| > 0 }

  /** A full queue turns the action into a rejection report; so does a venue error later on. */
  function Apply(p: Pool, step: Step): Pool
    requires Shaped(p)
  {
    match step
    case Dispatch(a) =>
      var k := Shard(a.order, |p.queues|);
      if |p.queues[k]| < p.capacity then p.(queues := p.queues[k := p.queues[k] + [a]], accepted := p.accepted + [a])
      else p.(reported := p.reported + [a])
    case Take(w) =>
      if 0 <= w < |p.queues| && p.busy[w].None? && p.queues[w] != [] then
        p.(queues := p.queues[w := p.queues[w][1..]], busy := p.busy[w := Some(p.queues[w][0])], started := p.started + [p.queues[w][0]])
      else p
    case Finish(w, ok) =>
      if 0 <= w < |p.queues| && p.busy[w].Some? then
        var a := p.busy[w].value;
        p.(busy := p.busy[w := None], finished := p.finished + [a], done := if ok then p.done + [a] else p.done,
           reported := if ok then p.reported else p.reported + [a])
      else p
  }

  ghost function Run(p: Pool, steps: seq<Step>): Pool
    requires Shaped(p)
    decreases |steps|
  {
    if steps == [] then p else Run(Apply(p, steps[0]), steps[1..])
  }

  function Dispatched(steps: seq<Step>): seq<Action> {
    if steps == [] then [] else (if steps[0].Dispatch? then [steps[0].a] else []) + Dispatched(steps[1..])
  }

  // ---------------------------------------------------------------------
  // Order
  // ---------------------------------------------------------------------

  /** The actions of one order. */
  function Of(actions: seq<Action>, order: int): seq<Action> {
    if actions == [] then []
    else (if actions[0].order == order then [actions[0]] else []) + Of(actions[1..], order)
  }

  lemma {:induction false} OfAppend(a: seq<Action>, b: seq<Action>, order: int)
    ensures Of(a + b, order) == Of(a, order) + Of(b, order)
  {
    if a == [] {
      assert a + b == b;
    } else {
      assert (a + b)[1..] == a[1..] + b;
      OfAppend(a[1..], b, order);
      var first := if a[0].order == order then [a[0]] else [];
      Regroup(first, Of(a[1..], order), Of(b, order));
    }
  }

  lemma OfOne(a: Action, order: int)
    ensures Of([a], order) == if a.order == order then [a] else []
  {
    assert [a][1..] == [];
  }

  function InHand(b: Option<Action>): seq<Action> { if b.Some? then [b.value] else [] }

  /** Whatever sits in a shard belongs there. */
  ghost predicate Placed(p: Pool)
    requires Shaped(p)
  {
    && (forall k, i :: 0 <= k < |p.queues| && 0 <= i < |p.queues[k]| ==> Shard(p.queues[k][i].order, |p.queues|) == k)
    && (forall k :: 0 <= k < |p.busy| && p.busy[k].Some? ==> Shard(p.busy[k].value.order, |p.queues|) == k)
  }

  /** The accepted actions of an order are, in order: those finished, the one in hand, those queued. */
  ghost predicate Lined(accepted: seq<Action>, started: seq<Action>, finished: seq<Action>, queue: seq<Action>, hand: Option<Action>, order: int) {
    && Of(accepted, order) == Of(started, order) + Of(queue, order)
    && Of(started, order) == Of(finished, order) + Of(InHand(hand), order)
  }

  ghost predicate InSequence(p: Pool, order: int)
    requires Shaped(p)
  {
    var k := Shard(order, |p.queues|);
    Lined(p.accepted, p.started, p.finished, p.queues[k], p.busy[k], order)
  }

  lemma OfSnoc(actions: seq<Action>, a: Action, order: int)
    ensures Of(actions + [a], order) == if a.order == order then Of(actions, order) + [a] else Of(actions, order)
  {
    OfAppend(actions, [a], order);
    OfOne(a, order);
  }

  lemma AcceptLined(accepted: seq<Action>, started: seq<Action>, finished: seq<Action>, queue: seq<Action>, hand: Option<Action>, order: int, a: Action)
    requires Lined(accepted, started, finished, queue, hand, order)
    ensures Lined(accepted + [a], started, finished, queue + [a], hand, order)
    ensures a.order != order ==> Lined(accepted + [a], started, finished, queue, hand, order)
  {
    OfSnoc(accepted, a, order);
    OfSnoc(queue, a, order);
    Regroup(Of(started, order), Of(queue, order), [a]);
  }

  lemma OfHead(queue: seq<Action>, order: int)
    requires queue != []
    ensures Of(queue, order) == Of([queue[0]], order) + Of(queue[1..], order)
  {
    OfOne(queue[0], order);
  }

  /** The head `h` of what is queued joins what has started. */
  lemma HeadMoves(accepted: seq<Action>, started: seq<Action>, finished: seq<Action>, h: seq<Action>, rest: seq<Action>)
    requires accepted == started + (h + rest) && started == finished + []
    ensures accepted == started + h + rest && started + h == finished + h
  {
    assert finished + [] == finished;
    Regroup(started, h, rest);
  }

  lemma StartLined(accepted: seq<Action>, started: seq<Action>, finished: seq<Action>, queue: seq<Action>, order: int)
    requires queue != [] && Lined(accepted, started, finished, queue, None, order)
    ensures Lined(accepted, started + [queue[0]], finished, queue[1..], Some(queue[0]), order)
  {
    OfAppend(started, [queue[0]], order);
    OfHead(queue, order);
    HeadMoves(Of(accepted, order), Of(started, order), Of(finished, order), Of([queue[0]], order), Of(queue[1..], order));
  }

  lemma FinishLined(accepted: seq<Action>, started: seq<Action>, finished: seq<Action>, queue: seq<Action>, a: Action, order: int)
    requires Lined(accepted, started, finished, queue, Some(a), order)
    ensures Lined(accepted, started, finished + [a], queue, None, order)
  {
    OfSnoc(finished, a, order);
    OfOne(a, order);
  }

  /** An action of another order is not seen. */
  lemma OtherOrder(actions: seq<Action>, a: Action, order: int)
    requires a.order != order
    ensures Of(actions + [a], order) == Of(actions, order)
  {
    OfSnoc(actions, a, order);
  }

  lemma StepKeepsPlaced(p: Pool, step: Step)
    requires Shaped(p) && Placed(p)
    ensures Shaped(Apply(p, step)) && Placed(Apply(p, step))
  {}

  /** An action accepted into queue `h`, as seen from queue `k`. */
  lemma QueuedLined(p: Pool, a: Action, order: int, h: nat, k: nat)
    requires |p.queues| == |p.busy| && h < |p.queues| && k < |p.queues| && (a.order == order ==> h == k)
    requires Lined(p.accepted, p.started, p.finished, p.queues[k], p.busy[k], order)
    ensures Lined(p.accepted + [a], p.started, p.finished, p.queues[h := p.queues[h] + [a]][k], p.busy[k], order)
  {
    AcceptLined(p.accepted, p.started, p.finished, p.queues[k], p.busy[k], order, a);
  }

  lemma DispatchInSequence(p: Pool, a: Action, order: int)
    requires Shaped(p) && InSequence(p, order)
    ensures InSequence(Apply(p, Dispatch(a)), order)
  {
    var h, k := Shard(a.order, |p.queues|), Shard(order, |p.queues|);
    if |p.queues[h]| < p.capacity { QueuedLined(p, a, order, h, k); }
  }

  lemma TakeInSequence(p: Pool, w: int, order: int)
    requires Shaped(p) && Placed(p) && InSequence(p, order)
    ensures InSequence(Apply(p, Take(w)), order)
  {
    if 0 <= w < |p.queues| && p.busy[w].None? && p.queues[w] != [] {
      if w == Shard(order, |p.queues|) {
        StartLined(p.accepted, p.started, p.finished, p.queues[w], order);
      } else {
        OtherOrder(p.started, p.queues[w][0], order);
      }
    }
  }

  lemma FinishInSequence(p: Pool, w: int, ok: bool, order: int)
    requires Shaped(p) && Placed(p) && InSequence(p, order)
    ensures InSequence(Apply(p, Finish(w, ok)), order)
  {
    if 0 <= w < |p.queues| && p.busy[w].Some? {
      if w == Shard(order, |p.queues|) {
        FinishLined(p.accepted, p.started, p.finished, p.queues[w], p.busy[w].value, order);
      } else {
        OtherOrder(p.finished, p.busy[w].value, order);
      }
    }
  }

  lemma {:induction false} RunInSequence(p: Pool, steps: seq<Step>, order: int)
    requires Shaped(p) && Placed(p) && InSequence(p, order)
    ensures Shaped(Run(p, steps)) && InSequence(Run(p, steps), order)
    decreases |steps|
  {
    if steps != [] {
      match steps[0] {
        case Dispatch(a) => DispatchInSequence(p, a, order);
        case Take(w) => TakeInSequence(p, w, order);
        case Finish(w, ok) => FinishInSequence(p, w, ok, order);
      }
      StepKeepsPlaced(p, steps[0]);
      RunInSequence(Apply(p, steps[0]), steps[1..], order);
    }
  }

  function Idle(n: nat, capacity: nat): Pool {
    Pool(capacity, seq(n, _ => []), seq(n, _ => None), [], [], [], [], [])
  }

  /**
   In every run, whatever the shards do at the same time, the actions of one order reach the venue in
   the order in which they were accepted, and none before the one ahead of it has finished.
   */
  lemma OrdersStayInOrder(n: nat, capacity: nat, steps: seq<Step>, order: int)
    requires n > 0
    ensures var p := Run(Idle(n, capacity), steps);
            && Of(p.started, order) <= Of(p.accepted, order)
            && Of(p.finished, order) <= Of(p.started, order)
            && |Of(p.started, order)| <= |Of(p.finished, order)| + 1
  {
    var p := Run(Idle(n, capacity), steps);
    RunInSequence(Idle(n, capacity), steps, order);
    OfShort(InHand(p.busy[Shard(order, |p.queues|)]), order);
  }

  lemma OfShort(actions: seq<Action>, order: int)
    requires |actions| <= 1
    ensures |Of(actions, order)| <= 1
  {
    if actions != [] {
      assert actions == [actions[0]];
      OfOne(actions[0], order);
    }
  }

  // ---------------------------------------------------------------------
  // Conservation
  // ---------------------------------------------------------------------

  /** How often an action occurs. */
  function Count(actions: seq<Action>, x: Action): nat {
    if actions == [] then 0 else (if actions[0] == x then 1 else 0) + Count(actions[1..], x)
  }

  lemma {:induction false} CountAppend(a: seq<Action>, b: seq<Action>, x: Action)
    ensures Count(a + b, x) == Count(a, x) + Count(b, x)
  {
    if a == [] {
      assert a + b == b;
    } else {
      assert (a + b)[1..] == a[1..] + b;
      CountAppend(a[1..], b, x);
    }
  }

  /** How often an action sits in the shards. */
  ghost function Pending(queues: seq<seq<Action>>, busy: seq<Option<Action>>, x: Action): nat
    requires |queues| == |busy|
  {
    if queues == [] then 0 else Count(queues[0] + InHand(busy[0]), x) + Pending(queues[1..], busy[1..], x)
  }

  lemma {:induction false} PendingWith(queues: seq<seq<Action>>, busy: seq<Option<Action>>, k: nat, q: seq<Action>, b: Option<Action>, x: Action)
    requires |queues| == |busy| && k < |queues|
    ensures Pending(queues[k := q], busy[k := b], x) == Pending(queues, busy, x) - Count(queues[k] + InHand(busy[k]), x) + Count(q + InHand(b), x)
  {
    if k == 0 {
      assert queues[k := q][1..] == queues[1..] && busy[k := b][1..] == busy[1..];
    } else {
      assert queues[k := q][1..] == queues[1..][k - 1 := q] && busy[k := b][1..] == busy[1..][k - 1 := b];
      PendingWith(queues[1..], busy[1..], k - 1, q, b, x);
    }
  }

  /** Carried out, reported as rejected, or pending. */
  ghost function Accounted(p: Pool, x: Action): nat
    requires Shaped(p)
  {
    Count(p.done, x) + Count(p.reported, x) + Pending(p.queues, p.busy, x)
  }

  lemma DispatchAccounts(p: Pool, a: Action, x: Action)
    requires Shaped(p)
    ensures Accounted(Apply(p, Dispatch(a)), x) == Accounted(p, x) + Count([a], x)
  {
    var k := Shard(a.order, |p.queues|);
    PendingWith(p.queues, p.busy, k, p.queues[k] + [a], p.busy[k], x);
    assert p.busy[k := p.busy[k]] == p.busy;
    CountAppend(p.queues[k] + [a], InHand(p.busy[k]), x);
    CountAppend(p.queues[k], [a], x);
    CountAppend(p.queues[k], InHand(p.busy[k]), x);
    CountAppend(p.reported, [a], x);
  }

  lemma CountMoved(queue: seq<Action>, x: Action)
    requires queue != []
    ensures Count(queue + InHand(None), x) == Count(queue[1..] + InHand(Some(queue[0])), x)
  {
    assert queue + [] == [queue[0]] + queue[1..];
    CountAppend([queue[0]], queue[1..], x);
    CountAppend(queue[1..], [queue[0]], x);
  }

  lemma TakeAccounts(p: Pool, w: int, x: Action)
    requires Shaped(p)
    ensures Accounted(Apply(p, Take(w)), x) == Accounted(p, x)
  {
    if 0 <= w < |p.queues| && p.busy[w].None? && p.queues[w] != [] {
      PendingWith(p.queues, p.busy, w, p.queues[w][1..], Some(p.queues[w][0]), x);
      CountMoved(p.queues[w], x);
    }
  }

  lemma FinishAccounts(p: Pool, w: int, ok: bool, x: Action)
    requires Shaped(p)
    ensures Accounted(Apply(p, Finish(w, ok)), x) == Accounted(p, x)
  {
    if 0 <= w < |p.queues| && p.busy[w].Some? {
      var a := p.busy[w].value;
      PendingWith(p.queues, p.busy, w, p.queues[w], None, x);
      assert p.queues[w := p.queues[w]] == p.queues && p.queues[w] + [] == p.queues[w];
      CountAppend(p.queues[w], [a], x);
      CountAppend(p.done, [a], x);
      CountAppend(p.reported, [a], x);
    }
  }

  /** However often an action is dispatched, it is as often carried out, reported as rejected or still pending. */
  lemma {:induction false} NothingLost(p: Pool, steps: seq<Step>, x: Action)
    requires Shaped(p)
    ensures Shaped(Run(p, steps)) && Accounted(Run(p, steps), x) == Accounted(p, x) + Count(Dispatched(steps), x)
    decreases |steps|
  {
    if steps != [] {
      NothingLost(Apply(p, steps[0]), steps[1..], x);
      match steps[0]
      case Dispatch(a) => DispatchAccounts(p, a, x); CountAppend([a], Dispatched(steps[1..]), x);
      case Take(w) => TakeAccounts(p, w, x); assert Dispatched(steps) == Dispatched(steps[1..]);
      case Finish(w, ok) => FinishAccounts(p, w, ok, x); assert Dispatched(steps) == Dispatched(steps[1..]);
    }
  }
}
