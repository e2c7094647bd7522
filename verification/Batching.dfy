/**
 Batch processing of order or cancel requests: requests are handled one at a time,
 and what they send to one gateway is gathered into one block of the output. The
 per-request step is any function; `Q` is a request, `R` what goes to a gateway and
 `O` any other action.
 */
module Batching {
  import opened Ordering

  datatype Action<R, O> = Send(gw: string, request: R) | Other(other: O)

  datatype Output<R, O> = One(action: Action<R, O>) | Batch(batchGw: string, requests: seq<R>)

  type Handler<!S, !Q, R, O> = (S, Q) -> (S, seq<Action<R, O>>)

  /** Handling the requests one at a time: the final state and all actions in order. */
  ghost function OneByOne<S, Q, R, O>(step: Handler<S, Q, R, O>, s: S, reqs: seq<Q>): (S, seq<Action<R, O>>) {
    if reqs == [] then (s, [])
    else
      var (s1, acts) := OneByOne(step, s, reqs[..|reqs| - 1]);
      var (s2, more) := step(s1, reqs[|reqs| - 1]);
      (s2, acts + more)
  }

  /** The requests sent to one gateway, in order. */
  ghost function SentTo<R, O>(acts: seq<Action<R, O>>, gw: string): seq<R> {
    if acts == [] then []
    else (if acts[0].Send? && acts[0].gw == gw then [acts[0].request] else []) + SentTo(acts[1..], gw)
  }

  /** Everything that is not sent to a gateway, in order. */
  ghost function Others<R, O>(acts: seq<Action<R, O>>): seq<O> {
    if acts == [] then [] else (if acts[0].Other? then [acts[0].other] else []) + Others(acts[1..])
  }

  /** The requests of an output that reach one gateway, batches opened up. */
  ghost function Reaching<R, O>(out: seq<Output<R, O>>, gw: string): seq<R> {
    if out == [] then [] else Carried(out[0], gw) + Reaching(out[1..], gw)
  }

  function Carried<R, O>(o: Output<R, O>, gw: string): seq<R> {
    match o
    case One(Send(g, r)) => if g == gw then [r] else []
    case One(Other(_)) => []
    case Batch(g, rs) => if g == gw then rs else []
  }

  ghost function OthersOut<R, O>(out: seq<Output<R, O>>): seq<O> {
    if out == [] then [] else OtherOf(out[0]) + OthersOut(out[1..])
  }

  function OtherOf<R, O>(o: Output<R, O>): seq<O> {
    if o.One? && o.action.Other? then [o.action.other] else []
  }

  function Sends<R, O>(gw: string, requests: seq<R>): (out: seq<Output<R, O>>)
    ensures |out| == |requests| && forall i :: 0 <= i < |out| ==> out[i] == One(Send(gw, requests[i]))
  {
    seq(|requests|, i requires 0 <= i < |requests| => One(Send(gw, requests[i])))
  }

  /** What goes to one gateway: a batch if it takes batches and there is more than one request. */
  function Block<R, O>(supports: string -> bool, gw: string, requests: seq<R>): seq<Output<R, O>> {
    if |requests| > 1 && supports(gw) then [Batch(gw, requests)] else Sends(gw, requests)
  }

  lemma {:induction false} ReachingAppend<R, O>(a: seq<Output<R, O>>, b: seq<Output<R, O>>, gw: string)
    ensures Reaching(a + b, gw) == Reaching(a, gw) + Reaching(b, gw)
  {
    if a == [] {
      assert a + b == b;
    } else {
      assert (a + b)[1..] == a[1..] + b;
      ReachingAppend(a[1..], b, gw);
      Regroup(Carried(a[0], gw), Reaching(a[1..], gw), Reaching(b, gw));
    }
  }

  lemma {:induction false} OthersOutAppend<R, O>(a: seq<Output<R, O>>, b: seq<Output<R, O>>)
    ensures OthersOut(a + b) == OthersOut(a) + OthersOut(b)
  {
    if a == [] {
      assert a + b == b;
    } else {
      assert (a + b)[1..] == a[1..] + b;
      OthersOutAppend(a[1..], b);
      Regroup(OtherOf(a[0]), OthersOut(a[1..]), OthersOut(b));
    }
  }

  lemma {:induction false} SendsReach<R, O>(requests: seq<R>, gw: string, other: string)
    ensures Reaching(Sends<R, O>(gw, requests), other) == if gw == other then requests else []
    ensures OthersOut(Sends<R, O>(gw, requests)) == []
  {
    if requests != [] {
      assert Sends<R, O>(gw, requests)[1..] == Sends<R, O>(gw, requests[1..]);
      SendsReach<R, O>(requests[1..], gw, other);
      assert requests == [requests[0]] + requests[1..];
    }
  }

  /** A block carries its gateway's requests, in order, and nothing else. */
  lemma BlockReaches<R, O>(supports: string -> bool, gw: string, requests: seq<R>, other: string)
    ensures Reaching(Block<R, O>(supports, gw, requests), other) == if gw == other then requests else []
    ensures OthersOut(Block<R, O>(supports, gw, requests)) == []
  {
    SendsReach<R, O>(requests, gw, other);
    var b: seq<Output<R, O>> := [Batch(gw, requests)];
    assert b[1..] == [];
  }

  lemma {:induction false} OthersOnly<R, O>(others: seq<O>, gw: string)
    ensures Reaching(Wrap<R, O>(others), gw) == [] && OthersOut(Wrap<R, O>(others)) == others
  {
    if others != [] {
      assert Wrap<R, O>(others)[1..] == Wrap<R, O>(others[1..]);
      OthersOnly<R, O>(others[1..], gw);
      assert others == [others[0]] + others[1..];
    }
  }

  function Wrap<R, O>(others: seq<O>): (out: seq<Output<R, O>>)
    ensures |out| == |others| && forall i :: 0 <= i < |out| ==> out[i] == One(Other(others[i]))
  {
    seq(|others|, i requires 0 <= i < |others| => One(Other(others[i])))
  }

  ghost function Blocks<R, O>(supports: string -> bool, acts: seq<Action<R, O>>, order: seq<string>): seq<Output<R, O>> {
    if order == [] then [] else Block(supports, order[0], SentTo(acts, order[0])) + Blocks(supports, acts, order[1..])
  }

  /** The other actions first, then one block for each gateway of `order`. */
  ghost function Grouped<R, O>(supports: string -> bool, acts: seq<Action<R, O>>, order: seq<string>): seq<Output<R, O>> {
    Wrap(Others(acts)) + Blocks(supports, acts, order)
  }

  predicate Distinct(order: seq<string>) {
    forall i, j :: 0 <= i < j < |order| ==> order[i] != order[j]
  }

  /** `out` is the actions grouped by gateway, in some order of the gateways. */
  ghost predicate IsGrouping<R, O>(supports: string -> bool, acts: seq<Action<R, O>>, out: seq<Output<R, O>>) {
    exists order: seq<string> ::
      && Distinct(order) && (forall gw :: gw in order <==> SentTo(acts, gw) != [])
      && out == Grouped(supports, acts, order)
  }

  lemma {:induction false} BlocksReach<R, O>(supports: string -> bool, acts: seq<Action<R, O>>, order: seq<string>, gw: string)
    requires Distinct(order)
    ensures Reaching(Blocks(supports, acts, order), gw) == if gw in order then SentTo(acts, gw) else []
  {
    if order != [] {
      var first, rest := order[0], order[1..];
      assert order == [first] + rest;
      BlocksReach(supports, acts, rest, gw);
      var block := Block<R, O>(supports, first, SentTo(acts, first));
      BlockReaches<R, O>(supports, first, SentTo(acts, first), gw);
      ReachingAppend(block, Blocks(supports, acts, rest), gw);
      assert gw in order <==> gw == first || gw in rest;
      assert gw == first ==> gw !in rest;
    }
  }

  lemma {:induction false} BlocksSendOnly<R, O>(supports: string -> bool, acts: seq<Action<R, O>>, order: seq<string>)
    ensures OthersOut(Blocks(supports, acts, order)) == []
  {
    if order != [] {
      BlocksSendOnly(supports, acts, order[1..]);
      var block := Block<R, O>(supports, order[0], SentTo(acts, order[0]));
      BlockReaches<R, O>(supports, order[0], SentTo(acts, order[0]), "");
      OthersOutAppend(block, Blocks(supports, acts, order[1..]));
    }
  }

  lemma GroupedReaches<R, O>(supports: string -> bool, acts: seq<Action<R, O>>, order: seq<string>, gw: string)
    requires Distinct(order)
    ensures Reaching(Grouped(supports, acts, order), gw) == if gw in order then SentTo(acts, gw) else []
    ensures OthersOut(Grouped(supports, acts, order)) == Others(acts)
  {
    var wrapped, blocks := Wrap<R, O>(Others(acts)), Blocks(supports, acts, order);
    OthersOnly<R, O>(Others(acts), gw);
    BlocksReach(supports, acts, order, gw);
    BlocksSendOnly(supports, acts, order);
    ReachingAppend(wrapped, blocks, gw);
    OthersOutAppend(wrapped, blocks);
  }

  /** A block for one gateway more. */
  lemma {:induction false} BlocksSnoc<R, O>(supports: string -> bool, acts: seq<Action<R, O>>, order: seq<string>, gw: string)
    ensures Blocks(supports, acts, order + [gw]) == Blocks(supports, acts, order) + Block(supports, gw, SentTo(acts, gw))
  {
    if order == [] {
      assert [gw][1..] == [];
    } else {
      assert (order + [gw])[1..] == order[1..] + [gw];
      BlocksSnoc(supports, acts, order[1..], gw);
      Regroup(Block<R, O>(supports, order[0], SentTo(acts, order[0])), Blocks(supports, acts, order[1..]), Block(supports, gw, SentTo(acts, gw)));
    }
  }

  lemma GroupedSnoc<R, O>(supports: string -> bool, acts: seq<Action<R, O>>, order: seq<string>, gw: string)
    ensures Grouped(supports, acts, order + [gw]) == Grouped(supports, acts, order) + Block(supports, gw, SentTo(acts, gw))
  {
    BlocksSnoc(supports, acts, order, gw);
    Regroup(Wrap<R, O>(Others(acts)), Blocks(supports, acts, order), Block<R, O>(supports, gw, SentTo(acts, gw)));
  }

  /**
   Grouping by gateway preserves meaning: whatever order the gateways come in, each gateway gets
   exactly the request sequence of one-at-a-time handling, and the other actions keep their order.
   */
  lemma GroupingPreserves<R, O>(supports: string -> bool, acts: seq<Action<R, O>>, out: seq<Output<R, O>>)
    requires IsGrouping(supports, acts, out)
    ensures forall gw :: Reaching(out, gw) == SentTo(acts, gw)
    ensures OthersOut(out) == Others(acts)
  {
    var order: seq<string> :| Distinct(order) && (forall gw :: gw in order <==> SentTo(acts, gw) != []) && out == Grouped(supports, acts, order);
    GroupedReaches(supports, acts, order, "");
    forall gw ensures Reaching(out, gw) == SentTo(acts, gw) {
      GroupedReaches(supports, acts, order, gw);
    }
  }

  function Found<R>(byGw: map<string, seq<R>>, gw: string): seq<R> {
    if gw in byGw then byGw[gw] else []
  }

  /** The actions so far, taken apart: requests by gateway, and the rest. */
  ghost predicate Gathered<R, O>(acts: seq<Action<R, O>>, byGw: map<string, seq<R>>, others: seq<O>) {
    && others == Others(acts)
    && (forall gw :: SentTo(acts, gw) == Found(byGw, gw))
    && (forall gw :: gw in byGw ==> byGw[gw] != [])
  }

  lemma {:induction false} SentToSnoc<R, O>(acts: seq<Action<R, O>>, a: Action<R, O>, gw: string)
    ensures SentTo(acts + [a], gw) == if a.Send? && a.gw == gw then SentTo(acts, gw) + [a.request] else SentTo(acts, gw)
  {
    if acts == [] {
      assert [a][1..] == [];
    } else {
      assert (acts + [a])[1..] == acts[1..] + [a];
      SentToSnoc(acts[1..], a, gw);
      var first := if acts[0].Send? && acts[0].gw == gw then [acts[0].request] else [];
      if a.Send? { Regroup(first, SentTo(acts[1..], gw), [a.request]); }
    }
  }

  lemma {:induction false} OthersSnoc<R, O>(acts: seq<Action<R, O>>, a: Action<R, O>)
    ensures Others(acts + [a]) == if a.Other? then Others(acts) + [a.other] else Others(acts)
  {
    if acts == [] {
      assert [a][1..] == [];
    } else {
      assert (acts + [a])[1..] == acts[1..] + [a];
      OthersSnoc(acts[1..], a);
      var first := if acts[0].Other? then [acts[0].other] else [];
      if a.Other? { Regroup(first, Others(acts[1..]), [a.other]); }
    }
  }

  lemma FoundWith<R>(byGw: map<string, seq<R>>, gw: string, requests: seq<R>, g: string)
    ensures Found(byGw[gw := requests], g) == if g == gw then requests else Found(byGw, g)
  {}

  lemma GatherSend<R, O>(acts: seq<Action<R, O>>, byGw: map<string, seq<R>>, others: seq<O>, gw: string, request: R)
    requires Gathered(acts, byGw, others)
    ensures Gathered(acts + [Send(gw, request)], byGw[gw := Found(byGw, gw) + [request]], others)
  {
    var a, m := Send(gw, request), byGw[gw := Found(byGw, gw) + [request]];
    OthersSnoc(acts, a);
    forall g ensures SentTo(acts + [a], g) == Found(m, g) {
      SentToSnoc(acts, a, g);
      FoundWith(byGw, gw, Found(byGw, gw) + [request], g);
    }
  }

  lemma GatherOther<R, O>(acts: seq<Action<R, O>>, byGw: map<string, seq<R>>, others: seq<O>, other: O)
    requires Gathered(acts, byGw, others)
    ensures Gathered(acts + [Other(other)], byGw, others + [other])
  {
    var a: Action<R, O> := Other(other);
    OthersSnoc(acts, a);
    forall g ensures SentTo(acts + [a], g) == SentTo(acts, g) { SentToSnoc(acts, a, g); }
  }

  method GatherAction<R, O>(ghost acts: seq<Action<R, O>>, byGw: map<string, seq<R>>, others: seq<O>, a: Action<R, O>)
    returns (byGw': map<string, seq<R>>, others': seq<O>)
    requires Gathered(acts, byGw, others)
    ensures Gathered(acts + [a], byGw', others')
  {
    match a
    case Send(gw, request) =>
      GatherSend(acts, byGw, others, gw, request);
      return byGw[gw := Found(byGw, gw) + [request]], others;
    case Other(other) =>
      GatherOther(acts, byGw, others, other);
      return byGw, others + [other];
  }

  method GatherActions<R, O>(ghost acts: seq<Action<R, O>>, byGw: map<string, seq<R>>, others: seq<O>, more: seq<Action<R, O>>)
    returns (byGw': map<string, seq<R>>, others': seq<O>)
    requires Gathered(acts, byGw, others)
    ensures Gathered(acts + more, byGw', others')
  {
    byGw', others' := byGw, others;
    ghost var seen := acts;
    for j := 0 to |more|
      invariant seen == acts + more[..j] && Gathered(seen, byGw', others')
    {
      byGw', others' := GatherAction(seen, byGw', others', more[j]);
      seen := seen + [more[j]];
    }
    assert more[..|more|] == more;
  }

  /** Handle requests one at a time, and gather what they send by gateway. */
  method Gather<S, Q, R, O>(step: Handler<S, Q, R, O>, s: S, reqs: seq<Q>)
    returns (s': S, byGw: map<string, seq<R>>, others: seq<O>)
    ensures s' == OneByOne(step, s, reqs).0 && Gathered(OneByOne(step, s, reqs).1, byGw, others)
  {
    s', byGw, others := s, map[], [];
    for i := 0 to |reqs|
      invariant s' == OneByOne(step, s, reqs[..i]).0 && Gathered(OneByOne(step, s, reqs[..i]).1, byGw, others)
    {
      assert reqs[..i + 1][..i] == reqs[..i];
      var (next, more) := step(s', reqs[i]);
      byGw, others := GatherActions(OneByOne(step, s, reqs[..i]).1, byGw, others, more);
      s' := next;
    }
    assert reqs[..|reqs|] == reqs;
  }

  /** `order` lists the gateways in `done`, each once. */
  ghost predicate Lists(order: seq<string>, done: set<string>) {
    Distinct(order) && forall gw :: gw in order <==> gw in done
  }

  lemma ListsMore(order: seq<string>, done: set<string>, gw: string)
    requires Lists(order, done) && gw !in done
    ensures Lists(order + [gw], done + {gw})
  {}

  /** Emit the other actions, and then a block for each gateway, in any order. */
  method Emit<R, O>(supports: string -> bool, ghost acts: seq<Action<R, O>>, byGw: map<string, seq<R>>, others: seq<O>)
    returns (out: seq<Output<R, O>>, ghost order: seq<string>)
    requires Gathered(acts, byGw, others)
    ensures Lists(order, byGw.Keys) && out == Grouped(supports, acts, order)
  {
    out, order := Wrap(others), [];
    assert out + [] == out;
    var todo := byGw.Keys;
    ghost var done: set<string> := {};
    while todo != {}
      invariant todo <= byGw.Keys && done == byGw.Keys - todo
      invariant Lists(order, done) && out == Grouped(supports, acts, order)
      decreases |todo|
    {
      var gw :| gw in todo;
      GroupedSnoc(supports, acts, order, gw);
      ListsMore(order, done, gw);
      out := out + Block(supports, gw, byGw[gw]);
      order, done, todo := order + [gw], done + {gw}, todo - {gw};
    }
    assert done == byGw.Keys;
  }

  /** Batch processing ends in the state of one-at-a-time handling, and its output is those actions grouped by gateway. */
  method BatchProcess<S, Q, R, O>(step: Handler<S, Q, R, O>, supports: string -> bool, s: S, reqs: seq<Q>)
    returns (s': S, out: seq<Output<R, O>>)
    ensures s' == OneByOne(step, s, reqs).0
    ensures IsGrouping(supports, OneByOne(step, s, reqs).1, out)
    ensures forall gw :: Reaching(out, gw) == SentTo(OneByOne(step, s, reqs).1, gw)
    ensures OthersOut(out) == Others(OneByOne(step, s, reqs).1)
  {
    var byGw, others;
    s', byGw, others := Gather(step, s, reqs);
    ghost var acts := OneByOne(step, s, reqs).1;
    ghost var order;
    out, order := Emit(supports, acts, byGw, others);
    assert forall gw :: gw in order <==> SentTo(acts, gw) != [];
    GroupingPreserves(supports, acts, out);
  }
}
