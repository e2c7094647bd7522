/**
 The lease on one registry key. Instances register with an unconditional put and
 then keep the key alive with compare-and-set updates against the revision they
 hold. Requests and replies travel separately: either may be lost or late, and an
 instance stops waiting for a reply without knowing whether its request was applied.
 An instance is one life of a process; it registers once.
 */
module Lease {
  import opened Ordering

  const MAX_HEARTBEAT_RETRIES := 5

  datatype Op = Put | Update(rev: int)

  datatype Request = Request(id: int, who: int, op: Op)

  datatype Result = Written(rev: int) | Conflict

  datatype Reply = Reply(id: int, who: int, result: Result)

  datatype Reason = Fenced | RegistryUnavailable | Failed | Halted

  datatype Phase =
    | Registering(awaiting: int)
    | Active(rev: int, failures: nat, waiting: Option<int>)
    | Stopped(reason: Reason)

  /**
   `current` is the revision the key is at (zero: no entry), `seqNo` the last revision given out, and
   `writers` who wrote each revision; a deletion marker has no writer.
   */
  datatype Registry = Registry(seqNo: int, current: int, writers: map<int, int>, nextId: int, instances: map<int, Phase>,
                           requests: set<Request>, replies: set<Reply>)

  datatype Step =
    | Register(i: int)
    | Tick(i: int)
    | Arrive(q: Request)
    | LoseRequest(q: Request)
    | Answer(a: Reply)
    | LoseReply(a: Reply)
    | TimeOut(i: int)
    | Delete
    | Expire
    | Halt(i: int)

  /** The request is carried out: a put always, an update only over the revision it names. */
  predicate Succeeds(s: Registry, q: Request) {
    q.op.Put? || q.op.rev == s.current
  }

  function Write(s: Registry, who: int): Registry {
    s.(seqNo := s.seqNo + 1, current := s.seqNo + 1, writers := s.writers[s.seqNo + 1 := who])
  }

  function Serve(s: Registry, q: Request): Registry {
    var s1 := s.(requests := s.requests - {q});
    if Succeeds(s, q) then Write(s1, q.who).(replies := s.replies + {Reply(q.id, q.who, Written(s.seqNo + 1))})
    else s1.(replies := s.replies + {Reply(q.id, q.who, Conflict)})
  }

  predicate Awaits(p: Phase, id: int) {
    (p.Registering? && p.awaiting == id) || (p.Active? && p.waiting == Some(id))
  }

  /** A reply is taken only by the instance still waiting for it. */
  function Received(p: Phase, a: Reply): Phase {
    if !Awaits(p, a.id) then p
    else if a.result.Written? then Active(a.result.rev, 0, None)
    else Stopped(Fenced)
  }

  function TimedOut(p: Phase): Phase {
    if p.Registering? then Stopped(Failed)
    else if p.Active? && p.waiting.Some? then
      if p.failures + 1 >= MAX_HEARTBEAT_RETRIES then Stopped(RegistryUnavailable) else Active(p.rev, p.failures + 1, None)
    else p
  }

  /** A step that is not enabled changes nothing. */
  function Apply(s: Registry, step: Step): Registry {
    match step
    case Register(i) =>
      if i in s.instances then s
      else s.(instances := s.instances[i := Registering(s.nextId)], requests := s.requests + {Request(s.nextId, i, Put)}, nextId := s.nextId + 1)
    case Tick(i) =>
      if i !in s.instances || !s.instances[i].Active? || s.instances[i].waiting.Some? then s
      else s.(instances := s.instances[i := s.instances[i].(waiting := Some(s.nextId))],
              requests := s.requests + {Request(s.nextId, i, Update(s.instances[i].rev))}, nextId := s.nextId + 1)
    case Arrive(q) => if q in s.requests then Serve(s, q) else s
    case LoseRequest(q) => s.(requests := s.requests - {q})
    case Answer(a) =>
      if a !in s.replies || a.who !in s.instances then s
      else s.(instances := s.instances[a.who := Received(s.instances[a.who], a)], replies := s.replies - {a})
    case LoseReply(a) => s.(replies := s.replies - {a})
    case TimeOut(i) => if i in s.instances then s.(instances := s.instances[i := TimedOut(s.instances[i])]) else s
    case Delete => s.(seqNo := s.seqNo + 1, current := s.seqNo + 1)
    case Expire => s.(current := 0)
    case Halt(i) => if i in s.instances then s.(instances := s.instances[i := Stopped(Halted)]) else s
  }

  /** Nothing written, nobody registered, nothing under way. */
  function Start(): Registry { Registry(0, 0, map[], 0, map[], {}, {}) }

  ghost function Run(s: Registry, steps: seq<Step>): Registry
    decreases |steps|
  {
    if steps == [] then s else Run(Apply(s, steps[0]), steps[1..])
  }

  predicate WroteBy(s: Registry, r: int, i: int) { r in s.writers && s.writers[r] == i }

  // ---------------------------------------------------------------------
  // The invariant
  // ---------------------------------------------------------------------

  /** Revisions only grow, and the current one is the newest. */
  ghost predicate Ordered(s: Registry) {
    && 0 <= s.current <= s.seqNo
    && (forall r :: r in s.writers ==> 0 < r <= s.seqNo && (s.current != 0 ==> r <= s.current))
  }

  /** Every revision that an instance holds, names or is told about was written by that instance. */
  ghost predicate Attributed(s: Registry) {
    && (forall q :: q in s.requests && q.op.Update? ==> WroteBy(s, q.op.rev, q.who))
    && (forall a :: a in s.replies && a.result.Written? ==> WroteBy(s, a.result.rev, a.who))
    && (forall i :: i in s.instances && s.instances[i].Active? ==> WroteBy(s, s.instances[i].rev, i))
  }

  /** Message ids are given out once. */
  ghost predicate Numbered(s: Registry) {
    && (forall q :: q in s.requests ==> q.id < s.nextId && q.who in s.instances)
    && (forall a :: a in s.replies ==> a.id < s.nextId && a.who in s.instances)
    && (forall r :: r in s.writers ==> s.writers[r] in s.instances)
    && (forall i, id :: i in s.instances && Awaits(s.instances[i], id) ==> id < s.nextId)
  }

  /** Each request is answered at most once. */
  ghost predicate Exchanges(s: Registry) {
    && (forall q, p :: q in s.requests && p in s.requests && q.id == p.id ==> q == p)
    && (forall q, a :: q in s.requests && a in s.replies ==> q.id != a.id)
  }

  /** What an instance waits for is its own. */
  ghost predicate Matched(s: Registry) {
    && (forall i, q :: i in s.instances && q in s.requests && Awaits(s.instances[i], q.id) ==> q.who == i)
    && (forall i, a :: i in s.instances && a in s.replies && Awaits(s.instances[i], a.id) ==> a.who == i)
  }

  ghost predicate Inv(s: Registry) {
    Ordered(s) && Attributed(s) && Numbered(s) && Exchanges(s) && Matched(s)
  }

  lemma StepKeepsOrdered(s: Registry, step: Step)
    requires Ordered(s)
    ensures Ordered(Apply(s, step))
  {}

  lemma StepKeepsAttributed(s: Registry, step: Step)
    requires Ordered(s) && Attributed(s)
    ensures Attributed(Apply(s, step))
  {}

  lemma StepKeepsNumbered(s: Registry, step: Step)
    requires Numbered(s)
    ensures Numbered(Apply(s, step))
  {}

  lemma StepKeepsExchanges(s: Registry, step: Step)
    requires Numbered(s) && Exchanges(s)
    ensures Exchanges(Apply(s, step))
  {}

  lemma StepKeepsMatched(s: Registry, step: Step)
    requires Numbered(s) && Matched(s)
    ensures Matched(Apply(s, step))
  {}

  lemma StepKeepsInv(s: Registry, step: Step)
    requires Inv(s)
    ensures Inv(Apply(s, step))
  {
    StepKeepsOrdered(s, step);
    StepKeepsAttributed(s, step);
    StepKeepsNumbered(s, step);
    StepKeepsExchanges(s, step);
    StepKeepsMatched(s, step);
  }

  lemma {:induction false} RunKeepsInv(s: Registry, steps: seq<Step>)
    requires Inv(s)
    ensures Inv(Run(s, steps))
    decreases |steps|
  {
    if steps != [] {
      StepKeepsInv(s, steps[0]);
      RunKeepsInv(Apply(s, steps[0]), steps[1..]);
    }
  }

  // ---------------------------------------------------------------------
  // Safety
  // ---------------------------------------------------------------------

  /** The instance that wrote the key's current value. */
  function Owner(s: Registry): Option<int> {
    if s.current in s.writers then Some(s.writers[s.current]) else None
  }

  predicate HoldsCurrent(s: Registry, i: int) {
    i in s.instances && s.instances[i].Active? && s.instances[i].rev == s.current
  }

  /** At most one instance holds the current revision, in every state of every run, and it is the owner. */
  lemma OneHolder(steps: seq<Step>, i: int, j: int)
    requires HoldsCurrent(Run(Start(), steps), i) && HoldsCurrent(Run(Start(), steps), j)
    ensures i == j && Owner(Run(Start(), steps)) == Some(i)
  {
    RunKeepsInv(Start(), steps);
  }

  /** The owner changes only when somebody registers, the key is deleted or its entry expires: never by a heartbeat. */
  lemma HeartbeatsKeepOwner(s: Registry, step: Step)
    requires Inv(s) && Owner(Apply(s, step)) != Owner(s)
    ensures step.Delete? || step.Expire? || (step.Arrive? && step.q in s.requests && step.q.op.Put?)
  {}

  /** A revision that is not current will never be current again. */
  lemma {:induction false} StaleForever(s: Registry, steps: seq<Step>, rev: int)
    requires Inv(s) && 0 < rev <= s.seqNo && rev != s.current
    ensures Run(s, steps).current != rev && rev <= Run(s, steps).seqNo
    decreases |steps|
  {
    if steps != [] {
      StepKeepsInv(s, steps[0]);
      StaleForever(Apply(s, steps[0]), steps[1..], rev);
    }
  }

  /** So an update against it is refused however the run went on. */
  lemma StaleUpdateFails(s: Registry, steps: seq<Step>, q: Request)
    requires Inv(s) && q.op.Update? && 0 < q.op.rev <= s.seqNo && q.op.rev != s.current
    ensures !Succeeds(Run(s, steps), q)
  {
    StaleForever(s, steps, q.op.rev);
  }

  /** Somebody else owns the key, or nobody, and `i` has no registration under way. */
  ghost predicate Ousted(s: Registry, i: int) {
    Owner(s) != Some(i) && i in s.instances && forall q :: q in s.requests && q.who == i ==> !q.op.Put?
  }

  /** An ousted instance never writes the key again, whatever requests of its own are still on the way. */
  lemma {:induction false} OustedForGood(s: Registry, steps: seq<Step>, i: int)
    requires Inv(s) && Ousted(s, i)
    ensures Ousted(Run(s, steps), i)
    ensures forall r :: WroteBy(Run(s, steps), r, i) ==> r <= s.seqNo
    decreases |steps|
  {
    if steps != [] {
      var s1 := Apply(s, steps[0]);
      StepKeepsInv(s, steps[0]);
      OustedStep(s, steps[0], i);
      OustedForGood(s1, steps[1..], i);
      forall r | WroteBy(Run(s, steps), r, i) ensures r <= s.seqNo {
        WritersKept(s1, steps[1..], r);
      }
    }
  }

  lemma OustedStep(s: Registry, step: Step, i: int)
    requires Inv(s) && Ousted(s, i)
    ensures Ousted(Apply(s, step), i)
    ensures forall r :: WroteBy(Apply(s, step), r, i) ==> r <= s.seqNo
  {}

  /** History is append-only. */
  lemma {:induction false} WritersKept(s: Registry, steps: seq<Step>, r: int)
    requires Inv(s) && r <= s.seqNo
    ensures r in Run(s, steps).writers <==> r in s.writers
    ensures r in s.writers ==> Run(s, steps).writers[r] == s.writers[r]
    decreases |steps|
  {
    if steps != [] {
      StepKeepsInv(s, steps[0]);
      WritersKept(Apply(s, steps[0]), steps[1..], r);
    }
  }
}
