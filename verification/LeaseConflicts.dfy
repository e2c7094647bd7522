/** What a refused heartbeat tells an instance about the key. */
module LeaseConflicts {
  import opened Ordering
  import opened Lease

  /** A registering instance has written at most once, and knows of it when its reply arrives. */
  ghost predicate TrackedNew(s: Registry, i: int, id: int) {
    && (forall q :: q in s.requests && q.who == i ==> q.op.Put? && q.id == id)
    && (forall q, r :: q in s.requests && q.who == i && r in s.writers ==> s.writers[r] != i)
    && (forall a, r :: a in s.replies && a.who == i && a.result.Written? && r in s.writers && s.writers[r] == i ==> r <= a.result.rev)
    && (forall a, q :: a in s.replies && a.who == i && q in s.requests ==> q.who != i)
  }

  /** An active instance has at most one write it does not know of, and all its requests name what it holds or less. */
  ghost predicate TrackedActive(s: Registry, i: int, held: int, waiting: Option<int>) {
    && (forall q :: q in s.requests && q.who == i ==> q.op.Update? && q.op.rev <= held)
    && (forall r, r' :: r in s.writers && r' in s.writers && s.writers[r] == s.writers[r'] == i && r > held && r' > held ==> r == r')
    && (forall a :: a in s.replies && a.who == i && waiting == Some(a.id) && a.result.Written? ==> a.result.rev > held)
  }

  ghost predicate NothingPast(s: Registry, i: int, held: int) {
    forall r :: r in s.writers && s.writers[r] == i ==> r <= held
  }

  /** With no failure since its last success, everything it wrote is what it holds, unless its present request was carried out. */
  ghost predicate Quiet(s: Registry, i: int, held: int, waiting: Option<int>) {
    && (forall q :: q in s.requests && q.who == i && q.op.Update? ==> if waiting == Some(q.id) then q.op.rev == held else q.op.rev < held)
    && ((exists q :: q in s.requests && waiting == Some(q.id)) || waiting.None? ==> NothingPast(s, i, held))
  }

  ghost predicate Tracked(s: Registry, i: int) {
    i in s.instances ==>
      match s.instances[i]
      case Registering(id) => TrackedNew(s, i, id)
      case Active(held, failures, waiting) => TrackedActive(s, i, held, waiting) && (failures == 0 ==> Quiet(s, i, held, waiting))
      case Stopped(_) => true
  }

  lemma ServeKeepsNew(s: Registry, q: Request, i: int, id: int)
    requires Inv(s) && q in s.requests && TrackedNew(s, i, id)
    ensures TrackedNew(Serve(s, q), i, id)
  {}

  lemma ServeKeepsActive(s: Registry, q: Request, i: int, held: int, waiting: Option<int>)
    requires Inv(s) && q in s.requests && TrackedActive(s, i, held, waiting)
    requires i in s.instances && s.instances[i].Active? && s.instances[i].rev == held && s.instances[i].waiting == waiting
    ensures TrackedActive(Serve(s, q), i, held, waiting)
    ensures q.who == i && Succeeds(s, q) ==> NothingPast(s, i, held)
  {}

  lemma ServeKeepsQuiet(s: Registry, q: Request, i: int, held: int, waiting: Option<int>)
    requires Inv(s) && q in s.requests && TrackedActive(s, i, held, waiting) && Quiet(s, i, held, waiting)
    requires i in s.instances && s.instances[i].Active? && s.instances[i].rev == held && s.instances[i].waiting == waiting
    ensures Quiet(Serve(s, q), i, held, waiting)
  {
    if q.who == i && waiting != Some(q.id) { assert !Succeeds(s, q); }
  }

  lemma ServeKeepsTracked(s: Registry, q: Request, i: int)
    requires Inv(s) && Tracked(s, i) && q in s.requests
    ensures Tracked(Serve(s, q), i)
  {
    if i in s.instances {
      match s.instances[i]
      case Registering(id) => ServeKeepsNew(s, q, i, id);
      case Active(held, failures, waiting) =>
        ServeKeepsActive(s, q, i, held, waiting);
        if failures == 0 { ServeKeepsQuiet(s, q, i, held, waiting); }
      case Stopped(_) =>
    }
  }

  lemma AnswerKeepsTracked(s: Registry, a: Reply, i: int)
    requires Inv(s) && Tracked(s, i) && a in s.replies && a.who in s.instances
    ensures Tracked(Apply(s, Answer(a)), i)
  {}

  lemma RegisterKeepsTracked(s: Registry, who: int, i: int)
    requires Inv(s) && Tracked(s, i)
    ensures Tracked(Apply(s, Register(who)), i)
  {
    if i in s.instances && s.instances[i].Active? && s.instances[i].waiting.Some? {
      assert Awaits(s.instances[i], s.instances[i].waiting.value);
    }
  }

  lemma TickKeepsTracked(s: Registry, who: int, i: int)
    requires Inv(s) && Tracked(s, i)
    ensures Tracked(Apply(s, Tick(who)), i)
  {
    if i in s.instances && s.instances[i].Active? && s.instances[i].waiting.Some? {
      assert Awaits(s.instances[i], s.instances[i].waiting.value);
    }
  }

  lemma OtherKeepsTracked(s: Registry, step: Step, i: int)
    requires Tracked(s, i) && !step.Arrive? && !step.Answer? && !step.Register? && !step.Tick?
    ensures Tracked(Apply(s, step), i)
  {}

  lemma StepKeepsTracked(s: Registry, step: Step, i: int)
    requires Inv(s) && Tracked(s, i)
    ensures Tracked(Apply(s, step), i)
  {
    match step
    case Arrive(q) => if q in s.requests { ServeKeepsTracked(s, q, i); }
    case Answer(a) => if a in s.replies { AnswerKeepsTracked(s, a, i); }
    case Register(who) => RegisterKeepsTracked(s, who, i);
    case Tick(who) => TickKeepsTracked(s, who, i);
    case _ => OtherKeepsTracked(s, step, i);
  }

  lemma {:induction false} RunKeepsTracked(s: Registry, steps: seq<Step>, i: int)
    requires Inv(s) && Tracked(s, i)
    ensures Inv(Run(s, steps)) && Tracked(Run(s, steps), i)
    decreases |steps|
  {
    if steps != [] {
      var step := steps[0];
      StepKeepsInv(s, step);
      StepKeepsTracked(s, step, i);
      RunKeepsTracked(Apply(s, step), steps[1..], i);
    }
  }

  /**
   In every run: when the store refuses the request an instance is waiting on, and no request of it
   has timed out since its last success, the key really is somebody else's, deleted or expired.
   */
  lemma ConflictIsReal(steps: seq<Step>, i: int, q: Request)
    requires var s := Run(Start(), steps);
             && q in s.requests && !Succeeds(s, q) && i in s.instances && s.instances[i].Active?
             && s.instances[i].waiting == Some(q.id) && s.instances[i].failures == 0
    ensures Owner(Run(Start(), steps)) != Some(i)
  {
    var s := Run(Start(), steps);
    RunKeepsTracked(Start(), steps, i);
    assert Awaits(s.instances[i], q.id);
  }

  /** One instance registers, gives up on a heartbeat that is carried out late, and sends another. */
  function LateWrite(): seq<Step> {
    [Register(1), Arrive(Request(0, 1, Put)), Answer(Reply(0, 1, Written(1))), Tick(1), TimeOut(1), Tick(1)] +
    [Arrive(Request(1, 1, Update(1))), Arrive(Request(2, 1, Update(1))), Answer(Reply(2, 1, Conflict))]
  }

  /** After a timeout a conflict need not be real: the only instance there ever was is fenced by its own late write. */
  lemma FencedByItself()
    ensures var s := Run(Start(), LateWrite());
            s.instances == map[1 := Stopped(Fenced)] && Owner(s) == Some(1)
  {
    var start := [Register(1), Arrive(Request(0, 1, Put)), Answer(Reply(0, 1, Written(1)))];
    var retry := [Tick(1), TimeOut(1), Tick(1)];
    var late := [Arrive(Request(1, 1, Update(1))), Arrive(Request(2, 1, Update(1))), Answer(Reply(2, 1, Conflict))];
    assert LateWrite() == start + (retry + late) && late + [] == late;
    RunThree(Start(), start, retry + late);
    RunThree(Registered(), retry, late);
    RunThree(Retrying(), late, []);
    RegisterAlone();
    RetryAlone();
    FencedAlone();
  }

  lemma RunThree(s: Registry, three: seq<Step>, rest: seq<Step>)
    requires |three| == 3
    ensures Run(s, three + rest) == Run(Apply(Apply(Apply(s, three[0]), three[1]), three[2]), rest)
  {
    var steps := three + rest;
    assert Run(s, steps) == Run(Apply(s, three[0]), steps[1..]);
    assert steps[1..][1..] == steps[2..] && steps[2..][1..] == rest;
    assert Run(Apply(s, three[0]), steps[1..]) == Run(Apply(Apply(s, three[0]), three[1]), steps[2..]);
  }

  function Registered(): Registry { Registry(1, 1, map[1 := 1], 1, map[1 := Active(1, 0, None)], {}, {}) }

  function Retrying(): Registry {
    Registry(1, 1, map[1 := 1], 3, map[1 := Active(1, 1, Some(2))], {Request(1, 1, Update(1)), Request(2, 1, Update(1))}, {})
  }

  lemma RegisterAlone()
    ensures Apply(Apply(Apply(Start(), Register(1)), Arrive(Request(0, 1, Put))), Answer(Reply(0, 1, Written(1)))) == Registered()
  {}

  lemma RetryAlone()
    ensures Apply(Apply(Apply(Registered(), Tick(1)), TimeOut(1)), Tick(1)) == Retrying()
  {}

  lemma FencedAlone()
    ensures var s := Apply(Apply(Apply(Retrying(), Arrive(Request(1, 1, Update(1)))), Arrive(Request(2, 1, Update(1)))), Answer(Reply(2, 1, Conflict)));
            Owner(s) == Some(1) && s.instances == map[1 := Stopped(Fenced)]
  {}
}
