/** The heartbeat loop: one update per tick until it is fenced or the registry stays unreachable. */
module Heartbeat {
  import opened Ordering
  import Lease

  datatype Outcome = Ok(rev: int) | Fenced | Retryable

  datatype Termination = FencedOut | RegistryUnavailable

  datatype ShutdownReason = ReasonFenced | HeartbeatLost

  /** `n` ends a run of five failures in a row. */
  ghost predicate Outage(outcomes: seq<Outcome>, n: int) {
    Lease.MAX_HEARTBEAT_RETRIES - 1 <= n < |outcomes| &&
    forall k :: n - Lease.MAX_HEARTBEAT_RETRIES < k <= n ==> outcomes[k].Retryable?
  }

  ghost predicate Fatal(outcomes: seq<Outcome>, n: int) {
    0 <= n < |outcomes| && (outcomes[n].Fenced? || Outage(outcomes, n))
  }

  /** `n` is the outcome the loop must stop at: the first that is a conflict or completes an outage. */
  ghost predicate StopsAt(outcomes: seq<Outcome>, n: int) {
    Fatal(outcomes, n) && forall m :: 0 <= m < n ==> !Fatal(outcomes, m)
  }

  /** The revision of the last success. */
  function LastRevision(initial: int, outcomes: seq<Outcome>): int {
    if outcomes == [] then initial
    else if outcomes[|outcomes| - 1].Ok? then outcomes[|outcomes| - 1].rev
    else LastRevision(initial, outcomes[..|outcomes| - 1])
  }

  /** How many failures in a row end the sequence. */
  ghost function Failures(outcomes: seq<Outcome>): nat {
    if outcomes == [] || !outcomes[|outcomes| - 1].Retryable? then 0 else Failures(outcomes[..|outcomes| - 1]) + 1
  }

  /** The failure counter sees an outage exactly when there is one. */
  lemma {:induction false} CounterSeesOutage(outcomes: seq<Outcome>)
    ensures Failures(outcomes) <= |outcomes|
    ensures forall k :: |outcomes| - Failures(outcomes) <= k < |outcomes| ==> outcomes[k].Retryable?
    ensures Failures(outcomes) < |outcomes| ==> !outcomes[|outcomes| - Failures(outcomes) - 1].Retryable?
    ensures outcomes != [] ==> (Failures(outcomes) >= Lease.MAX_HEARTBEAT_RETRIES <==> Outage(outcomes, |outcomes| - 1))
  {
    if outcomes != [] { CounterSeesOutage(outcomes[..|outcomes| - 1]); }
  }

  lemma FatalInPrefix(outcomes: seq<Outcome>, i: int, n: int)
    requires 0 <= n < i <= |outcomes|
    ensures Fatal(outcomes[..i], n) <==> Fatal(outcomes, n)
  {}

  /** Runs over the outcomes of successive updates; `stop` is None if the loop is aborted after the last of them. */
  method HeartbeatLoop(initial: int, outcomes: seq<Outcome>)
    returns (stop: Option<nat>, termination: Option<Termination>, revision: int)
    ensures stop.Some? ==> StopsAt(outcomes, stop.value)
    ensures stop.None? ==> forall n :: 0 <= n < |outcomes| ==> !Fatal(outcomes, n)
    ensures termination == if stop.None? then None else Some(if outcomes[stop.value].Fenced? then FencedOut else RegistryUnavailable)
    ensures revision == LastRevision(initial, if stop.Some? then outcomes[..stop.value] else outcomes)
  {
    revision := initial;
    var failures := 0;
    for i := 0 to |outcomes|
      invariant failures == Failures(outcomes[..i]) < Lease.MAX_HEARTBEAT_RETRIES
      invariant revision == LastRevision(initial, outcomes[..i])
      invariant forall n :: 0 <= n < i ==> !Fatal(outcomes, n)
    {
      assert outcomes[..i + 1][..i] == outcomes[..i];
      CounterSeesOutage(outcomes[..i + 1]);
      FatalInPrefix(outcomes, i + 1, i);
      match outcomes[i] {
        case Ok(rev) => revision, failures := rev, 0;
        case Fenced => return Some(i), Some(FencedOut), revision;
        case Retryable =>
          failures := failures + 1;
          if failures >= Lease.MAX_HEARTBEAT_RETRIES { return Some(i), Some(RegistryUnavailable), revision; }
      }
    }
    assert outcomes[..|outcomes|] == outcomes;
    return None, None, revision;
  }

  /** A heartbeat that ended without a reason counts as a lost heartbeat. */
  function Reason(t: Option<Termination>): ShutdownReason {
    match t
    case Some(FencedOut) => ReasonFenced
    case Some(RegistryUnavailable) => HeartbeatLost
    case None => HeartbeatLost
  }

  /** A conflict that no outage comes before. */
  ghost predicate FencedFirst(outcomes: seq<Outcome>, n: int) {
    0 <= n < |outcomes| && outcomes[n].Fenced? && forall m :: 0 <= m < n ==> !Outage(outcomes, m)
  }

  /** The process shuts down as fenced exactly when a conflict comes before any outage. */
  method ShutdownOf(initial: int, outcomes: seq<Outcome>) returns (reason: ShutdownReason)
    ensures reason.ReasonFenced? <==>
            exists n :: FencedFirst(outcomes, n)
  {
    var stop, termination, revision := HeartbeatLoop(initial, outcomes);
    reason := Reason(termination);
    FirstFenced(outcomes);
  }

  /** If a conflict comes before any outage then the loop stops at a conflict. */
  lemma FirstFenced(outcomes: seq<Outcome>)
    ensures (exists n :: FencedFirst(outcomes, n)) <==>
            (exists n :: StopsAt(outcomes, n) && outcomes[n].Fenced?)
  {
    if k :| StopsAt(outcomes, k) && outcomes[k].Fenced? {
      forall m | 0 <= m < k ensures !Outage(outcomes, m) {
        assert !Fatal(outcomes, m);
      }
      assert FencedFirst(outcomes, k);
    }
    if n :| FencedFirst(outcomes, n) {
      var k := 0;
      while !outcomes[k].Fenced?
        invariant 0 <= k <= n && forall m :: 0 <= m < k ==> !outcomes[m].Fenced?
        decreases n - k
      {
        k := k + 1;
      }
      assert StopsAt(outcomes, k);
    }
  }
}
