/** The shared provisioning gate: no request is provisioned unless both reviews pass, and every call is audited once. */
module ProvisionGate {
  import opened Prelude
  import opened AuditLog

  /** What the subclass hook does when it is reached. */
  datatype Hook =
    | Raises(message: string)
    | Returns(success: bool, mode: string, connectionInfo: map<string, Value>, credentialsLocation: string)

  /**
   * One call of `provision`: the request's identity, what the policy engine and the readiness scorecard would say
   * of it, what the hook would do, and the clock and user the audit event is stamped with.
   */
  datatype Attempt = Attempt(
    target: string,
    environment: string,
    violations: seq<string>,
    score: int,
    threshold: int,
    hook: Hook,
    actor: string,
    timestamp: string)
  {
    /** Warnings never block: only error-severity violations are listed. */
    predicate PassesPolicy() {
      violations == []
    }

    predicate PassesReadiness() {
      score >= threshold
    }

    predicate Allowed() {
      PassesPolicy() && PassesReadiness()
    }
  }

  datatype Refusal = PolicyViolation(violations: seq<string>) | NotReady(score: int, threshold: int) | HookError(message: string)

  function OutcomeOf(a: Attempt): string {
    if !a.Allowed() then "blocked"
    else if a.hook.Returns? && a.hook.success then "success"
    else "failure"
  }

  function DetailsOf(a: Attempt): map<string, Value> {
    if !a.PassesPolicy() then
      map["reason" := Str("policy_violation"), "violations" := Strs(a.violations)]
    else if !a.PassesReadiness() then
      map["reason" := Str("readiness_below_threshold"), "score" := Num(a.score as real),
          "threshold" := Num(a.threshold as real)]
    else
      match a.hook
      case Raises(message) => map["error" := Str(message)]
      case Returns(_, mode, connectionInfo, credentialsLocation) =>
        map["mode" := Str(mode), "connection_info" := Dict(connectionInfo),
            "credentials_location" := Str(credentialsLocation)]
  }

  /** The log after one call. */
  function Audited(digest: Digest, log: seq<Event>, a: Attempt): seq<Event> {
    var p := Payload("provision", a.target, a.environment, OutcomeOf(a), a.actor, a.timestamp, DetailsOf(a), Tip(log));
    log + [Event(p, digest(p))]
  }

  /** The log after a run of calls. */
  function Trail(digest: Digest, log: seq<Event>, attempts: seq<Attempt>): seq<Event> {
    if attempts == [] then
      log
    else
      var n := |attempts| - 1;
      Audited(digest, Trail(digest, log, attempts[..n]), attempts[n])
  }

  /** The calls whose hook runs. */
  function Started(attempts: seq<Attempt>): seq<Attempt> {
    if attempts == [] then
      []
    else
      var n := |attempts| - 1;
      Started(attempts[..n]) + (if attempts[n].Allowed() then [attempts[n]] else [])
  }

  // ---------------------------------------------------------------------------
  // What the log says about a run
  // ---------------------------------------------------------------------------

  /** What the event of a call says: who asked for what, and which of the two reviews, or the hook, settled it how. */
  predicate Tells(p: Payload, a: Attempt) {
    && p.action == "provision" && p.target == a.target && p.environment == a.environment
    && p.actor == a.actor && p.timestamp == a.timestamp
    && (a.violations != [] ==>
          p.outcome == "blocked"
          && p.details == map["reason" := Str("policy_violation"), "violations" := Strs(a.violations)])
    && (a.violations == [] && a.score < a.threshold ==>
          p.outcome == "blocked"
          && p.details == map["reason" := Str("readiness_below_threshold"), "score" := Num(a.score as real),
                              "threshold" := Num(a.threshold as real)])
    && (a.violations == [] && a.score >= a.threshold ==>
          match a.hook
          case Raises(message) => p.outcome == "failure" && p.details == map["error" := Str(message)]
          case Returns(success, mode, info, location) =>
            && p.outcome == (if success then "success" else "failure")
            && p.details == map["mode" := Str(mode), "connection_info" := Dict(info), "credentials_location" := Str(location)])
  }

  lemma OutcomeIs(a: Attempt)
    ensures OutcomeOf(a) == "blocked" <==> !a.Allowed()
    ensures OutcomeOf(a) == "success" <==> a.Allowed() && a.hook.Returns? && a.hook.success
  {
    assert OutcomeOf(a)[0] in {'b', 's', 'f'};
  }

  lemma TrailNext(digest: Digest, log: seq<Event>, attempts: seq<Attempt>, n: nat)
    requires n < |attempts|
    ensures Trail(digest, log, attempts[..n + 1]) == Audited(digest, Trail(digest, log, attempts[..n]), attempts[n])
    ensures var a := attempts[n];
            Started(attempts[..n + 1]) ==
            Started(attempts[..n]) + (if a.violations == [] && a.score >= a.threshold then [a] else [])
  {
    assert attempts[..n + 1][..n] == attempts[..n];
  }

  lemma AuditedEvent(digest: Digest, log: seq<Event>, a: Attempt)
    ensures var after := Audited(digest, log, a);
            && |after| == |log| + 1 && after[..|log|] == log
            && after[|log|].payload.action == "provision"
            && after[|log|].payload.target == a.target
            && after[|log|].payload.outcome == OutcomeOf(a)
            && Tells(after[|log|].payload, a) && after[|log|].payload.prevHash == Tip(log)
            && after[|log|].eventHash == digest(after[|log|].payload)
  {
  }

  /** Event `i` after the old log is call `i`'s and tells what became of it; it is chained to the event before. */
  lemma {:induction false} OneEventPerCall(digest: Digest, log: seq<Event>, attempts: seq<Attempt>, i: nat)
    requires i < |attempts|
    ensures var after := Trail(digest, log, attempts);
            && |after| == |log| + |attempts| && log <= after
            && Tells(after[|log| + i].payload, attempts[i])
            && after[|log| + i].payload.prevHash == Tip(after[..|log| + i])
            && after[|log| + i].eventHash == digest(after[|log| + i].payload)
    decreases |attempts|
  {
    hide Trail, Audited, OutcomeOf, Tells, Tip;
    var n := |attempts| - 1;
    TrailGrows(digest, log, attempts[..n]);
    TrailNext(digest, log, attempts, n);
    assert attempts[..n + 1] == attempts;
    var most, after := Trail(digest, log, attempts[..n]), Trail(digest, log, attempts);
    AuditedEvent(digest, most, attempts[n]);
    if i < n {
      OneEventPerCall(digest, log, attempts[..n], i);
      assert after[..|log| + i] == most[..|log| + i];
    }
  }

  lemma {:induction false} TrailGrows(digest: Digest, log: seq<Event>, attempts: seq<Attempt>)
    ensures log <= Trail(digest, log, attempts) && |Trail(digest, log, attempts)| == |log| + |attempts|
  {
    if attempts != [] {
      TrailGrows(digest, log, attempts[..|attempts| - 1]);
    }
  }

  /** The gate never breaks the chain. */
  lemma {:induction false} TrailIsAccepted(digest: Digest, log: seq<Event>, attempts: seq<Attempt>)
    requires Accepted(digest, log)
    ensures Accepted(digest, Trail(digest, log, attempts))
  {
    if attempts != [] {
      var n := |attempts| - 1;
      var a, before := attempts[n], Trail(digest, log, attempts[..n]);
      TrailIsAccepted(digest, log, attempts[..n]);
      AcceptedAppend(digest, before, Payload("provision", a.target, a.environment, OutcomeOf(a), a.actor, a.timestamp,
                                             DetailsOf(a), Tip(before)));
    }
  }

  /** The targets a log says were handed to the hook. */
  function Reported(log: seq<Event>): seq<string> {
    if log == [] then
      []
    else
      var n := |log| - 1;
      Reported(log[..n]) +
      (if log[n].payload.action == "provision" && log[n].payload.outcome != "blocked" then [log[n].payload.target] else [])
  }

  function Targets(attempts: seq<Attempt>): seq<string> {
    if attempts == [] then [] else Targets(attempts[..|attempts| - 1]) + [attempts[|attempts| - 1].target]
  }

  /** The log reports exactly the targets whose hook ran, in order: nothing provisioned silently, nothing invented. */
  lemma {:induction false} LogReportsWhatRan(digest: Digest, log: seq<Event>, attempts: seq<Attempt>)
    ensures Reported(Trail(digest, log, attempts)) == Reported(log) + Targets(Started(attempts))
  {
    hide Trail, Audited, OutcomeOf, Started;
    if attempts == [] {
      TrailNone(digest, log);
    } else {
      var n := |attempts| - 1;
      var a, before := attempts[n], Trail(digest, log, attempts[..n]);
      LogReportsWhatRan(digest, log, attempts[..n]);
      TrailNext(digest, log, attempts, n);
      assert attempts[..n + 1] == attempts;
      AuditedEvent(digest, before, a);
      OutcomeIs(a);
      var more := if a.Allowed() then [a.target] else [];
      assert Reported(Trail(digest, log, attempts)) == Reported(before) + more;
      TargetsAppend(Started(attempts[..n]), a);
      assert Targets(Started(attempts)) == Targets(Started(attempts[..n])) + more;
    }
  }

  lemma TargetsAppend(attempts: seq<Attempt>, a: Attempt)
    ensures Targets(attempts + [a]) == Targets(attempts) + [a.target]
    ensures attempts + [] == attempts
  {
    assert (attempts + [a])[..|attempts|] == attempts;
  }

  lemma TrailNone(digest: Digest, log: seq<Event>)
    ensures Trail(digest, log, []) == log && Started([]) == []
  {
  }

  /** From one accepted log, the last hash alone settles which targets were provisioned, unless the digest is broken. */
  lemma TipSettlesWhatRan(digest: Digest, log: seq<Event>, some: seq<Attempt>, other: seq<Attempt>)
    requires Accepted(digest, log)
    requires Tip(Trail(digest, log, some)) == Tip(Trail(digest, log, other))
    ensures Targets(Started(some)) == Targets(Started(other))
            || Broken(digest, Trail(digest, log, some), Trail(digest, log, other))
  {
    var a, b := Trail(digest, log, some), Trail(digest, log, other);
    TrailIsAccepted(digest, log, some);
    TrailIsAccepted(digest, log, other);
    TipDeterminesLog(digest, a, b);
    if a == b {
      LogReportsWhatRan(digest, log, some);
      LogReportsWhatRan(digest, log, other);
      var r := Reported(log);
      assert Reported(a)[|r|..] == Targets(Started(some)) && Reported(b)[|r|..] == Targets(Started(other));
    }
  }

  // ---------------------------------------------------------------------------
  // The gate
  // ---------------------------------------------------------------------------

  class Provisioner {
    const audit: AuditLogger
    /** The calls whose hook was invoked, in order: the effect on the outside world. */
    var started: seq<Attempt>

    constructor (audit: AuditLogger)
      ensures this.audit == audit && started == []
    {
      this.audit := audit;
      started := [];
    }

    /** The subclass hook. */
    method RunHook(a: Attempt) returns (r: Hook)
      modifies this
      ensures started == old(started) + [a] && r == a.hook
    {
      started := started + [a];
      r := a.hook;
    }

    /** Policy, then readiness, then the hook; whatever happens is audited once. */
    method Provision(a: Attempt) returns (r: Result<Hook, Refusal>)
      modifies this, audit
      ensures audit.Events() == Audited(audit.digest, old(audit.Events()), a)
      ensures started == old(started) + (if a.violations == [] && a.score >= a.threshold then [a] else [])
      ensures r.Ok? <==> a.violations == [] && a.score >= a.threshold && a.hook.Returns?
      ensures r.Ok? ==> r.value == a.hook
      ensures r.Err? ==> r.error == if a.violations != [] then PolicyViolation(a.violations)
                                    else if a.score < a.threshold then NotReady(a.score, a.threshold)
                                    else HookError(a.hook.message)
    {
      if |a.violations| != 0 {
        var details := map["reason" := Str("policy_violation"), "violations" := Strs(a.violations)];
        var _ := audit.Record("provision", a.target, a.environment, "blocked", a.actor, a.timestamp, details);
        return Err(PolicyViolation(a.violations));
      }
      if a.score < a.threshold {
        var details := map["reason" := Str("readiness_below_threshold"), "score" := Num(a.score as real),
                           "threshold" := Num(a.threshold as real)];
        var _ := audit.Record("provision", a.target, a.environment, "blocked", a.actor, a.timestamp, details);
        return Err(NotReady(a.score, a.threshold));
      }
      var result := RunHook(a);
      if result.Raises? {
        var _ := audit.Record("provision", a.target, a.environment, "failure", a.actor, a.timestamp,
                              map["error" := Str(result.message)]);
        return Err(HookError(result.message));
      }
      var details := map["mode" := Str(result.mode), "connection_info" := Dict(result.connectionInfo),
                         "credentials_location" := Str(result.credentialsLocation)];
      var _ := audit.Record("provision", a.target, a.environment, if result.success then "success" else "failure",
                            a.actor, a.timestamp, details);
      r := Ok(result);
    }

    /** Any run of calls: the log is the run's trail and the hook ran for the allowed calls only. */
    method ProvisionAll(attempts: seq<Attempt>)
      modifies this, audit
      ensures audit.Events() == Trail(audit.digest, old(audit.Events()), attempts)
      ensures started == old(started) + Started(attempts)
      ensures old(Accepted(audit.digest, audit.Events())) ==> Accepted(audit.digest, audit.Events())
    {
      ghost var log := audit.Events();
      for n := 0 to |attempts|
        invariant audit.Events() == Trail(audit.digest, log, attempts[..n])
        invariant started == old(started) + Started(attempts[..n])
      {
        TrailNext(audit.digest, log, attempts, n);
        var _ := Provision(attempts[n]);
      }
      assert attempts[..|attempts|] == attempts;
      if Accepted(audit.digest, log) {
        TrailIsAccepted(audit.digest, log, attempts);
      }
    }
  }
}
