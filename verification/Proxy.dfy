/** gateway/workers/service.py, `create_worker_proxy_registry` and `InProcessWorkerClient`: the
    gateway's handlers when tools run on the worker service, and what the idempotency key they
    choose means for whole runs of the protocol and for the repair loop. */
module Proxy {
  import opened Common
  import Circuit
  import opened Workers
  import opened WorkerInvariant
  import opened WorkerSafety
  import Repair
  import Orchestrator

  // ----- The idempotency key -----

  /** The key of every handler invocation within a call, whatever its arguments. */
  function CallKey(callId: string, toolName: string): string {
    callId + ":" + toolName
  }

  /** `InProcessWorkerClient.execute`: the signed job of a handler invocation within a call. */
  function SignedJob(cfg: Config, jobId: string, callId: string, tenantId: string, toolName: string, risk: Risk,
                     arguments: Args): Job {
    var job := Job(jobId, callId, tenantId, toolName, risk, arguments, CallKey(callId, toolName), "");
    job.(authToken := cfg.sign(job))
  }

  /** The job's key is the one the proxy chooses within a call; call ids are hexadecimal. */
  predicate KeyedByCall(job: Job) {
    job.key == CallKey(job.callId, job.toolName) && ':' !in job.callId
  }

  /** Equal keys mean the same call and the same tool. */
  lemma KeysSeparateCalls(a: Job, b: Job)
    requires KeyedByCall(a) && KeyedByCall(b) && a.key == b.key
    ensures a.callId == b.callId && a.toolName == b.toolName
  {
    var i, j := |a.callId|, |b.callId|;
    assert a.key[i] == ':' && b.key[j] == ':';
    assert forall k | 0 <= k < i :: a.key[k] == a.callId[k];
    assert forall k | 0 <= k < j :: b.key[k] == b.callId[k];
    assert i == j;
    assert a.key[..i] == a.callId && b.key[..j] == b.callId;
    assert a.key[i + 1..] == a.toolName && b.key[j + 1..] == b.toolName;
  }

  /** A proxied job passes authentication and is keyed by its call. */
  lemma SignedJobIsAuthentic(cfg: Config, jobId: string, callId: string, tenantId: string, toolName: string,
                             risk: Risk, arguments: Args)
    requires ':' !in callId
    ensures var job := SignedJob(cfg, jobId, callId, tenantId, toolName, risk, arguments);
            && Authentic(cfg, job) && KeyedByCall(job)
            && job == Job(jobId, callId, tenantId, toolName, risk, arguments, callId + ":" + toolName, job.authToken)
  {
    var unsigned := Job(jobId, callId, tenantId, toolName, risk, arguments, CallKey(callId, toolName), "");
    assert SignedJob(cfg, jobId, callId, tenantId, toolName, risk, arguments).(authToken := "") == unsigned;
  }

  /** Every submission of the run comes from a proxy handler. */
  predicate AllProxied(steps: seq<Step>) {
    forall i | 0 <= i < |steps| && steps[i].DoSubmit? :: KeyedByCall(steps[i].job)
  }

  lemma {:induction false} AdmittedAreProxied(cfg: Config, steps: seq<Step>)
    requires AllProxied(steps)
    ensures forall t | 0 <= t < |Reach(cfg, steps).admissions| :: KeyedByCall(Reach(cfg, steps).admissions[t].job)
  {
    if steps != [] {
      var before, last := steps[..|steps| - 1], steps[|steps| - 1];
      AdmittedAreProxied(cfg, before);
      var s, s' := Reach(cfg, before), Reach(cfg, steps);
      StepEffects(cfg, s, last);
      if last.DoSubmit? {
        SubmitEffects(cfg, s, last.job, last.now);
      }
      hide Run, Apply, Submit;
      forall t | 0 <= t < |s'.admissions| ensures KeyedByCall(s'.admissions[t].job) {
        if t < |s.admissions| {
          assert Evolves(s.admissions[t], s'.admissions[t]);
        }
      }
    }
  }

  /** The job whose execution completes at step `n`. */
  function CompletedAt(cfg: Config, steps: seq<Step>, n: nat): Job
    requires n < |steps| && steps[n].DoSucceed? && ExecutingAt(Reach(cfg, steps[..n]), steps[n].worker)
  {
    JobOf(Reach(cfg, steps[..n]), steps[n].worker)
  }

  /** A call executes a tool to completion at most once on the worker service, over all its
      retries and model repairs, in every interleaving with other calls, timeouts, stops and
      restarts. */
  lemma OneCompletionPerCall(cfg: Config, steps: seq<Step>, n: nat, m: nat)
    requires AllProxied(steps)
    requires n < |steps| && steps[n].DoSucceed? && ExecutingAt(Reach(cfg, steps[..n]), steps[n].worker)
    requires m < |steps| && steps[m].DoSucceed? && ExecutingAt(Reach(cfg, steps[..m]), steps[m].worker)
    requires CompletedAt(cfg, steps, n).callId == CompletedAt(cfg, steps, m).callId
    requires CompletedAt(cfg, steps, n).toolName == CompletedAt(cfg, steps, m).toolName
    ensures n == m
  {
    AdmittedAreProxied(cfg, steps[..n]);
    AdmittedAreProxied(cfg, steps[..m]);
    AtMostOneSuccess(cfg, steps, n, m, CompletedAt(cfg, steps, n).key);
  }

  /** Calls are isolated: whatever a submission is answered from, the cache or a job in flight,
      belongs to the same call and tool. */
  lemma AnswersStayWithinTheCall(cfg: Config, steps: seq<Step>, job: Job, now: int)
    requires AllProxied(steps) && KeyedByCall(job)
    ensures var s := Reach(cfg, steps);
            match Submit(cfg, s, job, now).1
            case FromCache(result) =>
              exists n: nat | n < |steps| && SucceedsAt(cfg, steps, n, job.key) ::
                && CompletedAt(cfg, steps, n).callId == job.callId
                    && CompletedAt(cfg, steps, n).toolName == job.toolName
                && result == Succeeded(CompletedAt(cfg, steps, n).jobId, steps[n].output)
            case Joined(t) =>
              t < |s.admissions| && s.admissions[t].job.callId == job.callId
                  && s.admissions[t].job.toolName == job.toolName
            case _ => true
  {
    var s := Reach(cfg, steps);
    var reply := Submit(cfg, s, job, now).1;
    if reply.FromCache? {
      var n := CacheComesFromExecution(cfg, steps, job.key);
      AdmittedAreProxied(cfg, steps[..n]);
      KeysSeparateCalls(CompletedAt(cfg, steps, n), job);
    } else if reply.Joined? {
      ReachableOk(cfg, steps);
      AdmittedAreProxied(cfg, steps);
      KeysSeparateCalls(s.admissions[reply.ticket].job, job);
    }
  }

  /** The price: after a completed execution that its submitter did not learn of, a retry of
      the call with repaired arguments is answered with the output for the original ones. */
  lemma RepairedArgumentsAreNotExecuted(cfg: Config, first: Job, retry: Job, output: Args, now: int)
    requires Authentic(cfg, first) && Authentic(cfg, retry) && KeyedByCall(first) && KeyedByCall(retry)
    requires first.callId == retry.callId && first.toolName == retry.toolName && first.arguments != retry.arguments
    ensures var steps := [DoStart, DoSubmit(first, now), DoTake(0), DoSucceed(0, output)];
            Submit(cfg, Reach(cfg, steps), retry, now).1 == FromCache(Succeeded(first.jobId, output))
  {
    var prefix, rest := [DoStart, DoSubmit(first, now)], [DoTake(0), DoSucceed(0, output)];
    assert prefix + rest == [DoStart, DoSubmit(first, now), DoTake(0), DoSucceed(0, output)];
    RunSplits(cfg, INITIAL, prefix, rest);
    AdmittedFirst(cfg, first, now);
    var s2 := FirstAdmitted(cfg, first, now);
    RunTwo(cfg, s2, DoTake(0), DoSucceed(0, output));
    CompletesFirst(cfg, s2, first, output);
    hide Run, Apply;
    assert !Circuit.IsOpen(cfg.limits, Circuit.CLOSED, now);
  }

  /** One admitted job, taken and executed. */
  lemma CompletesFirst(cfg: Config, s: State, job: Job, output: Args)
    requires s.tasks == seq(PoolSize(cfg), _ => Idle) && s.queue == [0] && s.results == map[]
    requires |s.admissions| == 1 && s.admissions[0].job == job
    ensures var s' := Apply(cfg, Apply(cfg, s, DoTake(0)), DoSucceed(0, output));
            && s'.results == map[job.key := Succeeded(job.jobId, output)]
            && s'.breaker == s.breaker && s'.tasks != []
  {
    var s1 := Apply(cfg, s, DoTake(0));
    assert s1 == Take(s, 0) && s1.tasks[0] == Executing(0) && s1.admissions == s.admissions;
    assert Apply(cfg, s1, DoSucceed(0, output)) == ExecutionSucceeds(s1, 0, output);
    hide Apply;
  }

  // ----- What a proxied failure looks like to the gateway -----

  /** `InProcessWorkerClient.execute` on what `submit` returns.  A submitter that joined a future
      is handed a failed result as it is, which has no output. */
  function ClientAnswer(answer: Result<WorkerResult, Exn>): Result<Args, Exn> {
    match answer
    case Ok(Succeeded(_, output)) => Ok(output)
    case Ok(Failed(_, cause)) =>
      Err(Raised(ToolExecutionFailed, match cause case Gateway(e) => e.message case Unexpected(detail) => detail))
    case Err(e) => Err(e)
  }

  /** An error of the execution worker as the gateway can see it. */
  predicate WorkerError(e: Exn) {
    e.Gateway? && e.error.code in {ToolExecutionFailed, NeedsReview}
  }

  predicate BrokenByStop(a: Admission) {
    a.future.Broken? ==> a.future.error == if Mutates(a.job) then STOPPED_MUTATION else STOPPED_READ
  }

  lemma {:induction false} FuturesBreakOnlyByStop(cfg: Config, steps: seq<Step>)
    ensures forall t | 0 <= t < |Reach(cfg, steps).admissions| :: BrokenByStop(Reach(cfg, steps).admissions[t])
  {
    if steps != [] {
      var before, last := steps[..|steps| - 1], steps[|steps| - 1];
      FuturesBreakOnlyByStop(cfg, before);
      var s, s' := Reach(cfg, before), Reach(cfg, steps);
      StepEffects(cfg, s, last);
      if last.DoSubmit? {
        SubmitEffects(cfg, s, last.job, last.now);
      }
      hide Run, Apply, Submit;
      forall t | 0 <= t < |s'.admissions| ensures BrokenByStop(s'.admissions[t]) {
        if t < |s.admissions| {
          assert Evolves(s.admissions[t], s'.admissions[t]);
        }
      }
    }
  }

  /** An error that says needs_review. */
  predicate SaysReview(e: Exn) {
    e.Gateway? && e.error.code.NeedsReview?
  }

  /** The futures that raise needs_review on whoever awaits them: those of mutations that `stop`
      broke, and for the leader those whose worker failed with that error. */
  predicate RaisesReview(f: Future) {
    f == Broken(STOPPED_MUTATION) || (f.Resolved? && f.result.Failed? && SaysReview(f.result.cause))
  }

  lemma PlainErrorsAreToolErrors(e: Exn)
    requires WorkerError(e)
    ensures Repair.Diagnose(e).ToolError?
  {
  }

  lemma LeaderErrorIsFlat(cause: Exn)
    ensures WorkerError(LeaderError(cause)) && (SaysReview(LeaderError(cause)) <==> SaysReview(cause))
  {
  }

  /** What the leader of an admitted job is told, in every reachable state: after its timeout,
      needs_review exactly for a mutation; otherwise a completed execution's output, or an error
      that is needs_review exactly when the worker's error was or `stop` broke a mutation.
      Timeouts and sandbox crashes inside the worker are never visible as such, so the repair
      loop diagnoses every failure as a tool error. */
  lemma FailuresAreFlattened(cfg: Config, steps: seq<Step>, t: nat)
    requires t < |Reach(cfg, steps).admissions|
    ensures var a := Reach(cfg, steps).admissions[t];
            match a.leader
            case TimedOut =>
              && WorkerError(TimeoutError(a.job)) && Repair.Diagnose(TimeoutError(a.job)).ToolError?
              && (SaysReview(TimeoutError(a.job)) <==> Mutates(a.job))
            case Answered(Ok(r)) => a.future == Resolved(r) && r.Succeeded? && ClientAnswer(Ok(r)) == Ok(r.output)
            case Answered(Err(e)) =>
              && WorkerError(e) && Repair.Diagnose(e).ToolError?
              && (SaysReview(e) <==> RaisesReview(a.future))
            case _ => true
  {
    ReachableOk(cfg, steps);
    FuturesBreakOnlyByStop(cfg, steps);
    var a := Reach(cfg, steps).admissions[t];
    assert SettledOk(Reach(cfg, steps), t) && BrokenByStop(a);
    hide Run, Inv, Repair.Diagnose, LeaderError;
    PlainErrorsAreToolErrors(TimeoutError(a.job));
    if a.leader.Answered? && a.leader.answer.Err? {
      if a.future.Resolved? { LeaderErrorIsFlat(a.future.result.cause); }
      PlainErrorsAreToolErrors(a.leader.answer.error);
    }
  }

  /** A submitter that joined the future is told needs_review only for a mutation that `stop`
      broke: a failed result reaches it as a plain failure, whatever its code. */
  lemma JoinersAreToldLess(cfg: Config, steps: seq<Step>, t: nat)
    requires t < |Reach(cfg, steps).admissions|
    requires var f := Reach(cfg, steps).admissions[t].future; f.Resolved? || f.Broken?
    ensures var f := Reach(cfg, steps).admissions[t].future;
            var answer := ClientAnswer(if f.Resolved? then Ok(f.result) else Err(Gateway(f.error)));
            && (answer.Ok? <==> f.Resolved? && f.result.Succeeded?)
            && (answer.Err? ==>
                  && WorkerError(answer.error) && Repair.Diagnose(answer.error).ToolError?
                  && (SaysReview(answer.error) <==> f == Broken(STOPPED_MUTATION)))
  {
    FuturesBreakOnlyByStop(cfg, steps);
    assert BrokenByStop(Reach(cfg, steps).admissions[t]);
    hide Run;
  }

  /** A run in which a mutation's sandbox timeout reaches its submitter as a plain failure: the
      repair loop, which would have turned a timeout into needs_review, does not see one. */
  lemma TimeoutIsToldAsFailure(cfg: Config, job: Job, message: string, detail: string, now: int)
    requires Authentic(cfg, job) && Mutates(job)
    ensures var cause := Raised(SandboxTimeout, message);
            var s := Reach(cfg, [DoStart, DoSubmit(job, now)] + [DoTake(0), DoFail(0, cause, detail)]
                                + [DoPublish(0), DoResume(0, now)]);
            && |s.admissions| == 1
            && s.admissions[0].leader == Answered(Err(Raised(ToolExecutionFailed, message)))
            && Repair.Diagnose(Raised(ToolExecutionFailed, message)).ToolError?
            && Repair.Transient(Repair.Diagnose(cause))
  {
    var cause := Raised(SandboxTimeout, message);
    PlainErrorsAreToolErrors(Raised(ToolExecutionFailed, message));
    assert Repair.Diagnose(cause).Timeout?;
    hide Repair.Diagnose, Run, Apply, FirstAdmitted;
    var first, second := [DoStart, DoSubmit(job, now)], [DoTake(0), DoFail(0, cause, detail)];
    var third := [DoPublish(0), DoResume(0, now)];
    AdmittedFirst(cfg, job, now);
    RunSplits(cfg, INITIAL, first, second);
    RunSplits(cfg, INITIAL, first + second, third);
    var s2 := FirstAdmitted(cfg, job, now);
    RunTwo(cfg, s2, DoTake(0), DoFail(0, cause, detail));
    FirstAdmittedFacts(cfg, job, now);
    ExecutionFailsFirst(cfg, s2, job, cause, detail);
    var s4 := Run(cfg, s2, second);
    RunTwo(cfg, s4, DoPublish(0), DoResume(0, now));
    FailureIsTold(cfg, s4, Admission(job, Pending, Waiting, true, false, false), cause, now);
  }

  lemma FirstAdmittedFacts(cfg: Config, job: Job, now: int)
    ensures var s := FirstAdmitted(cfg, job, now);
            && s.tasks == seq(PoolSize(cfg), _ => Idle) && s.queue == [0]
            && s.admissions == [Admission(job, Pending, Waiting, false, false, false)]
  {
  }

  lemma ExecutionFailsFirst(cfg: Config, s: State, job: Job, cause: Exn, detail: string)
    requires s.tasks == seq(PoolSize(cfg), _ => Idle) && s.queue == [0] && Mutates(job)
    requires s.admissions == [Admission(job, Pending, Waiting, false, false, false)]
    ensures var s' := Apply(cfg, Apply(cfg, s, DoTake(0)), DoFail(0, cause, detail));
            && |s'.tasks| > 0 && s'.tasks[0] == Executed(0, Failed(job.jobId, cause))
            && s'.admissions == [Admission(job, Pending, Waiting, true, false, false)]
  {
    var s1 := Apply(cfg, s, DoTake(0));
    assert s1 == Take(s, 0) && s1.tasks[0] == Executing(0) && s1.admissions == s.admissions;
    assert Apply(cfg, s1, DoFail(0, cause, detail)) == ExecutionFails(s1, 0, cause, detail);
    hide Apply;
  }

  // ----- The repair loop over proxied handlers -----

  /** The call's handler runs on the worker service: it fails with a worker error, or because
      the output does not validate. */
  ghost predicate HandlerIsProxied<Out>(env: Orchestrator.Env<Out>) {
    forall k: nat, a: Args :: env.handler(k, a).Err? ==>
      WorkerError(env.handler(k, a).error) || env.handler(k, a).error.Unexpected?
  }

  /** Without a model, a call on the worker service is never retried, idempotent or read-only
      as its tool may be: what its one executor call ends with is the verdict. */
  lemma ProxiedCallsAreNotRetried<Out>(env: Orchestrator.Env<Out>)
    requires HandlerIsProxied(env) && env.advisor.None? && Orchestrator.RoundTrips(env) && Orchestrator.ReachesLoop(env)
    ensures var request := Orchestrator.FirstRequest(env).value;
            && |Orchestrator.Calls(env)| == 1
            && Orchestrator.Verdict(env) == Orchestrator.CallResult(env, 1, request)
  {
    var request := Orchestrator.FirstRequest(env).value;
    var w, ctx := Orchestrator.LoopWorld(env), Orchestrator.LoopContext(env);
    var outcome := w.execute(1, request);
    assert outcome == Orchestrator.CallResult(env, 1, request);
    if outcome.Err? {
      FirstCallFailsPlainly(env, request);
      assert w.repairer.None?;
      hide Repair.Diagnose;
    }
    Repair.LoopUnfolds(Repair.STANDARD, ctx, w, 1, request, 0.0, 0.0);
  }

  lemma FirstCallFailsPlainly<Out>(env: Orchestrator.Env<Out>, request: Args)
    requires HandlerIsProxied(env) && Orchestrator.Validate(env, request).Ok?
    ensures var outcome := Orchestrator.CallResult(env, 1, request);
            outcome.Err? ==> Repair.Diagnose(outcome.error).ToolError?
  {
  }
}
