/** What a call answers, over what the validator, the policy, the approver, the model and the
    handler answered: the results of `Orchestrator` without its intermediate functions. */
module Answers {
  import opened Common
  import Policy
  import Approval
  import opened Repair
  import opened StateStore
  import opened Orchestrator
  import Lifecycle
  import Mediation

  // ----- Executor calls -----

  lemma CallsAreNumbered<Out>(env: Env<Out>, i: nat)
    requires i < |Calls(env)|
    ensures Calls(env)[i].attempt == i + 1
    ensures Calls(env)[i].outcome == CallResult(env, i + 1, Calls(env)[i].arguments)
  {
    var w, request := LoopWorld(env), FirstRequest(env).value;
    LoopNumbers(STANDARD, LoopContext(env), w, 1, request, 0.0, 0.0);
    var calls := Looped(env, request).calls;
    assert calls[i].outcome == w.execute(1 + i, calls[i].arguments);
    hide Loop, CallResult, ReachesLoop, FirstRequest;
  }

  /** What went wrong first, and otherwise what the handler answered: an invalid request, a failed
      evaluation of repaired arguments, their refusal. */
  ghost predicate IsAnswer<Out>(env: Env<Out>, k: nat, arguments: Args, outcome: Result<Out, Exn>) {
    match env.validator(arguments)
    case Err(e) => outcome == Err(Gateway(e))
    case Ok(request) =>
      var answer := env.policy(k, request);
      if k > 1 && answer.Err? then outcome == Err(answer.error)
      else if k > 1 && !answer.value.outcome.Allow?
      then outcome.Err? && outcome.error.Gateway? && outcome.error.error.code.PolicyDenied?
      else outcome == env.handler(k, request)
  }

  /** On a reliable store, the k-th executor call answers just that. */
  lemma CallAnswersExactly<Out>(env: Env<Out>, i: nat)
    requires Reliable(env) && i < |Calls(env)|
    ensures Calls(env)[i].attempt == i + 1
    ensures IsAnswer(env, i + 1, Calls(env)[i].arguments, Calls(env)[i].outcome)
  {
    CallsAreNumbered(env, i);
    LoopFacts(env);
    Lifecycle.NumbersAgree(env, i + 1);
    BodyAnswers(env, i + 1, Calls(env)[i].arguments);
    hide Calls, CallResult, Number, Entered, IsAnswer;
  }

  lemma BodyAnswers<Out>(env: Env<Out>, k: nat, arguments: Args)
    requires Reliable(env) && env.definition.Some? && Number(env, k) == k && Entered(env, k)
    ensures IsAnswer(env, k, arguments, CallResult(env, k, arguments))
  {
    hide Number, Entered;
  }

  /** On any store, an executor call that cannot be recorded answers that the store is down, before
      anything is asked. */
  lemma LostWritesAnswer<Out>(env: Env<Out>, i: nat)
    requires i < |Calls(env)|
    requires !env.up(AtExecuting(i + 1)) || (Number(env, i + 1) > 1 && !env.up(AtStart(i + 1)))
    ensures var outcome := Calls(env)[i].outcome;
            outcome.Err? && outcome.error.Gateway? && outcome.error.error.code.StateStoreUnavailable?
    ensures Invoked(env, i + 1, Calls(env)[i].arguments).None? && Evaluated(env, i + 1, Calls(env)[i].arguments).None?
  {
    CallsAreNumbered(env, i);
    hide Calls, Number;
  }

  /** On any store, an executor call's answer has been recorded: an output and an error of the
      gateway's own are returned only once the attempt has been finished with them. */
  lemma AnswersAreRecorded<Out>(env: Env<Out>, i: nat)
    requires i < |Calls(env)|
    ensures var outcome := Calls(env)[i].outcome;
            && (outcome.Ok? ==> env.up(AtExecuting(i + 1)) && env.up(AtFinishSucceeded(i + 1)))
            && (outcome.Err? && outcome.error.Gateway? && !outcome.error.error.code.StateStoreUnavailable? ==>
                  env.up(AtExecuting(i + 1)) && env.up(AtFinishFailed(i + 1)))
  {
    CallsAreNumbered(env, i);
    hide Calls, Number, Body;
  }

  /** What an executor call asks on a reliable store. */
  lemma CallAsksExactly<Out>(env: Env<Out>, k: nat, arguments: Args)
    requires Reliable(env) && env.definition.Some? && k >= 1
    ensures Evaluated(env, k, arguments)
            == if k > 1 && env.validator(arguments).Ok? then Some(env.validator(arguments).value) else None
    ensures Invoked(env, k, arguments)
            == match env.validator(arguments)
               case Err(_) => None
               case Ok(request) =>
                 if k > 1 && !(env.policy(k, request).Ok? && env.policy(k, request).value.outcome.Allow?) then None
                 else Some(request)
  {
    Lifecycle.NumbersAgree(env, k);
    hide Number, Entered;
  }

  // ----- Refused repairs -----

  /** Where an evaluation comes from. */
  lemma {:induction false} EvaluationSource<Out>(env: Env<Out>, calls: seq<Call<Out>>, i: nat) returns (c: nat)
    requires i < |EvaluationsOf(env, calls)|
    ensures c < |calls|
    ensures var e := EvaluationsOf(env, calls)[i];
            && e.index == calls[c].attempt
            && Evaluated(env, e.index, calls[c].arguments) == Some(e.request)
            && e.answer == env.policy(e.index, e.request)
  {
    var before := calls[..|calls| - 1];
    if i < |EvaluationsOf(env, before)| {
      c := EvaluationSource(env, before, i);
    } else {
      c := |calls| - 1;
    }
  }

  /** The evaluation of repaired arguments answered something other than allow. */
  predicate RefusesRepair(e: Evaluation) {
    e.index >= 1 && e.answer.Ok? && !e.answer.value.outcome.Allow?
  }

  lemma LaterEvaluationIsOfLoop<Out>(env: Env<Out>, i: nat)
    requires i < |Evaluations(env)| && Evaluations(env)[i].index >= 1
    ensures ReachesLoop(env) && 1 <= i && i - 1 < |EvaluationsOf(env, Calls(env))|
    ensures EvaluationsOf(env, Calls(env))[i - 1] == Evaluations(env)[i]
  {
    hide ReachesLoop, FirstRequest, Looped;
  }

  lemma LoopFacts<Out>(env: Env<Out>)
    requires ReachesLoop(env)
    ensures env.definition.Some? && Invocations(env) == InvocationsOf(env, Calls(env))
  {
    hide Clear, Looped;
  }

  /** The executor call whose repaired arguments were refused. */
  lemma RefusedCall<Out>(env: Env<Out>, i: nat) returns (c: nat)
    requires Reliable(env) && Admitted(env)
    requires i < |Evaluations(env)| && RefusesRepair(Evaluations(env)[i])
    ensures ReachesLoop(env) && env.definition.Some?
    ensures c < |Calls(env)| && Evaluations(env)[i].index == c + 1
    ensures var outcome := Calls(env)[c].outcome;
            outcome.Err? && outcome.error.Gateway? && outcome.error.error.code.PolicyDenied?
    ensures Invoked(env, c + 1, Calls(env)[c].arguments) == None
  {
    LaterEvaluationIsOfLoop(env, i);
    LoopFacts(env);
    hide Calls, ReachesLoop, Evaluations, EvaluationsOf, Evaluated, Invoked, Admitted, Reliable, Number, Entered,
      CallResult, Body;
    var calls := Calls(env);
    c := EvaluationSource(env, calls, i - 1);
    CallsAreNumbered(env, c);
    CallAnswersExactly(env, c);
    CallAsksExactly(env, c + 1, calls[c].arguments);
  }

  /** A refused repair is the last executor call: the model is not asked again and nothing else is
      invoked.  The client is told policy_denied and the call ends DENIED. */
  lemma RefusedRepairEndsTheCall<Out>(env: Env<Out>, i: nat)
    requires Reliable(env) && Admitted(env)
    requires i < |Evaluations(env)| && RefusesRepair(Evaluations(env)[i])
    ensures Evaluations(env)[i].index == |Calls(env)|
    ensures ReplyOf(env) == ErrorReply(PolicyDenied)
    ensures States(env) != [] && States(env)[|States(env)| - 1] == CallState.Denied
    ensures forall j | 0 <= j < |Invocations(env)| :: Invocations(env)[j].call < Evaluations(env)[i].index
  {
    hide Calls, ReachesLoop, Evaluations, EvaluationsOf, Evaluated, Invoked, Invocations, InvocationsOf, Admitted,
      Reliable, States, ReplyOf;
    var c := RefusedCall(env, i);
    LoopFacts(env);
    RefusalEndsTheLoop(env, c);
    Lifecycle.TerminalStateMatchesReply(env);
    forall j | 0 <= j < |Invocations(env)| ensures Invocations(env)[j].call < c + 1 {
      var d := Mediation.InvocationSource(env, Calls(env), j);
      CallsAreNumbered(env, d);
      assert d != c;
    }
  }

  /** An executor call that answers a refusal is the last one, and its refusal is the verdict. */
  lemma RefusalEndsTheLoop<Out>(env: Env<Out>, c: nat)
    requires c < |Calls(env)| && Calls(env)[c].outcome.Err? && Refusal(Calls(env)[c].outcome.error)
    ensures c == |Calls(env)| - 1 && Verdict(env) == Err(Calls(env)[c].outcome.error)
    ensures ReplyOf(env) == ErrorReply(Calls(env)[c].outcome.error.error.code)
  {
    var ctx, w, request := LoopContext(env), LoopWorld(env), FirstRequest(env).value;
    CallsFollow(STANDARD, ctx, w, request, 0.0);
    RunEndsExactly(STANDARD, ctx, w, request, 0.0);
    hide Whole, LoopContext, LoopWorld, FirstRequest, Clear;
  }

  // ----- Outputs -----

  /** On any store, an output is what the handler returned for the last invocation, which was made
      by the last executor call. */
  lemma OutputIsTheHandlers<Out>(env: Env<Out>)
    requires ReachesLoop(env) && Verdict(env).Ok?
    ensures Invocations(env) != []
    ensures var inv := Invocations(env)[|Invocations(env)| - 1];
            inv.call == |Calls(env)| && env.handler(inv.call, inv.request) == Ok(Verdict(env).value)
  {
    hide Calls, Verdict, CallResult, Invoked, Invocations, InvocationsOf, ReachesLoop;
    Lifecycle.CallsFit(env);
    LoopFacts(env);
    var calls := Calls(env);
    CallsAreNumbered(env, |calls| - 1);
    OutcomeIsTheHandlers(env, |calls|, calls[|calls| - 1].arguments);
    LastInvocation(env, calls);
  }

  lemma LastInvocation<Out>(env: Env<Out>, calls: seq<Call<Out>>)
    requires calls != [] && Invoked(env, calls[|calls| - 1].attempt, calls[|calls| - 1].arguments).Some?
    ensures var c := calls[|calls| - 1]; var invs := InvocationsOf(env, calls);
            invs != [] && invs[|invs| - 1]
                          == Invocation(c.attempt, Number(env, c.attempt), Invoked(env, c.attempt, c.arguments).value)
  {
  }

  lemma OutcomeIsTheHandlers<Out>(env: Env<Out>, k: nat, arguments: Args)
    ensures CallResult(env, k, arguments).Ok? ==>
              && Invoked(env, k, arguments).Some?
              && env.handler(k, Invoked(env, k, arguments).value) == CallResult(env, k, arguments)
  {
    hide Number, Entered;
  }

  // ----- The first request -----

  /** The first request: the submitted one if it is valid; otherwise, for a schema error and with a
      model, the model's proposal if that is valid; and the error of whatever failed last. */
  lemma FirstRequestExactly<Out>(env: Env<Out>)
    ensures env.definition.None? ==>
              && FirstRequest(env).Err? && FirstRequest(env).error.Gateway?
              && FirstRequest(env).error.error.code.ToolNotFound?
    ensures env.definition.Some? && env.validator(env.arguments).Ok? ==>
              FirstRequest(env) == Ok(env.validator(env.arguments).value)
    ensures env.definition.Some? && env.validator(env.arguments).Err? ==>
              var e := env.validator(env.arguments).error;
              if env.advisor.None? || !e.code.SchemaValidation? then FirstRequest(env) == Err(Gateway(e))
              else var proposal := (env.advisor.value)(0, env.arguments, Diagnose(Gateway(e)));
                   if proposal.Err? then FirstRequest(env) == Err(proposal.error)
                   else match env.validator(proposal.value)
                        case Ok(request) => FirstRequest(env) == Ok(request)
                        case Err(again) => FirstRequest(env) == Err(Gateway(again))
  {
    if env.definition.Some? && env.validator(env.arguments).Err? {
      DiagnosisExactly(Gateway(env.validator(env.arguments).error));
      assert Repairable(Diagnose(Gateway(env.validator(env.arguments).error)))
        <==> env.validator(env.arguments).error.code.SchemaValidation?;
    }
    hide Diagnose;
  }

  // ----- Errors -----

  /** What an exception makes of the call: its own code, or a plain tool failure for an exception
      that is not one of the gateway's; DENIED for the four refusals and FAILED otherwise. */
  ghost predicate EndsAs(x: Exn, code: Code, last: CallState, word: string) {
    && code == (match x case Gateway(e) => e.code case Unexpected(_) => ToolExecutionFailed)
    && if code in {PolicyDenied, PolicyUnavailable, ApprovalTimeout, ApprovalRejected}
       then last == CallState.Denied && word == "denied" else last == Failed && word == "failed"
  }

  /** The client, the last transition and the last attempt agree on the exception that ended the
      call. */
  lemma ErrorsAreTold<Out>(env: Env<Out>)
    requires Verdict(env).Err?
    ensures ReplyOf(env).ErrorReply? && States(env) != [] && Outcomes(env) != []
    ensures Outcomes(env)[|Outcomes(env)| - 1].Some?
    ensures EndsAs(Verdict(env).error, ReplyOf(env).code, States(env)[|States(env)| - 1],
                   Outcomes(env)[|Outcomes(env)| - 1].value)
  {
    hide Verdict, Calls, Prologue, Marks;
  }

  /** A success: the reply is the output, if it serialises, and a plain failure otherwise. */
  lemma OutputsAreTold<Out>(env: Env<Out>)
    requires Verdict(env).Ok?
    ensures var out := Verdict(env).value;
            if env.serialises(out)
            then ReplyOf(env) == Output(out) && Outcomes(env)[|Outcomes(env)| - 1] == Some("succeeded")
            else ReplyOf(env) == ErrorReply(ToolExecutionFailed) && Outcomes(env)[|Outcomes(env)| - 1] == Some("failed")
  {
    hide Verdict, Calls, Marks;
  }

  // ----- Refusals before execution -----

  /** A call whose first evaluation fails or refuses. */
  lemma RefusalsAreTold<Out>(env: Env<Out>)
    requires FirstRequest(env).Ok? && Admitted(env)
    ensures var answer := env.policy(0, FirstRequest(env).value);
            && (answer.Err? ==>
                  && Verdict(env) == Err(answer.error)
                  && |States(env)| == 3 && States(env)[..2] == [Received, Validated])
            && (answer.Ok? && answer.value.outcome.Deny? ==>
                  && ReplyOf(env) == ErrorReply(PolicyDenied)
                  && States(env) == [Received, Validated, PolicyChecked, CallState.Denied, CallState.Denied]
                  && Outcomes(env) == [Some("denied")])
            && (answer.Ok? && answer.value.outcome.RequiresApproval? && env.approvals.None? ==>
                  && ReplyOf(env) == ErrorReply(PolicyDenied)
                  && States(env) == [Received, Validated, PolicyChecked, CallState.Denied]
                  && Outcomes(env) == [Some("denied")])
  {
    var answer := env.policy(0, FirstRequest(env).value);
    if answer.Err? || !Clear(env, FirstRequest(env).value, answer.value).Cleared? {
      NotInLoop(env);
      hide FirstRequest, WaitOutcome, Looped;
    }
  }

  lemma NotInLoop<Out>(env: Env<Out>)
    requires !ReachesLoop(env)
    ensures Calls(env) == []
  {
  }

  /** The request that a call submits for approval, and the outcome of its wait. */
  function ApprovalOf<Out>(env: Env<Out>, request: Args, rule: string): Approval.Outcome
    requires env.approvals.Some?
  {
    var w := env.approvals.value;
    var submitted := Approval.Request(w.approvalId, env.callId, env.toolName, request, rule, None, None, None);
    Approval.Wait(w.queue[w.approvalId := submitted], w.approvalId, w.turns)
  }

  /** A call that needs approval, with a queue: what each outcome of the wait makes of it. */
  lemma ApprovalsAreTold<Out>(env: Env<Out>)
    requires FirstRequest(env).Ok? && Admitted(env) && env.approvals.Some?
    requires var answer := env.policy(0, FirstRequest(env).value); answer.Ok? && answer.value.outcome.RequiresApproval?
    ensures var waiting := [Received, Validated, PolicyChecked, AwaitingApproval];
            var request := FirstRequest(env).value;
            var outcome := ApprovalOf(env, request, env.policy(0, request).value.matchedRule);
            if !env.approvals.value.reachable
            then ReplyOf(env) == ErrorReply(StateStoreUnavailable) && States(env) == waiting + [Failed]
            else if env.plane.Some? && !env.plane.value(AtCreateApproval)
            then ReplyOf(env) == ErrorReply(ToolExecutionFailed) && States(env) == waiting + [Failed]
            else if outcome.Expired?
            then ReplyOf(env) == ErrorReply(ApprovalTimeout)
                 && States(env) == waiting + [CallState.Denied, CallState.Denied]
            else if outcome.Refused?
            then ReplyOf(env) == ErrorReply(ApprovalRejected)
                 && States(env) == waiting + [CallState.Denied, CallState.Denied]
            else if env.plane.Some? && !env.plane.value(AtResolveApproval)
            then ReplyOf(env) == ErrorReply(ToolExecutionFailed) && States(env) == waiting + [Failed]
            else |States(env)| > 4 && States(env)[..4] == waiting
  {
    var request := FirstRequest(env).value;
    var d := env.policy(0, request).value;
    WaitIsApproval(env, request, d);
    if !Clear(env, request, d).Cleared? { NotInLoop(env); }
    hide FirstRequest, WaitOutcome, ApprovalOf, Looped, Calls;
  }

  lemma WaitIsApproval<Out>(env: Env<Out>, request: Args, d: Policy.Decision)
    requires env.approvals.Some?
    ensures WaitOutcome(env, request, d, env.approvals.value) == ApprovalOf(env, request, d.matchedRule)
  {
    hide Approval.Wait;
  }

  /** A call whose first evaluation allows goes straight to execution. */
  lemma AllowedCallsExecute<Out>(env: Env<Out>)
    requires FirstRequest(env).Ok? && Admitted(env) && Reliable(env)
    requires var answer := env.policy(0, FirstRequest(env).value); answer.Ok? && answer.value.outcome.Allow?
    ensures |States(env)| > 4 && States(env)[..4] == [Received, Validated, PolicyChecked, Executing]
    ensures Calls(env) != [] && Calls(env)[0].arguments == FirstRequest(env).value
    ensures var d := env.policy(0, FirstRequest(env).value).value;
            EvidenceOf(env) == Evidence(Some(Policy.Allow), Some(d.matchedRule), None)
  {
    Lifecycle.CallsFit(env);
    CallsFollow(STANDARD, LoopContext(env), LoopWorld(env), FirstRequest(env).value, 0.0);
    hide FirstRequest, Looped;
  }

  // ----- Counting -----

  function Count(states: seq<CallState>, state: CallState): nat {
    multiset(states)[state]
  }

  /** There is one EXECUTING for every executor call. */
  lemma ExecutingsAreCalls<Out>(env: Env<Out>)
    ensures Count(States(env), Executing) == |Calls(env)|
  {
    NoExecutingAround(env);
    ExecutingsCount(|Calls(env)|);
    hide Prologue, Epilogue, Calls, Executings;
  }

  lemma {:induction false} ExecutingsCount(n: nat)
    ensures Count(Executings(n), Executing) == n
  {
    if n > 0 {
      ExecutingsCount(n - 1);
      assert Executings(n) == Executings(n - 1) + [Executing];
    }
  }

  lemma NoExecutingAround<Out>(env: Env<Out>)
    ensures Count(Prologue(env), Executing) == 0 && Count(Epilogue(env), Executing) == 0
  {
    NoExecutingBefore(env);
    NoExecutingAfter(env);
    hide Prologue, Epilogue;
  }

  lemma NoExecutingBefore<Out>(env: Env<Out>)
    ensures Executing !in Prologue(env)
  {
    hide FirstRequest, WaitOutcome;
  }

  lemma NoExecutingAfter<Out>(env: Env<Out>)
    ensures Executing !in Epilogue(env)
  {
    hide Verdict;
  }

  // ----- Repairs between attempts -----

  /** The arguments of the next executor call: the same after a timeout or a crash, and otherwise a
      proposal of the model for them that the validator accepts. */
  lemma NextArgumentsExactly<Out>(env: Env<Out>, i: nat)
    requires i + 1 < |Calls(env)|
    ensures var c, next := Calls(env)[i], Calls(env)[i + 1].arguments;
            && c.outcome.Err?
            && var e := c.outcome.error;
               if e.Gateway? && (e.error.code.SandboxTimeout? || e.error.code.SandboxCrash?) then next == c.arguments
               else && env.advisor.Some? && env.definition.Some?
                    && (env.advisor.value)(i + 1, c.arguments, Diagnose(e)) == Ok(next)
                    && env.validator(next).Ok?
  {
    CallsAreNumbered(env, i);
    LoopFacts(env);
    InterruptedCallsRepeat(STANDARD, LoopContext(env), LoopWorld(env), FirstRequest(env).value, 0.0, i);
    hide Diagnose, FirstRequest, Whole, CallResult;
  }
}
