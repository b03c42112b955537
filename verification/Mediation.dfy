/** Complete mediation: what every handler invocation of a call was cleared by. */
module Mediation {
  import opened Common
  import Policy
  import Approval
  import opened Repair
  import opened StateStore
  import opened Orchestrator

  /** This approval was granted to this very request before it ran. */
  predicate ApprovedFor<Out>(env: Env<Out>, request: Args, d: Policy.Decision) {
    && d.outcome.RequiresApproval?
    && env.approvals.Some?
    && var w := env.approvals.value;
       WaitOutcome(env, request, d, w).Granted? && WaitOutcome(env, request, d, w).request.arguments == request
  }

  /** An evaluation of the invocation's own request allowed it; on attempt 1, the evaluation
      before the first attempt, or an approval of that same request. */
  predicate Mediated<Out>(env: Env<Out>, inv: Invocation) {
    exists i | 0 <= i < |Evaluations(env)| :: Justifies(env, Evaluations(env)[i], inv)
  }

  predicate Justifies<Out>(env: Env<Out>, e: Evaluation, inv: Invocation) {
    && e.request == inv.request
    && e.answer == env.policy(e.index, e.request)
    && e.answer.Ok?
    && (if inv.number > 1 then e.index == inv.call && e.answer.value.outcome.Allow?
        else e.index == 0 && (e.answer.value.outcome.Allow? || ApprovedFor(env, e.request, e.answer.value)))
  }

  lemma {:induction false} NumbersGrow<Out>(env: Env<Out>, j: nat, k: nat)
    requires j <= k
    ensures Number(env, j) <= Number(env, k)
    ensures 1 <= j < k && Entered(env, j) ==> Number(env, j) < Number(env, k)
    decreases k - j
  {
    if j < k {
      NumbersGrow(env, j, k - 1);
    }
  }

  /** Where an invocation comes from. */
  lemma {:induction false} InvocationSource<Out>(env: Env<Out>, calls: seq<Call<Out>>, i: nat) returns (c: nat)
    requires i < |InvocationsOf(env, calls)|
    ensures c < |calls|
    ensures var inv := InvocationsOf(env, calls)[i];
            && inv.call == calls[c].attempt
            && inv.number == Number(env, inv.call)
            && Invoked(env, inv.call, calls[c].arguments) == Some(inv.request)
  {
    var before := calls[..|calls| - 1];
    if i < |InvocationsOf(env, before)| {
      c := InvocationSource(env, before, i);
    } else {
      c := |calls| - 1;
    }
  }

  lemma {:induction false} EvaluationIsLogged<Out>(env: Env<Out>, calls: seq<Call<Out>>, c: nat) returns (i: nat)
    requires c < |calls| && Evaluated(env, calls[c].attempt, calls[c].arguments).Some?
    ensures i < |EvaluationsOf(env, calls)|
    ensures var request := Evaluated(env, calls[c].attempt, calls[c].arguments).value;
            EvaluationsOf(env, calls)[i] == Evaluation(calls[c].attempt, request, env.policy(calls[c].attempt, request))
  {
    if c < |calls| - 1 {
      i := EvaluationIsLogged(env, calls[..|calls| - 1], c);
    } else {
      i := |EvaluationsOf(env, calls[..|calls| - 1])|;
    }
  }

  lemma {:induction false} LaterEvaluationsAreNumbered<Out>(env: Env<Out>, calls: seq<Call<Out>>, i: nat)
    requires i < |EvaluationsOf(env, calls)| && forall c | 0 <= c < |calls| :: calls[c].attempt >= 1
    ensures EvaluationsOf(env, calls)[i].index >= 1
  {
    if i < |EvaluationsOf(env, calls[..|calls| - 1])| {
      LaterEvaluationsAreNumbered(env, calls[..|calls| - 1], i);
    }
  }

  /** Every attempt after the first is mediated by its own evaluation. */
  lemma RetriesAreMediated<Out>(env: Env<Out>, i: nat)
    requires i < |Invocations(env)| && Invocations(env)[i].number > 1
    ensures Mediated(env, Invocations(env)[i])
  {
    var request, inv := FirstRequest(env).value, Invocations(env)[i];
    var calls := Looped(env, request).calls;
    var c := InvocationSource(env, calls, i);
    var j := EvaluationIsLogged(env, calls, c);
    assert Evaluations(env)[j + 1] == EvaluationsOf(env, calls)[j];
    assert Justifies(env, Evaluations(env)[j + 1], inv);
  }

  lemma GrantKeepsArguments<Out>(env: Env<Out>, request: Args, d: Policy.Decision, w: ApprovalWorld)
    requires WaitOutcome(env, request, d, w).Granted? && Approval.IdUnique(w.approvalId, w.turns)
    ensures WaitOutcome(env, request, d, w).request.arguments == request
  {
    var r := Submitted(env, request, d, w);
    Approval.GrantedExactlyWhenApproved(w.queue, r, w.turns);
    var n :| 0 <= n < |w.turns| && Approval.ApprovedAt(r.approvalId, w.turns, n);
  }

  predicate IdsUnique<Out>(env: Env<Out>) {
    env.approvals.Some? ==> Approval.IdUnique(env.approvals.value.approvalId, env.approvals.value.turns)
  }

  /** A first attempt is mediated exactly when it runs the request that was evaluated before it. */
  lemma FirstAttemptMediation<Out>(env: Env<Out>, i: nat)
    requires IdsUnique(env)
    requires i < |Invocations(env)| && Invocations(env)[i].number == 1
    ensures Mediated(env, Invocations(env)[i]) <==> Invocations(env)[i].request == FirstRequest(env).value
  {
    var request, inv := FirstRequest(env).value, Invocations(env)[i];
    var calls := Looped(env, request).calls;
    var d := env.policy(0, request).value;
    if inv.request == request {
      if d.outcome.RequiresApproval? {
        GrantKeepsArguments(env, request, d, env.approvals.value);
      }
      assert Justifies(env, Evaluations(env)[0], inv);
    } else {
      CallsAreBounded(STANDARD, LoopContext(env), LoopWorld(env), request, 0.0);
      forall j | 0 <= j < |Evaluations(env)| ensures !Justifies(env, Evaluations(env)[j], inv) {
        if j > 0 {
          assert Evaluations(env)[j] == EvaluationsOf(env, calls)[j - 1];
          LaterEvaluationsAreNumbered(env, calls, j - 1);
        }
      }
    }
  }

  /** Complete mediation, exactly: every handler invocation is mediated if and only if no
      attempt 1 runs a request other than the one evaluated before it. */
  lemma MediationExactly<Out>(env: Env<Out>)
    requires IdsUnique(env)
    ensures (forall i | 0 <= i < |Invocations(env)| :: Mediated(env, Invocations(env)[i]))
            <==> (forall i | 0 <= i < |Invocations(env)| && Invocations(env)[i].number == 1 ::
                    Invocations(env)[i].request == FirstRequest(env).value)
  {
    forall i | 0 <= i < |Invocations(env)|
      ensures Mediated(env, Invocations(env)[i])
              <==> (Invocations(env)[i].number == 1 ==> Invocations(env)[i].request == FirstRequest(env).value)
    {
      InvocationsAreNumbered(env, i);
      if Invocations(env)[i].number == 1 {
        FirstAttemptMediation(env, i);
      } else {
        RetriesAreMediated(env, i);
      }
    }
  }

  lemma InvocationsAreNumbered<Out>(env: Env<Out>, i: nat)
    requires i < |Invocations(env)|
    ensures Invocations(env)[i].number >= 1
  {
    var c := InvocationSource(env, Looped(env, FirstRequest(env).value).calls, i);
  }

  /** With the EXECUTING write of the first executor call in place, every handler invocation of
      the call is mediated, whatever the policy, the approvals, the model, the handlers and all
      other store operations do. */
  lemma MediationWhenFirstWriteHolds<Out>(env: Env<Out>)
    requires RoundTrips(env) && IdsUnique(env) && env.up(AtExecuting(1))
    ensures forall i | 0 <= i < |Invocations(env)| :: Mediated(env, Invocations(env)[i])
  {
    forall i | 0 <= i < |Invocations(env)| && Invocations(env)[i].number == 1
      ensures Invocations(env)[i].request == FirstRequest(env).value
    {
      var request := FirstRequest(env).value;
      var calls := Looped(env, request).calls;
      var c := InvocationSource(env, calls, i);
      CallsFollow(STANDARD, LoopContext(env), LoopWorld(env), request, 0.0);
      CallsAreBounded(STANDARD, LoopContext(env), LoopWorld(env), request, 0.0);
      if calls[c].attempt > 1 {
        NumbersGrow(env, 1, calls[c].attempt);
      }
      FirstRequestRevalidates(env);
    }
    MediationExactly(env);
  }

  lemma FirstRequestRevalidates<Out>(env: Env<Out>)
    requires RoundTrips(env) && FirstRequest(env).Ok?
    ensures Validate(env, FirstRequest(env).value) == Ok(FirstRequest(env).value)
  {
  }

  /** The store fails the first EXECUTING write and lets a later one through. */
  predicate LosesFirstWrite(up: StorePoint -> bool) {
    !up(AtExecuting(1)) && (up(AtExecuting(2)) || up(AtExecuting(3)))
  }

  /** Mediation is guaranteed on every store that does not lose only the first EXECUTING write. */
  lemma MediationGuaranteed<Out>(env: Env<Out>)
    requires RoundTrips(env) && IdsUnique(env) && !LosesFirstWrite(env.up)
    ensures forall i | 0 <= i < |Invocations(env)| :: Mediated(env, Invocations(env)[i])
  {
    if env.up(AtExecuting(1)) {
      MediationWhenFirstWriteHolds(env);
    } else if ReachesLoop(env) {
      var request := FirstRequest(env).value;
      CallsAreBounded(STANDARD, LoopContext(env), LoopWorld(env), request, 0.0);
      NothingEntered(env, Looped(env, request).calls);
    }
  }

  /** With none of the three EXECUTING writes in place, nothing is invoked. */
  lemma NothingEntered<Out>(env: Env<Out>, calls: seq<Call<Out>>)
    requires |calls| <= 3 && forall i | 0 <= i < |calls| :: calls[i].attempt == i + 1
    requires !env.up(AtExecuting(1)) && !env.up(AtExecuting(2)) && !env.up(AtExecuting(3))
    ensures InvocationsOf(env, calls) == []
  {
    if calls != [] {
      NothingEntered(env, calls[..|calls| - 1]);
    }
  }

  /** The first request of `SkippingEnv`, and what its model proposes instead. */
  const ORIGINAL: Args := map["query" := JString("SELECT 1")]
  const REPAIRED: Args := map["query" := JString("DROP TABLE t")]

  const ALLOWED := Policy.Decision(Policy.Allow, "", "")
  const DENIED := Policy.Decision(Policy.Deny, "", "")
  const SUPERVISED := Policy.Decision(Policy.RequiresApproval, "", "")

  /** An operator approves the request, with a reason, before the first poll. */
  const APPROVING := ApprovalWorld("approval", map[],
    [Approval.Operator(Approval.Decision("approval", true, "operator", "reviewed")), Approval.Poll], true)

  const USER := Policy.Identity("tenant", ["user"])

  /** What decides the calls of `SkippingEnv`: a policy that allows only the original request; one
      that requires approval of an idempotent mutation, which the original request is given; or
      the rules, for a caller that holds only the role `user`. */
  datatype Decider = OriginalOnly | Supervisor | RulesForUser

  function Answer(decider: Decider, a: Args): Policy.Decision {
    match decider
    case OriginalOnly => if a == ORIGINAL then ALLOWED else DENIED
    case Supervisor => SUPERVISED
    case RulesForUser => Policy.Decide(Policy.Input("db_query", ReadOnly, a, USER))
  }

  /** A call whose model always proposes the other request. */
  function SkippingEnv(up: StorePoint -> bool, decider: Decider): Env<()> {
    Env("call", "session", "db_query", ORIGINAL,
        Some(Definition(if decider.Supervisor? then Mutating else ReadOnly, true)),
        (a: Args) => Ok(a),
        (k: nat, a: Args) => Ok(Answer(decider, a)),
        Some((k: nat, a: Args, c: Category) => Ok(REPAIRED)),
        if decider.Supervisor? then Some(APPROVING) else None,
        (k: nat, a: Args) => Ok(()),
        _ => 0.0, _ => 0.0, _ => 0.0,
        up, (n: nat) => n, None, None, _ => true)
  }

  /** On every other store it is not: when the first EXECUTING write alone is lost, the retry
      still counts as attempt 1, so its repaired arguments reach the handler without the policy
      evaluation that precedes every other retry; or, when the original request was approved,
      under the approval of arguments other than its own. */
  lemma LostWriteSkipsReview(up: StorePoint -> bool, decider: Decider) returns (i: nat)
    requires up(AtCreate) && up(AtValidated) && up(AtPolicyChecked) && LosesFirstWrite(up)
    requires decider.Supervisor? ==> up(AtAwaiting)
    ensures var env := SkippingEnv(up, decider);
            && RoundTrips(env) && IdsUnique(env) && FirstRequest(env) == Ok(ORIGINAL)
            && i < |Invocations(env)|
            && Invocations(env)[i].request == REPAIRED != ORIGINAL
            && Invocations(env)[i].number == 1
            && !Mediated(env, Invocations(env)[i])
  {
    hide SkippingEnv, ReachesLoop, FirstRequest, Looped, InvocationsOf, Invoked, Number, Mediated, RoundTrips,
        IdsUnique;
    var env := SkippingEnv(up, decider);
    SkippingReachesLoop(up, decider);
    var k := SkippingCalls(up, decider);
    i := InvocationIsLogged(env, Looped(env, ORIGINAL).calls, k - 1);
    FirstAttemptMediation(env, i);
  }

  lemma ApprovalIsGranted(up: StorePoint -> bool)
    ensures var env := SkippingEnv(up, Supervisor);
            Clear(env, ORIGINAL, SUPERVISED).Cleared? && IdsUnique(env)
  {
    var env := SkippingEnv(up, Supervisor);
    var r := Submitted(env, ORIGINAL, SUPERVISED, APPROVING);
    var id, turns := APPROVING.approvalId, APPROVING.turns;
    assert turns[0] == Approval.Operator(Approval.Decision(id, true, "operator", "reviewed"))
        && turns[1] == Approval.Poll;
    var d := turns[0].decision;
    assert !Blank(d.reason) by { assert !IsSpace(d.reason[0]); }
    var q0 := map[][id := r];
    var q1 := Approval.AfterTurn(q0, turns[0]);
    assert q1 == q0[id := Approval.Decided(r, d)];
    assert turns[1..][0] == Approval.Poll;
    assert Approval.Wait(q1, id, turns[1..]) == Approval.Granted(Approval.Decided(r, d));
    assert Approval.Wait(q0, id, turns) == Approval.Wait(q1, id, turns[1..]);
  }

  /** The rules allow the original request. */
  lemma OriginalIsAllowed()
    ensures Answer(RulesForUser, ORIGINAL).outcome.Allow?
  {
    var input := Policy.Input("db_query", ReadOnly, ORIGINAL, USER);
    var query := Policy.Upper("SELECT 1");
    assert query[0] == 'S' && forall i | 0 <= i < |query| :: query[i] != 'D' && query[i] != 'R';
    forall i: nat ensures !OccursAt(query, "DROP", i) && !OccursAt(query, "TRUNCATE", i) {
      OccurrenceReads(query, "DROP", i);
      OccurrenceReads(query, "TRUNCATE", i);
      assert "DROP"[0] == 'D' && "TRUNCATE"[1] == 'R';
    }
    assert !Policy.DestructiveQuery("SELECT 1");
    assert USER.roles[0] in {"user", "operator", "admin"};
    hide Policy.DestructiveQuery;
    assert !Policy.Destructive(input) && Policy.CallerAuthorized(input);
  }

  lemma SkippingReachesLoop(up: StorePoint -> bool, decider: Decider)
    requires up(AtCreate) && up(AtValidated) && up(AtPolicyChecked) && (decider.Supervisor? ==> up(AtAwaiting))
    ensures var env := SkippingEnv(up, decider);
            && RoundTrips(env) && IdsUnique(env) && ReachesLoop(env)
            && FirstRequest(env) == Ok(ORIGINAL) && ORIGINAL != REPAIRED
  {
    assert ORIGINAL["query"] != REPAIRED["query"];
    match decider
    case OriginalOnly =>
    case Supervisor => ApprovalIsGranted(up); hide Clear;
    case RulesForUser => OriginalIsAllowed();
  }

  /** The executor call `k` of `SkippingEnv` that invokes its handler as attempt 1. */
  lemma SkippingCalls(up: StorePoint -> bool, decider: Decider) returns (k: nat)
    requires LosesFirstWrite(up)
    ensures var env := SkippingEnv(up, decider); var calls := Looped(env, ORIGINAL).calls;
            && 2 <= k <= |calls| && calls[k - 1].attempt == k
            && Number(env, k) == 1 && Invoked(env, k, calls[k - 1].arguments) == Some(REPAIRED)
  {
    var env := SkippingEnv(up, decider);
    var w, ctx := LoopWorld(env), LoopContext(env);
    assert BaseDelay(STANDARD, 1) == 0.25 && BaseDelay(STANDARD, 2) == 0.5 by {
      assert Pow2(1) == 2.0;
    }
    assert AfterFailure(STANDARD, ctx, w, 1, ORIGINAL, STORE_DOWN, 0.0, 0.0) == Again(REPAIRED, 0.25);
    var rest := Loop(STANDARD, ctx, w, 2, REPAIRED, 0.25, 0.0);
    assert Looped(env, ORIGINAL).calls == [Call(1, ORIGINAL, 0.0, Err(STORE_DOWN))] + rest.calls;
    assert !Entered(env, 1) && Number(env, 2) == 1;
    if up(AtExecuting(2)) {
      LoopNumbers(STANDARD, ctx, w, 2, REPAIRED, 0.25, 0.0);
      k := 2;
    } else {
      assert AfterFailure(STANDARD, ctx, w, 2, REPAIRED, STORE_DOWN, 0.25, 0.0) == Again(REPAIRED, 0.75);
      var last := Loop(STANDARD, ctx, w, 3, REPAIRED, 0.75, 0.0);
      assert rest.calls == [Call(2, REPAIRED, 0.25, Err(STORE_DOWN))] + last.calls;
      assert !Entered(env, 2) && Number(env, 3) == 1;
      LoopNumbers(STANDARD, ctx, w, 3, REPAIRED, 0.75, 0.0);
      k := 3;
    }
  }

  lemma {:induction false} InvocationIsLogged<Out>(env: Env<Out>, calls: seq<Call<Out>>, c: nat) returns (i: nat)
    requires c < |calls| && Invoked(env, calls[c].attempt, calls[c].arguments).Some?
    ensures i < |InvocationsOf(env, calls)|
    ensures InvocationsOf(env, calls)[i]
            == Invocation(calls[c].attempt, Number(env, calls[c].attempt),
                          Invoked(env, calls[c].attempt, calls[c].arguments).value)
  {
    if c < |calls| - 1 {
      i := InvocationIsLogged(env, calls[..|calls| - 1], c);
    } else {
      i := |InvocationsOf(env, calls[..|calls| - 1])|;
    }
  }

  // ----- Approvals -----

  lemma {:induction false} NumbersIncrease<Out>(env: Env<Out>, calls: seq<Call<Out>>, i: nat, j: nat)
    requires forall c | 0 <= c < |calls| :: calls[c].attempt == c + 1
    requires i < j < |InvocationsOf(env, calls)|
    ensures InvocationsOf(env, calls)[i].number < InvocationsOf(env, calls)[j].number
  {
    var before := calls[..|calls| - 1];
    if j < |InvocationsOf(env, before)| {
      NumbersIncrease(env, before, i, j);
    } else {
      var c := InvocationSource(env, before, i);
      NumbersGrow(env, c + 1, |calls|);
    }
  }

  /** Attempt numbers increase from one invocation to the next, so at most one invocation is
      attempt 1: one approval authorises at most one of them. */
  lemma OneInvocationPerNumber<Out>(env: Env<Out>, i: nat, j: nat)
    requires i < j < |Invocations(env)|
    ensures Invocations(env)[i].number < Invocations(env)[j].number
  {
    var request := FirstRequest(env).value;
    CallsAreBounded(STANDARD, LoopContext(env), LoopWorld(env), request, 0.0);
    NumbersIncrease(env, Looped(env, request).calls, i, j);
  }

  /** Approval fidelity: a call whose first evaluation requires approval invokes its handler as
      attempt 1 only if the operator decision standing at the poll that ended the wait approves,
      with a reason, before the deadline, and then with the arguments submitted for approval, on
      every store that does not lose only the first EXECUTING write; and every later attempt was
      allowed outright. */
  lemma ApprovalFidelity<Out>(env: Env<Out>, i: nat)
    requires IdsUnique(env) && i < |Invocations(env)|
    requires env.policy(0, FirstRequest(env).value).value.outcome.RequiresApproval?
    ensures var inv := Invocations(env)[i]; var request := FirstRequest(env).value;
            && env.approvals.Some?
            && var w := env.approvals.value;
               && (exists n | 0 <= n < |w.turns| :: Approval.ApprovedAt(w.approvalId, w.turns, n))
               && Submitted(env, request, env.policy(0, request).value, w).arguments == request
               && (inv.number == 1 && RoundTrips(env) && !LosesFirstWrite(env.up) ==> inv.request == request)
               && (inv.number > 1 ==> Allows(env.policy(inv.call, inv.request)))
  {
    var request := FirstRequest(env).value;
    var w := env.approvals.value;
    Approval.GrantedExactlyWhenApproved(w.queue, Submitted(env, request, env.policy(0, request).value, w), w.turns);
    var c := InvocationSource(env, Looped(env, request).calls, i);
    if Invocations(env)[i].number == 1 && RoundTrips(env) && !LosesFirstWrite(env.up) {
      MediationGuaranteed(env);
      FirstAttemptMediation(env, i);
    }
  }

  /** The audit record of a call that got past its approval names the operator whose decision
      stood at the poll that ended the wait, and the rule that asked for it. */
  lemma AuditNamesTheApprover<Out>(env: Env<Out>)
    requires IdsUnique(env) && ReachesLoop(env)
    requires env.policy(0, FirstRequest(env).value).value.outcome.RequiresApproval?
    ensures var d := env.policy(0, FirstRequest(env).value).value;
            var w := env.approvals.value;
            exists n | 0 <= n < |w.turns| ::
              && Approval.ApprovedAt(w.approvalId, w.turns, n)
              && EvidenceOf(env) == Evidence(Some(Policy.RequiresApproval), Some(d.matchedRule),
                                             Some(Approval.Standing(w.approvalId, w.turns[..n]).value.approver))
  {
    var request := FirstRequest(env).value;
    var d, w := env.policy(0, request).value, env.approvals.value;
    Approval.GrantedExactlyWhenApproved(w.queue, Submitted(env, request, d, w), w.turns);
    var n :| 0 <= n < |w.turns| && Approval.ApprovedAt(w.approvalId, w.turns, n);
  }

  /** Without a grant, nothing runs: a rejection, a timeout, or a decision made too late never
      leads to an invocation. */
  lemma NoGrantNoInvocation<Out>(env: Env<Out>)
    requires IdsUnique(env) && FirstRequest(env).Ok? && env.policy(0, FirstRequest(env).value).Ok?
    requires env.policy(0, FirstRequest(env).value).value.outcome.RequiresApproval?
    requires env.approvals.None?
             || forall n | 0 <= n < |env.approvals.value.turns| ::
                  !Approval.ApprovedAt(env.approvals.value.approvalId, env.approvals.value.turns, n)
    ensures Invocations(env) == []
  {
    if |Invocations(env)| > 0 {
      ApprovalFidelity(env, 0);
    }
  }

  // ----- The policy rules end to end -----

  /** Every evaluation of the call that is answered is decided by the rules, for this caller; any
      may fail instead. */
  ghost predicate DecidedByRules<Out>(env: Env<Out>, principal: Policy.PrincipalInput) {
    forall k: nat, a: Args :: env.policy(k, a).Ok? ==>
      env.policy(k, a).value == Policy.Decide(Policy.Input(env.toolName, LoopContext(env).risk, a, principal))
  }

  /** What the rules are asked about an invocation. */
  function InputOf<Out>(env: Env<Out>, inv: Invocation, principal: Policy.PrincipalInput): Policy.Input {
    Policy.Input(env.toolName, LoopContext(env).risk, inv.request, principal)
  }

  /** No call of a caller that holds only the role `user` invokes the handler of a tool that is
      not read-only, or, on a store that does not lose only the first EXECUTING write, any handler
      with a destructive request, whatever else fails meanwhile. */
  lemma UserInvokesOnlyReads<Out>(env: Env<Out>, principal: Policy.PrincipalInput, i: nat)
    requires RoundTrips(env) && IdsUnique(env)
    requires DecidedByRules(env, principal) && Policy.OnlyUser(principal)
    requires i < |Invocations(env)|
    ensures LoopContext(env).risk.ReadOnly?
    ensures !LosesFirstWrite(env.up) ==> !Policy.Destructive(InputOf(env, Invocations(env)[i], principal))
  {
    if !LoopContext(env).risk.ReadOnly? {
      UserNeverMutates(env, principal);
    }
    if !LosesFirstWrite(env.up) {
      MediationGuaranteed(env);
      var inv := Invocations(env)[i];
      var j :| 0 <= j < |Evaluations(env)| && Justifies(env, Evaluations(env)[j], inv);
      Policy.UserReadsOnly(InputOf(env, inv, principal));
    }
  }

  /** On every other store the destructive half fails: such a caller's call runs a destructive
      request that its model proposed and no rule was asked about. */
  lemma LostWriteRunsDestructive(up: StorePoint -> bool) returns (i: nat)
    requires up(AtCreate) && up(AtValidated) && up(AtPolicyChecked) && LosesFirstWrite(up)
    ensures var env := SkippingEnv(up, RulesForUser);
            && RoundTrips(env) && IdsUnique(env) && DecidedByRules(env, USER) && Policy.OnlyUser(USER)
            && i < |Invocations(env)|
            && Policy.Destructive(InputOf(env, Invocations(env)[i], USER))
  {
    i := LostWriteSkipsReview(up, RulesForUser);
    RepairedIsDestructive();
    hide Invocations, RoundTrips, Policy.Destructive, Policy.Decide;
  }

  lemma RepairedIsDestructive()
    ensures Policy.Destructive(Policy.Input("db_query", ReadOnly, REPAIRED, USER))
  {
    var query := Policy.Upper("DROP TABLE t");
    assert query[..4] == "DROP";
    assert OccursAt(query, "DROP", 0);
  }

  /** The read-only half needs no condition on the store. */
  lemma UserNeverMutates<Out>(env: Env<Out>, principal: Policy.PrincipalInput)
    requires DecidedByRules(env, principal) && Policy.OnlyUser(principal) && !LoopContext(env).risk.ReadOnly?
    ensures Invocations(env) == []
  {
    if ReachesLoop(env) {
      Policy.UserReadsOnly(Policy.Input(env.toolName, LoopContext(env).risk, FirstRequest(env).value, principal));
    }
  }

  lemma {:induction false} AtMostOneEach<Out>(env: Env<Out>, calls: seq<Call<Out>>)
    ensures |InvocationsOf(env, calls)| <= |calls|
  {
    if calls != [] {
      AtMostOneEach(env, calls[..|calls| - 1]);
    }
  }

  /** A tool that is neither read-only nor idempotent is invoked at most once per call. */
  lemma MutationsInvokedOnce<Out>(env: Env<Out>)
    requires !LoopContext(env).risk.ReadOnly? && !LoopContext(env).idempotent
    ensures |Invocations(env)| <= 1
  {
    if ReachesLoop(env) {
      var request := FirstRequest(env).value;
      MutationsRunOnce(STANDARD, LoopContext(env), LoopWorld(env), request, 0.0);
      AtMostOneEach(env, Looped(env, request).calls);
    }
  }
}
