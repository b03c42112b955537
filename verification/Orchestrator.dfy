/** gateway/server.py, `execute_tool_call`: what one call does, as functions of everything the
    gateway does not decide itself.  The imperative pipeline in `ToolCall` is proved to follow
    them; `Mediation` and `Lifecycle` prove what they guarantee. */
module Orchestrator {
  import opened Common
  import Policy
  import Approval
  import opened Repair
  import opened StateStore

  datatype Definition = Definition(risk: Risk, idempotent: bool)

  /** The state-store operations of a call; those of the k-th executor call carry k. */
  datatype StorePoint =
    | AtCreate | AtValidated | AtPolicyChecked | AtAwaiting | AtDenied | AtDeniedFinish
    | AtStart(call: nat) | AtExecuting(call: nat) | AtFinishSucceeded(call: nat) | AtFinishFailed(call: nat)
    | AtSucceeded | AtFail | AtFailFinish | AtAudit(index: nat)

  datatype PlanePoint = AtAdmission | AtCreateApproval | AtResolveApproval | AtAuditUpsert(index: nat)

  /** The approval queue at submission, and what happens while the call waits.  An unreachable
      queue raises when the request is submitted or awaited. */
  datatype ApprovalWorld = ApprovalWorld(approvalId: string, queue: Approval.Queue, turns: seq<Approval.Turn>,
                                         reachable: bool)

  /** One call and its surroundings.  `audit` and `plane`, when configured, say which of their
      operations succeed, as `up` does for the state store.  `validate` yields the dump of the validated request, which
      stands for the request.  Policy evaluation and the handler may answer differently at every
      executor call; policy evaluation 0 is the one before the first. */
  datatype Env<!Out> = Env(
    callId: string, sessionId: string, toolName: string, arguments: Args,
    definition: Option<Definition>,
    validator: Args -> Result<Args, GatewayError>,
    policy: (nat, Args) -> Result<Policy.Decision, Exn>,
    advisor: Option<(nat, Args, Category) -> Result<Args, Exn>>,
    approvals: Option<ApprovalWorld>,
    handler: (nat, Args) -> Result<Out, Exn>,
    executeTime: nat -> real, repairTime: nat -> real, draw: nat -> real,
    up: StorePoint -> bool,
    clock: nat -> int,
    audit: Option<nat -> bool>,
    plane: Option<PlanePoint -> bool>,
    serialises: Out -> bool)

  const STORE_DOWN := Raised(StateStoreUnavailable, "The gateway could not persist tool-call state")

  function Validate<Out>(env: Env<Out>, a: Args): Result<Args, GatewayError> {
    if env.definition.None? then Err(GatewayError(ToolNotFound, "Unknown tool: " + env.toolName, []))
    else env.validator(a)
  }

  /** Validating the dump of a validated request yields that request. */
  ghost predicate RoundTrips<Out>(env: Env<Out>) {
    forall a: Args, r: Args | Validate(env, a) == Ok(r) :: Validate(env, r) == Ok(r)
  }

  /** The control plane is absent, or this operation on it succeeds. */
  predicate PlaneOk<Out>(env: Env<Out>, p: PlanePoint) {
    env.plane.None? || env.plane.value(p)
  }

  // ----- Before execution -----

  predicate Repairable(c: Category) {
    c.SchemaMismatch? || c.MalformedJson? || c.MissingRequiredField? || c.TypeCoercion?
  }

  /** The first validated request, after at most one model repair. */
  function FirstRequest<Out>(env: Env<Out>): Result<Args, Exn> {
    match Validate(env, env.arguments)
    case Ok(r) => Ok(r)
    case Err(e) =>
      var category := Diagnose(Gateway(e));
      if env.advisor.None? || !Repairable(category) then Err(Gateway(e))
      else match (env.advisor.value)(0, env.arguments, category)
           case Err(x) => Err(x)
           case Ok(proposed) =>
             match Validate(env, proposed)
             case Err(e2) => Err(Gateway(e2))
             case Ok(r) => Ok(r)
  }

  /** What the decision on the first request leads to: execution, with the approval it took, or
      an exception after these extra transitions. */
  datatype Clearance =
    | Cleared(approval: Option<Approval.Request>)
    | Blocked(states: seq<CallState>, error: Exn)

  function Submitted<Out>(env: Env<Out>, request: Args, d: Policy.Decision, w: ApprovalWorld): Approval.Request {
    Approval.CreateApprovalRequest(w.approvalId, env.callId, env.toolName, request, d.matchedRule)
  }

  function WaitOutcome<Out>(env: Env<Out>, request: Args, d: Policy.Decision, w: ApprovalWorld): Approval.Outcome {
    var r := Submitted(env, request, d, w);
    Approval.Wait(w.queue[r.approvalId := r], r.approvalId, w.turns)
  }

  function Clear<Out>(env: Env<Out>, request: Args, d: Policy.Decision): Clearance {
    match d.outcome
    case Allow => Cleared(None)
    case Deny => Blocked([CallState.Denied], Raised(PolicyDenied, d.reason))
    case RequiresApproval =>
      if env.approvals.None? then
        Blocked([], Raised(PolicyDenied, "Approval is required but no approval queue is configured"))
      else
        var w := env.approvals.value;
        if !w.reachable then Blocked([AwaitingApproval], STORE_DOWN)
        else if !PlaneOk(env, AtCreateApproval) then Blocked([AwaitingApproval], Unexpected("control plane"))
        else match WaitOutcome(env, request, d, w)
             case Expired =>
               Blocked([AwaitingApproval, CallState.Denied],
                       Raised(ApprovalTimeout, "Approval timed out; the call was denied"))
             case Refused(reason) => Blocked([AwaitingApproval, CallState.Denied], Raised(ApprovalRejected, reason))
             case Granted(r) =>
               if !PlaneOk(env, AtResolveApproval) then Blocked([AwaitingApproval], Unexpected("control plane"))
               else Cleared(Some(r))
  }

  /** The approver of the request, once the wait has granted it. */
  function ApproverOf<Out>(env: Env<Out>, request: Args, d: Policy.Decision): Option<string> {
    if !d.outcome.RequiresApproval? || env.approvals.None? then None
    else
      var w := env.approvals.value;
      if !w.reachable || !PlaneOk(env, AtCreateApproval) then None
      else match WaitOutcome(env, request, d, w) case Granted(r) => r.approver case _ => None
  }

  /** What an audit record says about the first decision and its approval. */
  datatype Evidence = Evidence(decision: Option<Policy.Outcome>, matchedRule: Option<string>, approver: Option<string>)

  const NO_EVIDENCE := Evidence(None, None, None)

  function EvidenceOf<Out>(env: Env<Out>): Evidence {
    match FirstRequest(env)
    case Err(_) => NO_EVIDENCE
    case Ok(request) =>
      match env.policy(0, request)
      case Err(_) => NO_EVIDENCE
      case Ok(d) => Evidence(Some(d.outcome), Some(d.matchedRule), ApproverOf(env, request, d))
  }

  // ----- Executor calls -----

  /** `latest_attempt` when the k-th executor call starts. */
  function Number<Out>(env: Env<Out>, k: nat): (n: nat)
    ensures 1 <= n
    decreases k, 0
  {
    if k <= 1 then 1 else Number(env, k - 1) + if Entered(env, k - 1) then 1 else 0
  }

  /** The k-th executor call gets past its store writes into the guarded block, which is what
      advances `latest_attempt`. */
  predicate Entered<Out>(env: Env<Out>, k: nat)
    decreases k, 1
  {
    (Number(env, k) > 1 ==> env.up(AtStart(k))) && env.up(AtExecuting(k))
  }

  lemma NumberStep<Out>(env: Env<Out>, k: nat)
    requires 1 <= k
    ensures Number(env, k + 1) == Number(env, k) + if Entered(env, k) then 1 else 0
    ensures Reliable(env) ==> Entered(env, k)
  {
  }

  /** The request whose policy evaluation the k-th executor call asks for. */
  function Evaluated<Out>(env: Env<Out>, k: nat, arguments: Args): Option<Args> {
    if Entered(env, k) && Number(env, k) > 1 && Validate(env, arguments).Ok?
    then Some(Validate(env, arguments).value) else None
  }

  predicate Allows(answer: Result<Policy.Decision, Exn>) {
    answer.Ok? && answer.value.outcome.Allow?
  }

  /** The request the k-th executor call invokes the handler with, if it gets that far. */
  function Invoked<Out>(env: Env<Out>, k: nat, arguments: Args): Option<Args> {
    if !Entered(env, k) then None
    else match Validate(env, arguments)
         case Err(_) => None
         case Ok(request) =>
           if Number(env, k) > 1 && !Allows(env.policy(k, request)) then None else Some(request)
  }

  /** The outcome of the guarded block, before the attempt is recorded. */
  function Body<Out>(env: Env<Out>, k: nat, arguments: Args): Result<Out, Exn> {
    match Validate(env, arguments)
    case Err(e) => Err(Gateway(e))
    case Ok(request) =>
      if Number(env, k) == 1 then env.handler(k, request)
      else match env.policy(k, request)
           case Err(x) => Err(x)
           case Ok(d) =>
             if d.outcome.Allow? then env.handler(k, request)
             else Err(Raised(PolicyDenied, "Repaired arguments were denied by policy"))
  }

  /** What an executor call ends with once its outcome has been recorded. */
  function AfterRecording<Out>(env: Env<Out>, k: nat, outcome: Result<Out, Exn>): Result<Out, Exn> {
    match outcome
    case Ok(out) => if env.up(AtFinishSucceeded(k)) then Ok(out) else Err(STORE_DOWN)
    case Err(Gateway(e)) => if env.up(AtFinishFailed(k)) then Err(Gateway(e)) else Err(STORE_DOWN)
    case Err(Unexpected(detail)) => Err(Unexpected(detail))
  }

  function CallResult<Out>(env: Env<Out>, k: nat, arguments: Args): Result<Out, Exn> {
    if Entered(env, k) then AfterRecording(env, k, Body(env, k, arguments)) else Err(STORE_DOWN)
  }

  /** `repair_arguments`: a model proposal that validates. */
  function Propose<Out>(env: Env<Out>, k: nat, arguments: Args, c: Category): Result<Args, Exn>
    requires env.advisor.Some?
  {
    match (env.advisor.value)(k, arguments, c)
    case Err(x) => Err(x)
    case Ok(proposed) =>
      match Validate(env, proposed)
      case Err(e) => Err(Gateway(e))
      case Ok(_) => Ok(proposed)
  }

  /** The repair loop's view of this call. */
  function LoopWorld<Out>(env: Env<Out>): World<Out> {
    World((k: nat, a: Args) => CallResult(env, k, a),
          if env.advisor.None? then None
          else Some((k: nat, a: Args, c: Category) =>
                      if env.advisor.Some? then Propose(env, k, a, c) else Err(STORE_DOWN)),
          env.executeTime, env.repairTime, env.draw)
  }

  function LoopContext<Out>(env: Env<Out>): Context {
    match env.definition case Some(d) => Context(d.risk, d.idempotent) case None => Context(Destructive, false)
  }

  function Looped<Out>(env: Env<Out>, request: Args): LoopRun<Out> {
    Whole(STANDARD, LoopContext(env), LoopWorld(env), request, 0.0)
  }

  /** One handler invocation: the executor call, its attempt number, and the request. */
  datatype Invocation = Invocation(call: nat, number: nat, request: Args)

  /** One policy evaluation and its answer. */
  datatype Evaluation = Evaluation(index: nat, request: Args, answer: Result<Policy.Decision, Exn>)

  function InvocationsOf<Out>(env: Env<Out>, calls: seq<Call<Out>>): seq<Invocation> {
    if calls == [] then []
    else var c := calls[|calls| - 1];
         InvocationsOf(env, calls[..|calls| - 1])
         + match Invoked(env, c.attempt, c.arguments)
           case None => []
           case Some(request) => [Invocation(c.attempt, Number(env, c.attempt), request)]
  }

  function EvaluationsOf<Out>(env: Env<Out>, calls: seq<Call<Out>>): seq<Evaluation> {
    if calls == [] then []
    else var c := calls[|calls| - 1];
         EvaluationsOf(env, calls[..|calls| - 1])
         + match Evaluated(env, c.attempt, c.arguments)
           case None => []
           case Some(request) => [Evaluation(c.attempt, request, env.policy(c.attempt, request))]
  }

  /** The attempt the k-th executor call starts in the store: none for attempt 1, which the record
      is created with. */
  function StartedBy<Out>(env: Env<Out>, k: nat): seq<int> {
    if Number(env, k) > 1 && env.up(AtStart(k)) then [Number(env, k)] else []
  }

  /** The numbers of the recorded attempts, in order. */
  function StartedNumbers<Out>(env: Env<Out>, calls: seq<Call<Out>>): seq<int> {
    if calls == [] then [1]
    else StartedNumbers(env, calls[..|calls| - 1]) + StartedBy(env, calls[|calls| - 1].attempt)
  }

  // ----- A whole call -----

  /** The call is stored and admitted, so that it enters the guarded pipeline. */
  predicate Admitted<Out>(env: Env<Out>) {
    env.up(AtCreate) && PlaneOk(env, AtAdmission)
  }

  /** The first request is valid, recorded as such, and evaluated. */
  predicate ReachesPolicy<Out>(env: Env<Out>) {
    Admitted(env) && FirstRequest(env).Ok? && env.up(AtValidated)
  }

  /** The repair loop is entered. */
  predicate ReachesLoop<Out>(env: Env<Out>) {
    && ReachesPolicy(env)
    && var request := FirstRequest(env).value;
       var answer := env.policy(0, request);
       && answer.Ok? && env.up(AtPolicyChecked)
       && Clear(env, request, answer.value).Cleared?
       && (answer.value.outcome.RequiresApproval? ==> env.up(AtAwaiting))
  }

  /** Every handler invocation of the call, in order. */
  function Invocations<Out>(env: Env<Out>): seq<Invocation> {
    if ReachesLoop(env) then InvocationsOf(env, Looped(env, FirstRequest(env).value).calls) else []
  }

  /** Every policy evaluation of the call, in order. */
  function Evaluations<Out>(env: Env<Out>): seq<Evaluation> {
    if !ReachesPolicy(env) then []
    else var request := FirstRequest(env).value;
         [Evaluation(0, request, env.policy(0, request))]
         + if ReachesLoop(env) then EvaluationsOf(env, Looped(env, request).calls) else []
  }

  // ----- A call on a reliable store -----

  ghost predicate Reliable<Out>(env: Env<Out>) {
    forall p: StorePoint :: env.up(p)
  }

  /** The executor calls of the call. */
  function Calls<Out>(env: Env<Out>): seq<Call<Out>> {
    if ReachesLoop(env) then Looped(env, FirstRequest(env).value).calls else []
  }

  /** What the pipeline up to the repair loop's end yields. */
  function Verdict<Out>(env: Env<Out>): Result<Out, Exn> {
    match FirstRequest(env)
    case Err(x) => Err(x)
    case Ok(request) =>
      match env.policy(0, request)
      case Err(x) => Err(x)
      case Ok(d) =>
        match Clear(env, request, d)
        case Blocked(_, x) => Err(x)
        case Cleared(_) =>
          match Looped(env, request).result
          case Ok((out, _)) => Ok(out)
          case Err(x) => Err(x)
  }

  /** The client-facing error for an exception. */
  function ErrorOf(x: Exn): GatewayError {
    match x
    case Gateway(e) => e
    case Unexpected(_) => GatewayError(ToolExecutionFailed, "The tool failed unexpectedly", [])
  }

  function EndState(x: Exn): CallState {
    if IsDenial(ErrorOf(x).code) then CallState.Denied else Failed
  }

  function EndWord(x: Exn): string {
    if IsDenial(ErrorOf(x).code) then "denied" else "failed"
  }

  /** The transitions before the first attempt. */
  function Prologue<Out>(env: Env<Out>): seq<CallState> {
    match FirstRequest(env)
    case Err(_) => [Received]
    case Ok(request) =>
      match env.policy(0, request)
      case Err(_) => [Received, Validated]
      case Ok(d) =>
        [Received, Validated, PolicyChecked]
        + match Clear(env, request, d)
          case Blocked(states, _) => states
          case Cleared(approval) => if approval.Some? then [AwaitingApproval] else []
  }

  const UNSERIALISABLE := Unexpected("The output does not serialise")

  /** What the guarded pipeline ends with: the verdict, once its output has been serialised. */
  function Delivered<Out>(env: Env<Out>): Result<Out, Exn> {
    match Verdict(env)
    case Ok(out) => if env.serialises(out) then Ok(out) else Err(UNSERIALISABLE)
    case Err(x) => Err(x)
  }

  /** The transitions after the last attempt.  An output that does not serialise raises after
      the success has been recorded. */
  function Epilogue<Out>(env: Env<Out>): seq<CallState> {
    match Verdict(env)
    case Ok(out) => [Succeeded] + if env.serialises(out) then [] else [Failed]
    case Err(x) => [EndState(x)]
  }

  function Executings(n: nat): seq<CallState> {
    seq(n, _ => Executing)
  }

  /** Every transition of the call, in order. */
  function States<Out>(env: Env<Out>): seq<CallState> {
    Prologue(env) + Executings(|Calls(env)|) + Epilogue(env)
  }

  /** How an attempt that is followed by another is left: an exception that is not one of the
      gateway's own does not finish it. */
  function Mark<Out>(outcome: Result<Out, Exn>): Option<string> {
    match outcome
    case Ok(_) => Some("succeeded")
    case Err(Gateway(_)) => Some("failed")
    case Err(Unexpected(_)) => None
  }

  function Marks<Out>(calls: seq<Call<Out>>): seq<Option<string>> {
    seq(|calls|, i requires 0 <= i < |calls| => Mark(calls[i].outcome))
  }

  /** How the last attempt ends. */
  function FinalWord<Out>(env: Env<Out>): string {
    match Verdict(env)
    case Ok(out) => if env.serialises(out) then "succeeded" else "failed"
    case Err(x) => EndWord(x)
  }

  /** The outcomes of the recorded attempts; an attempt that never finished has none. */
  function Outcomes<Out>(env: Env<Out>): seq<Option<string>> {
    (if Calls(env) == [] then [] else Marks(Calls(env)[..|Calls(env)| - 1])) + [Some(FinalWord(env))]
  }

  datatype Reply<Out> = Output(out: Out) | ErrorReply(code: Code)

  function ReplyOf<Out>(env: Env<Out>): Reply<Out> {
    match Verdict(env)
    case Ok(out) => if env.serialises(out) then Output(out) else ErrorReply(ToolExecutionFailed)
    case Err(x) => ErrorReply(ErrorOf(x).code)
  }
}
