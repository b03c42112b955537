/** The lifecycle language of a call's transitions and its attempt log, on a reliable store. */
module Lifecycle {
  import opened Common
  import Policy
  import opened Repair
  import opened StateStore
  import opened Orchestrator

  // ----- The lifecycle language -----

  /** Where a lifecycle stands.  `Refused` is a denial that may be recorded once more. */
  datatype Stage =
    | Fresh | New | Valid | Checked | Waiting | Running(attempts: nat) | Refused | Ended | Illegal

  function Advance(s: Stage, to: CallState): Stage {
    match (s, to)
    case (Fresh, Received) => New
    case (New, Validated) => Valid
    case (Valid, PolicyChecked) => Checked
    case (Checked, AwaitingApproval) => Waiting
    case (Checked, Executing) => Running(1)
    case (Waiting, Executing) => Running(1)
    case (Running(n), Executing) => if n < 3 then Running(n + 1) else Illegal
    case (Running(_), Succeeded) => Ended
    case (Checked, Denied) => Refused
    case (Waiting, Denied) => Refused
    case (Refused, Denied) => Ended
    case (New, Denied) => Ended
    case (Valid, Denied) => Ended
    case (Running(_), Denied) => Ended
    case (New, Failed) => Ended
    case (Valid, Failed) => Ended
    case (Checked, Failed) => Ended
    case (Waiting, Failed) => Ended
    case (Running(_), Failed) => Ended
    case _ => Illegal
  }

  function StageAfter(states: seq<CallState>): Stage {
    if states == [] then Fresh else Advance(StageAfter(states[..|states| - 1]), states[|states| - 1])
  }

  /** RECEIVED, then a prefix of VALIDATED, POLICY_CHECKED and optionally AWAITING_APPROVAL, then
      at most three EXECUTING, then one terminal state, or DENIED twice. */
  predicate InLanguage(states: seq<CallState>) {
    StageAfter(states) in {Refused, Ended}
  }

  /** The transitions that lead to a stage, written out. */
  ghost predicate LeadsTo(states: seq<CallState>, stage: Stage) {
    var checked := [Received, Validated, PolicyChecked];
    match stage
    case Fresh => states == []
    case New => states == [Received]
    case Valid => states == [Received, Validated]
    case Checked => states == checked
    case Waiting => states == checked + [AwaitingApproval]
    case Running(n) =>
      1 <= n <= 3 && (states == checked + Executings(n) || states == checked + [AwaitingApproval] + Executings(n))
    case Refused => IsRefused(states)
    case Ended => IsFinished(states)
    case Illegal => true
  }

  /** A denial before execution, written out. */
  predicate IsRefused(states: seq<CallState>) {
    var checked := [Received, Validated, PolicyChecked];
    states == checked + [CallState.Denied] || states == checked + [AwaitingApproval] + [CallState.Denied]
  }

  /** One terminal state before the policy has decided. */
  predicate EndsEarly(states: seq<CallState>) {
    || states == [Received] + [Failed] || states == [Received] + [CallState.Denied]
    || states == [Received, Validated] + [Failed] || states == [Received, Validated] + [CallState.Denied]
  }

  /** One terminal state, or DENIED twice, before anything was executed. */
  predicate EndsBlocked(states: seq<CallState>) {
    var checked := [Received, Validated, PolicyChecked];
    || states == checked + [Failed] || states == checked + [AwaitingApproval] + [Failed]
    || states == checked + [CallState.Denied] + [CallState.Denied]
    || states == checked + [AwaitingApproval] + [CallState.Denied] + [CallState.Denied]
  }

  /** One terminal state after `n` EXECUTING, with or without an approval. */
  predicate EndsExecuted(states: seq<CallState>, n: nat, end: CallState) {
    var checked := [Received, Validated, PolicyChecked];
    && 1 <= n <= 3 && end in {Succeeded, Failed, CallState.Denied}
    && (states == checked + Executings(n) + [end] || states == checked + [AwaitingApproval] + Executings(n) + [end])
  }

  /** A finished lifecycle, written out. */
  ghost predicate IsFinished(states: seq<CallState>) {
    EndsEarly(states) || EndsBlocked(states) || exists n: nat, end :: EndsExecuted(states, n, end)
  }

  lemma StageStep(states: seq<CallState>, to: CallState)
    ensures StageAfter(states + [to]) == Advance(StageAfter(states), to)
  {
    assert (states + [to])[..|states|] == states;
  }

  lemma {:induction false} StageExecutings(states: seq<CallState>, n: nat)
    requires n <= 3 && StageAfter(states) in {Checked, Waiting}
    ensures StageAfter(states + Executings(n)) == if n == 0 then StageAfter(states) else Running(n)
  {
    if n == 0 {
      assert states + Executings(0) == states;
    } else {
      StageExecutings(states, n - 1);
      StageStep(states + Executings(n - 1), Executing);
      assert states + Executings(n) == states + Executings(n - 1) + [Executing];
    }
  }

  lemma ShortStages()
    ensures StageAfter([Received]) == New
    ensures StageAfter([Received, Validated]) == Valid
    ensures StageAfter([Received, Validated, PolicyChecked]) == Checked
    ensures StageAfter([Received, Validated, PolicyChecked, AwaitingApproval]) == Waiting
    ensures StageAfter([Received, Validated, PolicyChecked, CallState.Denied]) == Refused
    ensures StageAfter([Received, Validated, PolicyChecked, AwaitingApproval, CallState.Denied]) == Refused
  {
    var checked := [Received, Validated, PolicyChecked];
    StageStep([], Received);
    StageStep([Received], Validated);
    StageStep([Received, Validated], PolicyChecked);
    StageStep(checked, AwaitingApproval);
    StageStep(checked, CallState.Denied);
    StageStep(checked + [AwaitingApproval], CallState.Denied);
    assert [] + [Received] == [Received] && [Received] + [Validated] == [Received, Validated];
    assert [Received, Validated] + [PolicyChecked] == checked;
    assert checked + [AwaitingApproval] == [Received, Validated, PolicyChecked, AwaitingApproval];
    assert checked + [CallState.Denied] == [Received, Validated, PolicyChecked, CallState.Denied];
    assert checked + [AwaitingApproval] + [CallState.Denied]
        == [Received, Validated, PolicyChecked, AwaitingApproval, CallState.Denied];
    hide StageAfter;
  }

  lemma AdvanceMeans(states: seq<CallState>, stage: Stage, to: CallState)
    requires LeadsTo(states, stage)
    ensures LeadsTo(states + [to], Advance(stage, to))
  {
    var checked := [Received, Validated, PolicyChecked];
    if stage.Running? {
      var n := stage.attempts;
      if to.Executing? {
        var waiting := checked + [AwaitingApproval];
        assert Executings(n + 1) == Executings(n) + [Executing];
        assert checked + Executings(n) + [Executing] == checked + Executings(n + 1);
        assert waiting + Executings(n) + [Executing] == waiting + Executings(n + 1);
      } else if Advance(stage, to).Ended? {
        assert EndsExecuted(states + [to], n, to);
      }
    } else {
      assert Executings(1) == [Executing];
    }
  }

  lemma {:induction false} StageMeans(states: seq<CallState>)
    ensures LeadsTo(states, StageAfter(states))
  {
    if states != [] {
      var before, last := states[..|states| - 1], states[|states| - 1];
      StageMeans(before);
      AdvanceMeans(before, StageAfter(before), last);
      hide LeadsTo, Advance;
      assert states == before + [last];
    }
  }

  lemma PrefixStages()
    ensures var checked := [Received, Validated, PolicyChecked];
            && StageAfter(checked) == Checked && StageAfter(checked + [AwaitingApproval]) == Waiting
            && StageAfter(checked + [CallState.Denied]) == Refused
            && StageAfter(checked + [AwaitingApproval] + [CallState.Denied]) == Refused
  {
    ShortStages();
    StageStep([Received, Validated, PolicyChecked], AwaitingApproval);
    StageStep([Received, Validated, PolicyChecked], CallState.Denied);
    StageStep([Received, Validated, PolicyChecked] + [AwaitingApproval], CallState.Denied);
    hide StageAfter;
  }

  lemma EarlyEnds(states: seq<CallState>)
    requires EndsEarly(states)
    ensures StageAfter(states).Ended?
  {
    ShortStages();
    StageStep([Received], states[|states| - 1]);
    StageStep([Received, Validated], states[|states| - 1]);
    hide StageAfter;
  }

  lemma BlockedEnds(states: seq<CallState>)
    requires EndsBlocked(states)
    ensures StageAfter(states).Ended?
  {
    PrefixStages();
    hide StageAfter;
    var checked := [Received, Validated, PolicyChecked];
    StageStep(checked, Failed);
    StageStep(checked + [AwaitingApproval], Failed);
    StageStep(checked + [CallState.Denied], CallState.Denied);
    StageStep(checked + [AwaitingApproval] + [CallState.Denied], CallState.Denied);
  }

  lemma ExecutedEnds(states: seq<CallState>, n: nat, end: CallState)
    requires EndsExecuted(states, n, end)
    ensures StageAfter(states).Ended?
  {
    PrefixStages();
    hide StageAfter;
    var checked := [Received, Validated, PolicyChecked];
    StageExecutings(checked, n);
    StageExecutings(checked + [AwaitingApproval], n);
    StageStep(checked + Executings(n), end);
    StageStep(checked + [AwaitingApproval] + Executings(n), end);
    hide Executings;
  }

  lemma FinishedEnds(states: seq<CallState>)
    requires IsFinished(states)
    ensures StageAfter(states).Ended?
  {
    hide EndsEarly, EndsBlocked, EndsExecuted, StageAfter;
    if EndsEarly(states) {
      EarlyEnds(states);
    } else if EndsBlocked(states) {
      BlockedEnds(states);
    } else {
      var n: nat, end :| EndsExecuted(states, n, end);
      ExecutedEnds(states, n, end);
    }
  }

  /** The language, written out. */
  lemma LanguageExactly(states: seq<CallState>)
    ensures InLanguage(states) <==> IsFinished(states) || IsRefused(states)
  {
    StageMeans(states);
    ShortStages();
    if IsFinished(states) {
      FinishedEnds(states);
    }
    if IsRefused(states) {
      RefusedStage(states);
    }
    hide StageAfter, IsFinished, IsRefused;
  }

  lemma RefusedStage(states: seq<CallState>)
    requires IsRefused(states)
    ensures StageAfter(states).Refused?
  {
    PrefixStages();
    hide StageAfter;
  }

  /** The stage at which a call that never enters the loop, or has just entered it, stands. */
  lemma PrologueStage<Out>(env: Env<Out>)
    requires Reliable(env) && Admitted(env)
    ensures StageAfter(Prologue(env)) in {New, Valid, Checked, Waiting, Refused}
    ensures ReachesLoop(env) ==> StageAfter(Prologue(env)) in {Checked, Waiting}
    ensures StageAfter(Prologue(env)).Refused? ==> Verdict(env).Err? && IsDenial(ErrorOf(Verdict(env).error).code)
    ensures !ReachesLoop(env) ==> Verdict(env).Err?
  {
    ShortStages();
    hide StageAfter;
    var prefix := [Received, Validated, PolicyChecked];
    assert prefix + [] == prefix;
    assert prefix + [AwaitingApproval] == [Received, Validated, PolicyChecked, AwaitingApproval];
    assert prefix + [CallState.Denied] == [Received, Validated, PolicyChecked, CallState.Denied];
    assert prefix + [AwaitingApproval, CallState.Denied]
        == [Received, Validated, PolicyChecked, AwaitingApproval, CallState.Denied];
  }

  lemma CallsFit<Out>(env: Env<Out>)
    ensures |Calls(env)| <= 3
    ensures ReachesLoop(env) <==> Calls(env) != []
    ensures ReachesLoop(env) && Verdict(env).Ok? ==> Calls(env)[|Calls(env)| - 1].outcome == Ok(Verdict(env).value)
    ensures ReachesLoop(env) && Verdict(env).Err? ==> forall i | 0 <= i < |Calls(env)| :: Calls(env)[i].outcome.Err?
    ensures forall i | 0 <= i < |Calls(env)| - 1 :: Calls(env)[i].outcome.Err?
  {
    if ReachesLoop(env) {
      CallsAreBounded(STANDARD, LoopContext(env), LoopWorld(env), FirstRequest(env).value, 0.0);
    }
  }

  lemma MainStage<Out>(env: Env<Out>)
    requires Reliable(env) && Admitted(env)
    ensures var states := Prologue(env) + Executings(|Calls(env)|);
            StageAfter(states) == if ReachesLoop(env) then Running(|Calls(env)|) else StageAfter(Prologue(env))
  {
    PrologueStage(env);
    CallsFit(env);
    if ReachesLoop(env) {
      StageExecutings(Prologue(env), |Calls(env)|);
    } else {
      assert Prologue(env) + Executings(0) == Prologue(env);
    }
  }

  lemma EpilogueStage<Out>(env: Env<Out>, main: seq<CallState>)
    requires var s := StageAfter(main);
             if Verdict(env).Ok? then s.Running?
             else || s in {New, Valid, Checked, Waiting} || s.Running?
                  || (s.Refused? && IsDenial(ErrorOf(Verdict(env).error).code))
    ensures InLanguage(main + Epilogue(env)) <==> !(Verdict(env).Ok? && !env.serialises(Verdict(env).value))
  {
    hide Verdict, StageAfter;
    var end := Epilogue(env);
    StageStep(main, end[0]);
    if |end| == 1 {
      assert main + end == main + [end[0]];
    } else {
      StageStep(main + [Succeeded], Failed);
      assert main + end == main + [Succeeded] + [Failed];
    }
  }

  /** Every call's transitions are in the lifecycle language, except exactly those whose handler
      succeeded with an output that does not serialise: FAILED then follows SUCCEEDED. */
  lemma LifecycleLanguage<Out>(env: Env<Out>)
    requires Reliable(env) && Admitted(env)
    ensures InLanguage(States(env)) <==> !(Verdict(env).Ok? && !env.serialises(Verdict(env).value))
  {
    MainStage(env);
    PrologueStage(env);
    EpilogueStage(env, Prologue(env) + Executings(|Calls(env)|));
    hide StageAfter, Calls, Prologue, ReachesLoop, Verdict, Executings, Epilogue, InLanguage;
  }

  /** What the terminal state tells the client: SUCCEEDED exactly with an output, and DENIED
      exactly with one of the four denial codes. */
  lemma TerminalStateMatchesReply<Out>(env: Env<Out>)
    ensures States(env) != []
    ensures var last := States(env)[|States(env)| - 1]; var reply := ReplyOf(env);
            && (last.Succeeded? <==> reply.Output?)
            && (last.Denied? <==>
                  && reply.ErrorReply?
                  && reply.code in {PolicyDenied, PolicyUnavailable, ApprovalTimeout, ApprovalRejected})
            && (last.Failed? <==>
                  && reply.ErrorReply?
                  && reply.code !in {PolicyDenied, PolicyUnavailable, ApprovalTimeout, ApprovalRejected})
  {
    hide Prologue, Verdict, Calls;
  }

  lemma PrologueHasNoSuccess<Out>(env: Env<Out>)
    ensures Succeeded !in Prologue(env)
  {
    hide FirstRequest, WaitOutcome;
  }

  /** SUCCEEDED is recorded only for an output that the last executor call returned. */
  lemma SuccessIsExecuted<Out>(env: Env<Out>)
    requires Reliable(env) && Admitted(env) && Succeeded in States(env)
    ensures Calls(env) != [] && Verdict(env).Ok?
    ensures Calls(env)[|Calls(env)| - 1].outcome == Ok(Verdict(env).value)
    ensures Executing in States(env)
  {
    PrologueStage(env);
    PrologueHasNoSuccess(env);
    CallsFit(env);
    hide StageAfter, Prologue, Verdict, Calls, ReachesLoop;
    var n := |Prologue(env)|;
    assert Succeeded in Prologue(env) || Succeeded in Executings(|Calls(env)|) || Succeeded in Epilogue(env);
    assert States(env)[n] == (Executings(|Calls(env)|) + Epilogue(env))[0];
  }

  // ----- The attempt log -----

  /** On a reliable store the k-th executor call is attempt k. */
  lemma {:induction false} NumbersAgree<Out>(env: Env<Out>, k: nat)
    requires Reliable(env)
    ensures Number(env, k) == Max(1, k) && Entered(env, k)
  {
    if k > 1 {
      NumbersAgree(env, k - 1);
    }
  }

  /** An executor call that failed with an exception other than the gateway's own, and was
      followed by another. */
  predicate Abandoned<Out>(calls: seq<Call<Out>>, i: nat)
    requires i < |calls|
  {
    i < |calls| - 1 && calls[i].outcome.Err? && calls[i].outcome.error.Unexpected?
  }

  /** The attempt log agrees with the call: one attempt for each executor call, or one if there
      was none; each finished exactly unless it was abandoned; and "succeeded" only for the
      last, exactly when the last state is SUCCEEDED. */
  lemma AttemptLogAgrees<Out>(env: Env<Out>)
    requires Reliable(env) && Admitted(env)
    ensures var log := Outcomes(env); var n := |log|;
            && n == Max(1, |Calls(env)|)
            && (forall i | 0 <= i < |Calls(env)| :: log[i].None? <==> Abandoned(Calls(env), i))
            && (forall i | 0 <= i < n - 1 :: log[i] == None || log[i] == Some("failed"))
            && (log[n - 1] == Some("succeeded") <==> States(env)[|States(env)| - 1].Succeeded?)
            && (log[n - 1] == Some("denied") <==> States(env)[|States(env)| - 1].Denied?)
            && (log[n - 1] == Some("failed") <==> States(env)[|States(env)| - 1].Failed?)
  {
    CallsFit(env);
    hide Calls, Prologue, Verdict, ReachesLoop;
  }

  // ----- Attempt numbers on any store -----

  predicate AllDistinct(numbers: seq<int>) {
    forall i, j | 0 <= i < j < |numbers| :: numbers[i] != numbers[j]
  }

  /** The second executor call starts attempt 2 but loses its EXECUTING write, and the third
      starts an attempt again. */
  predicate RepeatsNumber<Out>(env: Env<Out>) {
    && |Calls(env)| == 3
    && env.up(AtExecuting(1)) && env.up(AtStart(2)) && !env.up(AtExecuting(2)) && env.up(AtStart(3))
  }

  lemma UnfoldNumbers<Out>(env: Env<Out>)
    ensures Number(env, 1) == 1
    ensures Number(env, 2) == 1 + if Entered(env, 1) then 1 else 0
    ensures Number(env, 3) == Number(env, 2) + if Entered(env, 2) then 1 else 0
    ensures Entered(env, 1) <==> env.up(AtExecuting(1))
    ensures Entered(env, 2) <==> (Number(env, 2) > 1 ==> env.up(AtStart(2))) && env.up(AtExecuting(2))
  {
  }

  lemma StartedStep<Out>(env: Env<Out>, calls: seq<Call<Out>>, n: nat)
    requires n < |calls| && calls[n].attempt == n + 1
    ensures StartedNumbers(env, calls[..n + 1]) == StartedNumbers(env, calls[..n]) + StartedBy(env, n + 1)
  {
    assert calls[..n + 1][..n] == calls[..n];
  }

  /** The numbers of a call's attempts, one executor call after another. */
  lemma NumbersUnfold<Out>(env: Env<Out>, calls: seq<Call<Out>>)
    requires |calls| <= 3 && forall i | 0 <= i < |calls| :: calls[i].attempt == i + 1
    ensures StartedNumbers(env, calls) == [1]
                                          + (if |calls| >= 2 then StartedBy(env, 2) else [])
                                          + (if |calls| >= 3 then StartedBy(env, 3) else [])
  {
    assert StartedBy(env, 1) == [];
    hide StartedBy;
    assert calls[..0] == [] && calls[..|calls|] == calls;
    if |calls| >= 1 { StartedStep(env, calls, 0); }
    if |calls| >= 2 { StartedStep(env, calls, 1); }
    if |calls| >= 3 { StartedStep(env, calls, 2); }
  }

  /** On any store, the recorded attempts have distinct numbers exactly when the call does not do
      that. */
  lemma NumbersRepeatExactly<Out>(env: Env<Out>)
    ensures AllDistinct(StartedNumbers(env, Calls(env))) <==> !RepeatsNumber(env)
  {
    var calls := Calls(env);
    if ReachesLoop(env) {
      CallsAreBounded(STANDARD, LoopContext(env), LoopWorld(env), FirstRequest(env).value, 0.0);
    }
    hide Calls, ReachesLoop, StartedNumbers;
    NumbersUnfold(env, calls);
    UnfoldNumbers(env);
    hide Number, Entered;
    var numbers := StartedNumbers(env, calls);
    if RepeatsNumber(env) {
      assert numbers == [1, 2, 2];
      assert numbers[1] == numbers[2];
    }
  }

  // ----- Where the code falls short -----

  const REQUEST: Args := map[]

  /** A call of a read-only tool that everything around it lets through: a reliable store, a
      policy that allows, a model that proposes the same request again, and an audit logger. */
  function OpenEnv(handler: (nat, Args) -> Result<(), Exn>, serialises: () -> bool): Env<()> {
    Env("call", "session", "tool", REQUEST, Some(Definition(ReadOnly, true)),
        (a: Args) => Ok(a),
        (k: nat, a: Args) => Ok(Policy.Decision(Policy.Allow, "", "")),
        Some((k: nat, a: Args, c: Category) => Ok(a)),
        None,
        handler,
        _ => 0.0, _ => 0.0, _ => 0.0,
        _ => true, (n: nat) => n, Some(_ => true), None, (_: ()) => serialises())
  }

  lemma OpenEnvReachesLoop(handler: (nat, Args) -> Result<(), Exn>, serialises: () -> bool)
    ensures var env := OpenEnv(handler, serialises);
            && Reliable(env) && Admitted(env) && ReachesLoop(env) && FirstRequest(env) == Ok(REQUEST)
            && Prologue(env) == [Received, Validated, PolicyChecked]
            && Number(env, 1) == 1 && Number(env, 2) == 2
            && CallResult(env, 1, REQUEST) == handler(1, REQUEST)
            && CallResult(env, 2, REQUEST) == handler(2, REQUEST)
  {
    var env := OpenEnv(handler, serialises);
    NumbersAgree(env, 1);
    NumbersAgree(env, 2);
  }

  /** Such a call: its handler succeeds with an output that does not serialise. */
  lemma FailedFollowsSucceeded()
    ensures var env := OpenEnv((_, _) => Ok(()), () => false);
            && Reliable(env) && Admitted(env)
            && States(env) == [Received, Validated, PolicyChecked, Executing, Succeeded, Failed]
            && !InLanguage(States(env))
            && Verdict(env) == Ok(()) && FinalWord(env) == "failed"
  {
    var handler: (nat, Args) -> Result<(), Exn> := (_, _) => Ok(());
    var env := OpenEnv(handler, () => false);
    OpenEnvReachesLoop(handler, () => false);
    LoopUnfolds(STANDARD, LoopContext(env), LoopWorld(env), 1, REQUEST, 0.0, 0.0);
    assert |Calls(env)| == 1 && Verdict(env) == Ok(());
    LifecycleLanguage(env);
  }

  /** A handler that fails with an exception of its own the first time and then succeeds. */
  function StumblingHandler(): (nat, Args) -> Result<(), Exn> {
    (k, _) => if k == 1 then Err(Unexpected("first")) else Ok(())
  }

  /** Its first attempt never finishes, although the call succeeds. */
  lemma AbandonedAttemptStaysOpen()
    ensures var env := OpenEnv(StumblingHandler(), () => true);
            && Reliable(env) && Admitted(env)
            && Outcomes(env) == [None, Some("succeeded")]
            && States(env)[|States(env)| - 1] == Succeeded
  {
    var env := OpenEnv(StumblingHandler(), () => true);
    OpenEnvReachesLoop(StumblingHandler(), () => true);
    var ctx, w := LoopContext(env), LoopWorld(env);
    var e := Unexpected("first");
    assert BaseDelay(STANDARD, 1) == 0.25;
    assert AfterFailure(STANDARD, ctx, w, 1, REQUEST, e, 0.0, 0.0) == Again(REQUEST, 0.25);
    LoopUnfolds(STANDARD, ctx, w, 1, REQUEST, 0.0, 0.0);
    LoopUnfolds(STANDARD, ctx, w, 2, REQUEST, 0.25, 0.0);
    assert Calls(env) == [Call(1, REQUEST, 0.0, Err(e)), Call(2, REQUEST, 0.25, Ok(()))];
    assert Verdict(env) == Ok(());
    assert Outcomes(env) == [None, Some("succeeded")];
  }

  /** The stumbling handler on a store that loses the second EXECUTING write alone. */
  function RepeatingEnv(): Env<()> {
    OpenEnv(StumblingHandler(), () => true).(up := p => p != AtExecuting(2))
  }

  lemma RepeatingRetries()
    ensures var env := RepeatingEnv(); var ctx, w := LoopContext(env), LoopWorld(env);
            && AfterFailure(STANDARD, ctx, w, 1, REQUEST, Unexpected("first"), 0.0, 0.0) == Again(REQUEST, 0.25)
            && AfterFailure(STANDARD, ctx, w, 2, REQUEST, STORE_DOWN, 0.25, 0.0) == Again(REQUEST, 0.75)
  {
    assert BaseDelay(STANDARD, 1) == 0.25 && BaseDelay(STANDARD, 2) == 0.5 by {
      assert Pow2(1) == 2.0;
    }
  }

  lemma RepeatingOutcomes()
    ensures var env := RepeatingEnv(); var w := LoopWorld(env);
            && ReachesLoop(env) && FirstRequest(env) == Ok(REQUEST)
            && w.execute(1, REQUEST) == Err(Unexpected("first")) && w.execute(2, REQUEST) == Err(STORE_DOWN)
            && w.execute(3, REQUEST).Ok?
            && w.executeTime(1) == 0.0 && w.executeTime(2) == 0.0
  {
    UnfoldNumbers(RepeatingEnv());
  }

  /** Its attempt 2 is recorded twice. */
  lemma AttemptNumberRepeats()
    ensures var env := RepeatingEnv();
            RepeatsNumber(env) && StartedNumbers(env, Calls(env)) == [1, 2, 2]
  {
    var env := RepeatingEnv();
    var ctx, w := LoopContext(env), LoopWorld(env);
    UnfoldNumbers(env);
    RepeatingRetries();
    RepeatingOutcomes();
    CallsAreBounded(STANDARD, ctx, w, REQUEST, 0.0);
    hide AfterFailure, Loop, LoopWorld, LoopContext, ReachesLoop, FirstRequest, Number, Entered, StartedNumbers;
    LoopUnfolds(STANDARD, ctx, w, 1, REQUEST, 0.0, 0.0);
    LoopUnfolds(STANDARD, ctx, w, 2, REQUEST, 0.25, 0.0);
    LoopUnfolds(STANDARD, ctx, w, 3, REQUEST, 0.75, 0.0);
    assert |Calls(env)| == 3;
    NumbersUnfold(env, Calls(env));
  }
}
