/** gateway/repair/: failure diagnosis, backoff, and the bounded repair loop. */
module Repair {
  import opened Common

  // ----- diagnose.py -----

  datatype Category =
    | SchemaMismatch
    | MalformedJson
    | MissingRequiredField
    | TypeCoercion
    | Timeout
    | SandboxCrashed
    | Denied
    | ToolError

  predicate AnyContains(texts: seq<string>, part: string) {
    exists i | 0 <= i < |texts| :: Contains(texts[i], part)
  }

  function Diagnose(e: Exn): Category {
    match e
    case Unexpected(_) => ToolError
    case Gateway(error) =>
      if IsDenial(error.code) then Denied
      else if error.code.SchemaValidation? then
        (if AnyContains(error.issueTypes, "missing") then MissingRequiredField
         else if AnyContains(error.issueTypes, "json") then MalformedJson
         else if AnyContains(error.issueTypes, "type") then TypeCoercion
         else SchemaMismatch)
      else if error.code.SandboxTimeout? then Timeout
      else if error.code.SandboxCrash? then SandboxCrashed
      else ToolError
  }

  /** Failures after which the same arguments are tried again. */
  predicate Transient(c: Category) {
    c.Timeout? || c.SandboxCrashed?
  }

  /** A handler that may have been cut off while it ran. */
  predicate Interrupted(e: Exn) {
    e.Gateway? && e.error.code in {SandboxTimeout, SandboxCrash}
  }

  /** A refusal by the policy or by an approver. */
  predicate Refusal(e: Exn) {
    e.Gateway? && e.error.code in {PolicyDenied, PolicyUnavailable, ApprovalTimeout, ApprovalRejected}
  }

  /** Some issue type of a schema error contains this text. */
  predicate Mentions(e: Exn, part: string) {
    e.Gateway? && exists i | 0 <= i < |e.error.issueTypes| :: Contains(e.error.issueTypes[i], part)
  }

  /** Every category, by the error's code and issue types. */
  lemma DiagnosisExactly(e: Exn)
    ensures var c := Diagnose(e); var schema := e.Gateway? && e.error.code.SchemaValidation?;
            && (c.Denied? <==> Refusal(e))
            && (c.Timeout? <==> e.Gateway? && e.error.code.SandboxTimeout?)
            && (c.SandboxCrashed? <==> e.Gateway? && e.error.code.SandboxCrash?)
            && (c.MissingRequiredField? <==> schema && Mentions(e, "missing"))
            && (c.MalformedJson? <==> schema && !Mentions(e, "missing") && Mentions(e, "json"))
            && (c.TypeCoercion? <==> schema && !Mentions(e, "missing") && !Mentions(e, "json") && Mentions(e, "type"))
            && (c.SchemaMismatch? <==>
                  schema && !Mentions(e, "missing") && !Mentions(e, "json") && !Mentions(e, "type"))
            && (c.ToolError? <==>
                  e.Unexpected? || e.error.code in {ToolNotFound, ToolNotEnabled, ToolExecutionFailed, NeedsReview,
                                                    StateStoreUnavailable})
            && (Transient(c) <==> Interrupted(e))
  {
    if e.Gateway? {
      assert forall part: string :: AnyContains(e.error.issueTypes, part) <==> Mentions(e, part);
      hide AnyContains, Mentions;
    }
  }

  // ----- backoff.py -----

  datatype Backoff = Backoff(maxAttempts: int, baseSeconds: real, maxSeconds: real, maxTotalSeconds: real,
                             jitterRatio: real)

  const STANDARD := Backoff(3, 0.25, 5.0, 30.0, 0.2)

  function Pow2(n: nat): (p: real)
    ensures p >= 1.0
  {
    if n == 0 then 1.0 else 2.0 * Pow2(n - 1)
  }

  function MinReal(a: real, b: real): real {
    if a <= b then a else b
  }

  /** The capped exponential base of the delay before retry `n`. */
  function BaseDelay(b: Backoff, n: nat): real
    requires n >= 1
  {
    MinReal(b.maxSeconds, b.baseSeconds * Pow2(n - 1))
  }

  /** How far a draw can move the delay from its base. */
  function Spread(b: Backoff, n: nat): real
    requires n >= 1
  {
    BaseDelay(b, n) * b.jitterRatio
  }

  function Jitter(b: Backoff, n: nat, u: real): real
    requires n >= 1
  {
    Spread(b, n) * u
  }

  /** The delay, for a draw `u` of the random source. */
  function Delay(b: Backoff, n: nat, u: real): real
    requires n >= 1
  {
    var jittered := BaseDelay(b, n) + Jitter(b, n, u);
    if jittered >= 0.0 then jittered else 0.0
  }

  predicate Sane(b: Backoff) {
    b.baseSeconds >= 0.0 && b.maxSeconds >= 0.0 && b.jitterRatio >= 0.0
  }

  lemma ProductGrows(x: real, y: real, z: real)
    requires x <= y && z >= 0.0
    ensures x * z <= y * z
  {
  }

  /** The base is non-negative, capped, and never decreases from one retry to the next. */
  lemma BaseDelayGrows(b: Backoff, n: nat)
    requires Sane(b) && n >= 1
    ensures 0.0 <= BaseDelay(b, n) <= BaseDelay(b, n + 1) <= b.maxSeconds
  {
    var p := b.baseSeconds * Pow2(n - 1);
    ProductGrows(0.0, b.baseSeconds, Pow2(n - 1));
    assert b.baseSeconds * Pow2(n) == b.baseSeconds * (2.0 * Pow2(n - 1)) == 2.0 * p;
  }

  /** The first base is the configured one, capped, and each is twice the one before, capped. */
  lemma BaseDelayDoubles(b: Backoff, n: nat)
    requires Sane(b) && n >= 1
    ensures BaseDelay(b, 1) == if b.baseSeconds <= b.maxSeconds then b.baseSeconds else b.maxSeconds
    ensures BaseDelay(b, n + 1)
            == if 2.0 * BaseDelay(b, n) <= b.maxSeconds then 2.0 * BaseDelay(b, n) else b.maxSeconds
  {
    var p := b.baseSeconds * Pow2(n - 1);
    ProductGrows(0.0, b.baseSeconds, Pow2(n - 1));
    assert Pow2(1 - 1) == 1.0;
    assert b.baseSeconds * Pow2(n) == b.baseSeconds * (2.0 * Pow2(n - 1)) == 2.0 * p;
  }

  lemma ScaledDown(x: real, r: real)
    requires x >= 0.0 && r <= 1.0
    ensures x * r <= x
  {
    var rest := 1.0 - r;
    assert x * rest >= 0.0;
    assert x * r + x * rest == x * (r + rest);
  }

  lemma ScaledUp(x: real, r: real)
    requires x >= 0.0 && r >= -1.0
    ensures -x <= x * r
  {
    var rest := 1.0 + r;
    assert x * rest >= 0.0;
    assert x * rest == x + x * r;
  }

  lemma CappedSpread(raw: real, cap: real, ratio: real)
    requires 0.0 <= raw <= cap && ratio >= 0.0
    ensures 0.0 <= raw * ratio && raw + raw * ratio <= cap * (1.0 + ratio)
  {
    ProductGrows(0.0, raw, ratio);
    ProductGrows(raw, cap, ratio);
    assert cap * (1.0 + ratio) == cap + cap * ratio;
  }

  lemma SpreadIsPositive(b: Backoff, n: nat)
    requires n >= 1 && BaseDelay(b, n) >= 0.0 && b.jitterRatio >= 0.0
    ensures 0.0 <= Spread(b, n)
  {
    hide BaseDelay;
    ProductGrows(0.0, BaseDelay(b, n), b.jitterRatio);
  }

  lemma SpreadIsCapped(b: Backoff, n: nat)
    requires n >= 1 && 0.0 <= BaseDelay(b, n) <= b.maxSeconds && b.jitterRatio >= 0.0
    ensures BaseDelay(b, n) + Spread(b, n) <= b.maxSeconds * (1.0 + b.jitterRatio)
  {
    hide BaseDelay;
    CappedSpread(BaseDelay(b, n), b.maxSeconds, b.jitterRatio);
  }

  lemma SpreadFits(b: Backoff, n: nat)
    requires n >= 1 && BaseDelay(b, n) >= 0.0 && b.jitterRatio <= 1.0
    ensures Spread(b, n) <= BaseDelay(b, n)
  {
    hide BaseDelay;
    ScaledDown(BaseDelay(b, n), b.jitterRatio);
  }

  lemma JitterIsBounded(b: Backoff, n: nat, u: real)
    requires n >= 1 && Spread(b, n) >= 0.0 && -1.0 <= u <= 1.0
    ensures -Spread(b, n) <= Jitter(b, n, u) <= Spread(b, n)
  {
    JitterIsLow(b, n, u);
    JitterIsHigh(b, n, u);
    hide Jitter;
  }

  lemma JitterIsHigh(b: Backoff, n: nat, u: real)
    requires n >= 1 && Spread(b, n) >= 0.0 && u <= 1.0
    ensures Jitter(b, n, u) <= Spread(b, n)
  {
    hide Spread;
    ScaledDown(Spread(b, n), u);
  }

  lemma JitterIsLow(b: Backoff, n: nat, u: real)
    requires n >= 1 && Spread(b, n) >= 0.0 && u >= -1.0
    ensures -Spread(b, n) <= Jitter(b, n, u)
  {
    hide Spread;
    ScaledUp(Spread(b, n), u);
  }

  lemma JitterAtEnds(b: Backoff, n: nat)
    requires n >= 1
    ensures Jitter(b, n, 0.0) == 0.0 && Jitter(b, n, 1.0) == Spread(b, n) && Jitter(b, n, -1.0) == -Spread(b, n)
  {
    hide Spread;
  }

  /** Delays are non-negative, differ from their base by at most the jitter ratio of it, and exceed
      the cap by at most the jitter ratio of that. */
  lemma DelayIsBounded(b: Backoff, n: nat, u: real)
    requires Sane(b) && n >= 1 && -1.0 <= u <= 1.0
    ensures 0.0 <= Delay(b, n, u) <= b.maxSeconds * (1.0 + b.jitterRatio)
    ensures BaseDelay(b, n) - BaseDelay(b, n) * b.jitterRatio <= Delay(b, n, u)
            <= BaseDelay(b, n) + BaseDelay(b, n) * b.jitterRatio
  {
    BaseDelayGrows(b, n);
    SpreadIsPositive(b, n);
    SpreadIsCapped(b, n);
    JitterIsBounded(b, n, u);
    SpreadMeans(b, n);
    hide BaseDelay, Spread, Jitter;
  }

  lemma SpreadMeans(b: Backoff, n: nat)
    requires n >= 1
    ensures Spread(b, n) == BaseDelay(b, n) * b.jitterRatio
  {
  }

  /** A draw in the middle is the base, and the highest and lowest draws reach both ends. */
  lemma DelaySpreads(b: Backoff, n: nat)
    requires Sane(b) && n >= 1
    ensures Delay(b, n, 0.0) == BaseDelay(b, n)
    ensures Delay(b, n, 1.0) == BaseDelay(b, n) + BaseDelay(b, n) * b.jitterRatio
    ensures b.jitterRatio <= 1.0 ==> Delay(b, n, -1.0) == BaseDelay(b, n) - BaseDelay(b, n) * b.jitterRatio
  {
    BaseDelayGrows(b, n);
    SpreadIsPositive(b, n);
    if b.jitterRatio <= 1.0 { SpreadFits(b, n); }
    JitterAtEnds(b, n);
    SpreadMeans(b, n);
    hide BaseDelay, Spread, Jitter;
  }

  /** The gateway's own backoff: three attempts within thirty seconds, delays of a quarter and half
      a second before jitter, and never more than six seconds. */
  lemma StandardBackoff(n: nat, u: real)
    requires n >= 1 && -1.0 <= u <= 1.0
    ensures STANDARD.maxAttempts == 3 && STANDARD.maxTotalSeconds == 30.0
    ensures BaseDelay(STANDARD, 1) == 0.25 && BaseDelay(STANDARD, 2) == 0.5
    ensures 0.0 <= Delay(STANDARD, n, u) <= 6.0 && Delay(STANDARD, 6, 1.0) == 6.0
  {
    assert Pow2(1) == 2.0 && Pow2(5) == 32.0;
    DelayIsBounded(STANDARD, n, u);
    DelaySpreads(STANDARD, 6);
    hide Delay;
  }

  // ----- loop.py -----

  datatype Context = Context(risk: Risk, idempotent: bool)

  /** Everything the loop does not decide itself, per attempt: what the executor and the repairer
      do and how long they take, and the draws of the random source. */
  datatype World<Out> = World(
    execute: (nat, Args) -> Result<Out, Exn>,
    repairer: Option<(nat, Args, Category) -> Result<Args, Exn>>,
    executeTime: nat -> real,
    repairTime: nat -> real,
    draw: nat -> real)

  /** One executor call. */
  datatype Call<Out> = Call(attempt: nat, arguments: Args, startedAt: real, outcome: Result<Out, Exn>)

  datatype LoopRun<Out> = LoopRun(result: Result<(Out, nat), Exn>, calls: seq<Call<Out>>)

  const NEEDS_REVIEW := Raised(NeedsReview, "A mutating call may have partially executed and needs review")

  predicate CanRetry(b: Backoff, category: Category, ctx: Context, attempt: nat, elapsed: real) {
    && !category.Denied?
    && attempt < b.maxAttempts
    && elapsed < b.maxTotalSeconds
    && (ctx.risk.ReadOnly? || ctx.idempotent)
  }

  /** What a failure that is not retried surfaces as. */
  function GiveUp(category: Category, ctx: Context, e: Exn): Exn {
    if Transient(category) && !ctx.risk.ReadOnly? then NEEDS_REVIEW else e
  }

  /** The arguments for the next attempt, or the exception raised instead of making it. */
  function Repaired<Out>(w: World<Out>, attempt: nat, current: Args, e: Exn): Result<Args, Exn> {
    if Transient(Diagnose(e)) then Ok(current)
    else match w.repairer
         case None => Err(e)
         case Some(repair) => repair(attempt, current, Diagnose(e))
  }

  /** When the next attempt is considered: repairing takes time, retrying as is does not. */
  function ReadyAt<Out>(w: World<Out>, attempt: nat, e: Exn, failedAt: real): real {
    if Transient(Diagnose(e)) then failedAt else failedAt + w.repairTime(attempt)
  }

  datatype Next = Stop(error: Exn) | Again(arguments: Args, at: real)

  /** What follows a failed attempt. */
  function AfterFailure<Out>(b: Backoff, ctx: Context, w: World<Out>, attempt: nat, current: Args, e: Exn,
                             failedAt: real, started: real): (next: Next)
    requires attempt >= 1
    ensures next.Again? ==> attempt < b.maxAttempts
  {
    if !CanRetry(b, Diagnose(e), ctx, attempt, failedAt - started) then Stop(GiveUp(Diagnose(e), ctx, e))
    else match Repaired(w, attempt, current, e)
         case Err(raised) => Stop(raised)
         case Ok(arguments) =>
           var at := ReadyAt(w, attempt, e, failedAt) + Delay(b, attempt, w.draw(attempt));
           if at - started > b.maxTotalSeconds then Stop(e) else Again(arguments, at)
  }

  function Loop<Out>(b: Backoff, ctx: Context, w: World<Out>, attempt: nat, current: Args, now: real,
                     started: real): LoopRun<Out>
    requires attempt >= 1
    decreases b.maxAttempts - attempt
  {
    var outcome := w.execute(attempt, current);
    var call := Call(attempt, current, now, outcome);
    match outcome
    case Ok(out) => LoopRun(Ok((out, attempt)), [call])
    case Err(e) =>
      match AfterFailure(b, ctx, w, attempt, current, e, now + w.executeTime(attempt), started)
      case Stop(error) => LoopRun(Err(error), [call])
      case Again(arguments, at) =>
        var rest := Loop(b, ctx, w, attempt + 1, arguments, at, started);
        LoopRun(rest.result, [call] + rest.calls)
  }

  function Whole<Out>(b: Backoff, ctx: Context, w: World<Out>, arguments: Args, started: real): LoopRun<Out> {
    Loop(b, ctx, w, 1, arguments, started, started)
  }

  /** The `except` block of `RepairLoop.run`: raise, or the next attempt's arguments once the
      delay has been slept. */
  method HandleFailure<Out>(b: Backoff, ctx: Context, w: World<Out>, attempt: nat, current: Args, e: Exn,
                            failedAt: real, started: real) returns (next: Next)
    requires attempt >= 1
    ensures next == AfterFailure(b, ctx, w, attempt, current, e, failedAt, started)
  {
    hide Delay, Diagnose;
    var now := failedAt;
    var category := Diagnose(e);
    if !CanRetry(b, category, ctx, attempt, now - started) {
      if Transient(category) && !ctx.risk.ReadOnly? {
        return Stop(NEEDS_REVIEW);
      }
      return Stop(e);
    }
    var repaired := current;
    if !Transient(category) {
      if w.repairer == None {
        return Stop(e);
      }
      var proposal := (w.repairer.value)(attempt, current, category);
      if proposal.Err? {
        return Stop(proposal.error);
      }
      now := now + w.repairTime(attempt);
      repaired := proposal.value;
    }
    var delay := Delay(b, attempt, w.draw(attempt));
    if now + delay - started > b.maxTotalSeconds {
      return Stop(e);
    }
    next := Again(repaired, now + delay);
  }

  /** `RepairLoop.run`. */
  method Run<Out>(b: Backoff, ctx: Context, w: World<Out>, arguments: Args, started: real) returns (run: LoopRun<Out>)
    ensures run == Whole(b, ctx, w, arguments, started)
  {
    hide AfterFailure, Loop;
    var now, current, attempt := started, arguments, 1;
    var calls: seq<Call<Out>> := [];
    while true
      invariant attempt >= 1
      invariant Whole(b, ctx, w, arguments, started).result == Loop(b, ctx, w, attempt, current, now, started).result
      invariant Whole(b, ctx, w, arguments, started).calls
              == calls + Loop(b, ctx, w, attempt, current, now, started).calls
      decreases b.maxAttempts - attempt
    {
      var outcome := w.execute(attempt, current);
      var call := Call(attempt, current, now, outcome);
      LoopUnfolds(b, ctx, w, attempt, current, now, started);
      if outcome.Ok? {
        return LoopRun(Ok((outcome.value, attempt)), calls + [call]);
      }
      var next := HandleFailure(b, ctx, w, attempt, current, outcome.error, now + w.executeTime(attempt), started);
      if next.Stop? {
        return LoopRun(Err(next.error), calls + [call]);
      }
      calls := calls + [call];
      now := next.at;
      current := next.arguments;
      attempt := attempt + 1;
    }
  }

  // ----- What the loop guarantees -----

  /** The loop is the first call alone, or the first call and the loop from the next one on. */
  lemma LoopUnfolds<Out>(b: Backoff, ctx: Context, w: World<Out>, attempt: nat, current: Args, now: real, started: real)
    requires attempt >= 1
    ensures var run := Loop(b, ctx, w, attempt, current, now, started);
            var outcome := w.execute(attempt, current); var call := Call(attempt, current, now, outcome);
            match outcome
            case Ok(out) => run.calls == [call] && run.result == Ok((out, attempt))
            case Err(e) =>
              match AfterFailure(b, ctx, w, attempt, current, e, now + w.executeTime(attempt), started)
              case Stop(error) => run.calls == [call] && run.result == Err(error)
              case Again(arguments, at) =>
                var rest := Loop(b, ctx, w, attempt + 1, arguments, at, started);
                run.calls == [call] + rest.calls && run.result == rest.result
  {
    hide AfterFailure;
  }

  /** The calls are numbered consecutively from `attempt`, at most `maxAttempts` of them beyond
      the first. */
  lemma {:induction false} LoopNumbers<Out>(b: Backoff, ctx: Context, w: World<Out>, attempt: nat, current: Args,
                                            now: real, started: real)
    requires attempt >= 1
    ensures var calls := Loop(b, ctx, w, attempt, current, now, started).calls; var n := |calls|;
            && 1 <= n <= Max(1, b.maxAttempts - attempt + 1)
            && (forall i | 0 <= i < n :: calls[i].attempt == attempt + i
                                         && calls[i].outcome == w.execute(attempt + i, calls[i].arguments))
            && calls[0].arguments == current && calls[0].startedAt == now
    decreases b.maxAttempts - attempt
  {
    LoopUnfolds(b, ctx, w, attempt, current, now, started);
    var outcome := w.execute(attempt, current);
    if outcome.Err? {
      var next := AfterFailure(b, ctx, w, attempt, current, outcome.error, now + w.executeTime(attempt), started);
      if next.Again? {
        LoopNumbers(b, ctx, w, attempt + 1, next.arguments, next.at, started);
      }
      hide AfterFailure;
    }
    hide Loop;
  }

  /** Only the last call can have succeeded, and the result is its output and number. */
  lemma {:induction false} LoopShape<Out>(b: Backoff, ctx: Context, w: World<Out>, attempt: nat, current: Args,
                                          now: real, started: real)
    requires attempt >= 1
    ensures var run := Loop(b, ctx, w, attempt, current, now, started); var n := |run.calls|;
            && 1 <= n
            && (forall i | 0 <= i < n - 1 :: run.calls[i].outcome.Err?)
            && (run.result.Ok? <==> run.calls[n - 1].outcome.Ok?)
            && (run.result.Ok? ==> run.result.value == (run.calls[n - 1].outcome.value, attempt + n - 1))
    decreases b.maxAttempts - attempt
  {
    LoopUnfolds(b, ctx, w, attempt, current, now, started);
    var outcome := w.execute(attempt, current);
    if outcome.Err? {
      var next := AfterFailure(b, ctx, w, attempt, current, outcome.error, now + w.executeTime(attempt), started);
      if next.Again? {
        LoopShape(b, ctx, w, attempt + 1, next.arguments, next.at, started);
      }
      hide AfterFailure;
    }
    hide Loop;
  }

  /** Termination with at most max(1, maxAttempts) executor calls, numbered 1, 2, ...; the
      returned number is that of the first successful call. */
  lemma CallsAreBounded<Out>(b: Backoff, ctx: Context, w: World<Out>, arguments: Args, started: real)
    ensures var run := Whole(b, ctx, w, arguments, started); var n := |run.calls|;
            && 1 <= n <= Max(1, b.maxAttempts)
            && (forall i | 0 <= i < n :: run.calls[i].attempt == i + 1)
            && (run.result.Ok? ==>
                  && run.result.value.1 == n
                  && run.calls[n - 1].outcome == Ok(run.result.value.0)
                  && forall i | 0 <= i < n - 1 :: run.calls[i].outcome.Err?)
            && (run.result.Err? ==> forall i | 0 <= i < n :: run.calls[i].outcome.Err?)
  {
    LoopNumbers(b, ctx, w, 1, arguments, started, started);
    LoopShape(b, ctx, w, 1, arguments, started, started);
    hide Loop;
  }

  /** Two consecutive calls: the first failed retryably, in time; the second's arguments are its
      own after a timeout or a crash and the repairer's otherwise, and it starts after the repair
      and the delay, within the total time. */
  predicate Follows<Out>(b: Backoff, ctx: Context, w: World<Out>, first: Call<Out>, second: Call<Out>, started: real) {
    && first.attempt >= 1 && first.outcome.Err?
    && var e, failedAt := first.outcome.error, first.startedAt + w.executeTime(first.attempt);
       && !Refusal(e)
       && (ctx.risk.ReadOnly? || ctx.idempotent)
       && first.attempt < b.maxAttempts && failedAt - started < b.maxTotalSeconds
       && (if Interrupted(e) then second.arguments == first.arguments
           else && w.repairer.Some?
                && (w.repairer.value)(first.attempt, first.arguments, Diagnose(e)) == Ok(second.arguments))
       && second.startedAt == (if Interrupted(e) then failedAt else failedAt + w.repairTime(first.attempt))
                              + Delay(b, first.attempt, w.draw(first.attempt))
       && second.startedAt - started <= b.maxTotalSeconds
  }

  lemma AgainFollows<Out>(b: Backoff, ctx: Context, w: World<Out>, first: Call<Out>, second: Call<Out>,
                          started: real)
    requires first.attempt >= 1 && first.outcome.Err?
    requires AfterFailure(b, ctx, w, first.attempt, first.arguments, first.outcome.error,
                          first.startedAt + w.executeTime(first.attempt), started)
             == Again(second.arguments, second.startedAt)
    ensures Follows(b, ctx, w, first, second, started)
  {
    DiagnosisExactly(first.outcome.error);
    hide Diagnose, Delay, Transient, Interrupted, Refusal;
  }

  lemma {:induction false} LoopFollows<Out>(b: Backoff, ctx: Context, w: World<Out>, attempt: nat, current: Args,
                                            now: real, started: real)
    requires attempt >= 1
    ensures var calls := Loop(b, ctx, w, attempt, current, now, started).calls;
            forall i | 0 <= i < |calls| - 1 :: Follows(b, ctx, w, calls[i], calls[i + 1], started)
    decreases b.maxAttempts - attempt
  {
    hide AfterFailure, Follows;
    var run := Loop(b, ctx, w, attempt, current, now, started);
    var outcome := w.execute(attempt, current);
    if outcome.Err? {
      var failedAt := now + w.executeTime(attempt);
      var next := AfterFailure(b, ctx, w, attempt, current, outcome.error, failedAt, started);
      if next.Again? {
        LoopFollows(b, ctx, w, attempt + 1, next.arguments, next.at, started);
        LoopNumbers(b, ctx, w, attempt + 1, next.arguments, next.at, started);
        var rest := Loop(b, ctx, w, attempt + 1, next.arguments, next.at, started).calls;
        AgainFollows(b, ctx, w, Call(attempt, current, now, outcome), rest[0], started);
        forall i | 0 <= i < |run.calls| - 1 ensures Follows(b, ctx, w, run.calls[i], run.calls[i + 1], started) {
          if i > 0 { assert run.calls[i] == rest[i - 1] && run.calls[i + 1] == rest[i]; }
        }
      }
    }
  }

  /** The arguments of the n-th call are the fold of the repairer over the earlier failures that
      were neither timeouts nor crashes; every call after the first starts within the total time;
      nothing runs after a refusal. */
  lemma CallsFollow<Out>(b: Backoff, ctx: Context, w: World<Out>, arguments: Args, started: real)
    ensures var calls := Whole(b, ctx, w, arguments, started).calls;
            && calls != [] && calls[0].arguments == arguments && calls[0].startedAt == started
            && (forall i | 0 <= i < |calls| - 1 :: Follows(b, ctx, w, calls[i], calls[i + 1], started))
            && (forall i | 0 <= i < |calls| && calls[i].outcome.Err? && Refusal(calls[i].outcome.error) ::
                  i == |calls| - 1)
            && (forall i | 1 <= i < |calls| :: calls[i].startedAt - started <= b.maxTotalSeconds)
  {
    LoopFollows(b, ctx, w, 1, arguments, started, started);
    LoopNumbers(b, ctx, w, 1, arguments, started, started);
    var calls := Whole(b, ctx, w, arguments, started).calls;
    hide Loop;
    forall i | 0 <= i < |calls| - 1 ensures calls[i].outcome.Err? && !Refusal(calls[i].outcome.error) {
      assert Follows(b, ctx, w, calls[i], calls[i + 1], started);
    }
    forall i | 1 <= i < |calls| ensures calls[i].startedAt - started <= b.maxTotalSeconds {
      assert Follows(b, ctx, w, calls[i - 1], calls[i], started);
    }
  }

  /** A timeout or crash that is followed by another call is followed by the same arguments. */
  lemma InterruptedCallsRepeat<Out>(b: Backoff, ctx: Context, w: World<Out>, arguments: Args, started: real, i: nat)
    requires i + 1 < |Whole(b, ctx, w, arguments, started).calls|
    ensures var calls := Whole(b, ctx, w, arguments, started).calls;
            && calls[i].outcome.Err?
            && var e := calls[i].outcome.error;
               if e.Gateway? && (e.error.code.SandboxTimeout? || e.error.code.SandboxCrash?)
               then calls[i + 1].arguments == calls[i].arguments
               else && w.repairer.Some?
                    && (w.repairer.value)(calls[i].attempt, calls[i].arguments, Diagnose(e))
                       == Ok(calls[i + 1].arguments)
  {
    CallsFollow(b, ctx, w, arguments, started);
    var calls := Whole(b, ctx, w, arguments, started).calls;
    assert Follows(b, ctx, w, calls[i], calls[i + 1], started);
    hide Whole;
  }

  /** How a run that ends without an output ends after its last call: the failure could not be
      retried, and is the error unless it interrupted something that is not read-only; or no
      model was there, or it failed; or the delay did not fit into the total time. */
  predicate EndsWith<Out>(b: Backoff, ctx: Context, w: World<Out>, last: Call<Out>, started: real, result: Exn) {
    && last.attempt >= 1 && last.outcome.Err?
    && var e, failedAt := last.outcome.error, last.startedAt + w.executeTime(last.attempt);
       var repaired := if Interrupted(e) then failedAt else failedAt + w.repairTime(last.attempt);
       if Refusal(e) || last.attempt >= b.maxAttempts || failedAt - started >= b.maxTotalSeconds
          || !(ctx.risk.ReadOnly? || ctx.idempotent)
       then result == if Interrupted(e) && !ctx.risk.ReadOnly? then NEEDS_REVIEW else e
       else if !Interrupted(e) && w.repairer.None? then result == e
       else if !Interrupted(e) && (w.repairer.value)(last.attempt, last.arguments, Diagnose(e)).Err?
       then result == (w.repairer.value)(last.attempt, last.arguments, Diagnose(e)).error
       else && repaired + Delay(b, last.attempt, w.draw(last.attempt)) - started > b.maxTotalSeconds
            && result == e
  }

  lemma StopEnds<Out>(b: Backoff, ctx: Context, w: World<Out>, last: Call<Out>, started: real, error: Exn)
    requires last.attempt >= 1 && last.outcome.Err?
    requires AfterFailure(b, ctx, w, last.attempt, last.arguments, last.outcome.error,
                          last.startedAt + w.executeTime(last.attempt), started) == Stop(error)
    ensures EndsWith(b, ctx, w, last, started, error)
  {
    DiagnosisExactly(last.outcome.error);
    hide Diagnose, Delay, Transient, Interrupted, Refusal;
  }

  lemma {:induction false} LoopEnds<Out>(b: Backoff, ctx: Context, w: World<Out>, attempt: nat, current: Args,
                                         now: real, started: real)
    requires attempt >= 1
    ensures var run := Loop(b, ctx, w, attempt, current, now, started);
            run.calls != [] && (run.result.Err? ==>
              EndsWith(b, ctx, w, run.calls[|run.calls| - 1], started, run.result.error))
    decreases b.maxAttempts - attempt
  {
    LoopUnfolds(b, ctx, w, attempt, current, now, started);
    var outcome := w.execute(attempt, current);
    if outcome.Err? {
      var next := AfterFailure(b, ctx, w, attempt, current, outcome.error, now + w.executeTime(attempt), started);
      if next.Again? {
        LoopEnds(b, ctx, w, attempt + 1, next.arguments, next.at, started);
      } else {
        StopEnds(b, ctx, w, Call(attempt, current, now, outcome), started, next.error);
      }
    }
    hide AfterFailure, EndsWith, Loop;
  }

  /** A run ends without an output only when it must, and then as it must. */
  lemma RunEndsExactly<Out>(b: Backoff, ctx: Context, w: World<Out>, arguments: Args, started: real)
    ensures var run := Whole(b, ctx, w, arguments, started);
            && run.calls != []
            && (run.result.Err? ==> EndsWith(b, ctx, w, run.calls[|run.calls| - 1], started, run.result.error))
            && (run.result.Err? <==> run.calls[|run.calls| - 1].outcome.Err?)
  {
    LoopEnds(b, ctx, w, 1, arguments, started, started);
    LoopShape(b, ctx, w, 1, arguments, started, started);
    hide Loop, EndsWith;
  }

  /** A call that is neither read-only nor idempotent runs its executor exactly once; a timeout or
      crash of it surfaces as needing review, and any other failure as it is. */
  lemma MutationsRunOnce<Out>(b: Backoff, ctx: Context, w: World<Out>, arguments: Args, started: real)
    requires !ctx.risk.ReadOnly? && !ctx.idempotent
    ensures var run := Whole(b, ctx, w, arguments, started); var outcome := w.execute(1, arguments);
            && |run.calls| == 1 && run.calls[0].outcome == outcome
            && (outcome.Err? ==>
                  var e := outcome.error;
                  if e.Gateway? && (e.error.code.SandboxTimeout? || e.error.code.SandboxCrash?)
                  then run.result.Err? && run.result.error.Gateway? && run.result.error.error.code.NeedsReview?
                  else run.result == Err(e))
  {
    CallsAreBounded(b, ctx, w, arguments, started);
    CallsFollow(b, ctx, w, arguments, started);
    RunEndsExactly(b, ctx, w, arguments, started);
    LoopNumbers(b, ctx, w, 1, arguments, started, started);
    var calls := Whole(b, ctx, w, arguments, started).calls;
    hide Loop;
  }

  /** A mutation whose last failure was a timeout or a crash surfaces as needing review exactly
      when that failure came too late or in the last attempt, or the tool is not idempotent.  An
      idempotent one that had no time left for its delay only surfaces as the timeout or crash
      itself. */
  lemma ReviewExactlyWhenGivenUp<Out>(b: Backoff, ctx: Context, w: World<Out>, arguments: Args, started: real)
    requires !ctx.risk.ReadOnly?
    ensures var run := Whole(b, ctx, w, arguments, started); var last := run.calls[|run.calls| - 1];
            run.calls != [] && (last.outcome.Err? && Interrupted(last.outcome.error) ==>
              run.result == Err(if !ctx.idempotent || last.attempt >= b.maxAttempts
                                   || last.startedAt + w.executeTime(last.attempt) - started >= b.maxTotalSeconds
                                then NEEDS_REVIEW else last.outcome.error))
  {
    RunEndsExactly(b, ctx, w, arguments, started);
    hide Whole;
  }

  /** Such a run: the first attempt takes 29.9 of the 30 seconds, so the retry's delay does not
      fit and the timeout surfaces unmarked. */
  lemma IdempotentTimeoutCanSurface(arguments: Args)
    ensures var e := Raised(SandboxTimeout, "Sandbox execution exceeded its wall-clock timeout");
            var w: World<()> := World((_, _) => Err(e), None, _ => 29.9, _ => 0.0, _ => 0.0);
            Whole(STANDARD, Context(Mutating, true), w, arguments, 0.0)
            == LoopRun(Err(e), [Call(1, arguments, 0.0, Err(e))])
  {
    assert BaseDelay(STANDARD, 1) == 0.25;
  }
}
