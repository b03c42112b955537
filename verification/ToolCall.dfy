/** gateway/server.py, `execute_tool_call`, step by step: the closures' shared variables are the
    fields of a `Pipeline`, and every method is proved to follow `Orchestrator`. */
module ToolCall {
  import opened Common
  import Policy
  import opened Repair
  import opened StateStore
  import opened Orchestrator
  import ControlPlane
  import Lifecycle
  import RedisStore
  import Answers

  /** One appended audit record. */
  datatype AuditEvent = AuditEvent(outcome: string, attempts: seq<Attempt>, evidence: Evidence)

  // ----- What a record says about its call -----

  function StatesOf(r: Record): seq<CallState> {
    seq(|r.transitions|, i requires 0 <= i < |r.transitions| => r.transitions[i].state)
  }

  function NumbersOf(r: Record): seq<int> {
    seq(|r.attempts|, i requires 0 <= i < |r.attempts| => r.attempts[i].number)
  }

  function WordsOf(r: Record): seq<Option<string>> {
    seq(|r.attempts|, i requires 0 <= i < |r.attempts| => r.attempts[i].outcome)
  }

  function UpTo(n: nat): seq<int> {
    seq(n, i => i + 1)
  }

  /** Attempts have a finishing time exactly when they have an outcome. */
  predicate Settled(r: Record) {
    forall i | 0 <= i < |r.attempts| :: r.attempts[i].finishedAt.Some? <==> r.attempts[i].outcome.Some?
  }

  /** The record still describes the same call. */
  predicate SameIdentity(before: Record, after: Record) {
    && after.callId == before.callId && after.sessionId == before.sessionId && after.toolName == before.toolName
    && after.arguments == before.arguments && after.createdAt == before.createdAt
    && (Settled(before) ==> Settled(after))
  }

  /** And no success has been recorded meanwhile. */
  predicate SameCall(before: Record, after: Record) {
    SameIdentity(before, after) && (Succeeded in StatesOf(after) ==> Succeeded in StatesOf(before))
  }

  lemma SameCallSteps(first: Record, second: Record, third: Record)
    requires SameCall(first, second) && SameCall(second, third)
    ensures SameCall(first, third)
  {
    hide StatesOf;
  }

  lemma SameCallSelf(r: Record)
    ensures SameCall(r, r)
  {
  }

  lemma SameCallMeans(before: Record, after: Record)
    requires SameCall(before, after)
    ensures SameIdentity(before, after) && (Succeeded in StatesOf(after) ==> Succeeded in StatesOf(before))
  {
  }

  lemma NewRecordMeans<Out>(env: Env<Out>)
    ensures Succeeded !in StatesOf(NewRecord(env))
  {
  }

  lemma SameIdentitySteps(first: Record, second: Record, third: Record)
    requires SameIdentity(first, second) && SameIdentity(second, third)
    ensures SameIdentity(first, third)
  {
  }

  /** The current state is that of the last transition. */
  predicate Current(r: Record) {
    r.transitions != [] && r.currentState == r.transitions[|r.transitions| - 1].state
  }

  function NewRecord<Out>(env: Env<Out>): Record {
    Record(env.callId, env.sessionId, env.toolName, env.arguments, Received,
           [Entry(Received, env.clock(0), None)], [Attempt(1, env.clock(0), None, None, None)],
           env.clock(0), env.clock(0))
  }

  /** The last attempt with this number has finished like this. */
  predicate FinishedAs(r: Record, number: int, word: string, error: Option<string>) {
    var at := LastNumbered(r.attempts, number);
    && at.Some?
    && var a := r.attempts[at.value];
       a.finishedAt.Some? && a.outcome == Some(word) && a.error == error
  }

  lemma LastNumberedStays(attempts: seq<Attempt>, i: nat, a: Attempt, number: int)
    requires i < |attempts| && a.number == attempts[i].number
    ensures LastNumbered(attempts[i := a], number) == LastNumbered(attempts, number)
  {
    var changed := attempts[i := a];
    assert forall j | 0 <= j < |attempts| :: changed[j].number == attempts[j].number;
    var before, after := LastNumbered(attempts, number), LastNumbered(changed, number);
    hide LastNumbered;
    assert before.Some? ==> changed[before.value].number == number;
    assert after.Some? ==> attempts[after.value].number == number;
  }

  /** Attempts are those of k - 1 executor calls; before the first one, attempt 1 is open. */
  predicate Aligned(r: Record, k: nat) {
    NumbersOf(r) == UpTo(Max(1, k - 1)) && (k == 1 ==> WordsOf(r) == [None])
  }

  /** What the k-th executor call adds to the record on a reliable store. */
  ghost predicate Recorded<Out>(env: Env<Out>, k: nat, result: Result<Out, Exn>, before: Record, after: Record)
    requires 1 <= k
  {
    Reliable(env) && Number(env, k) == k && Aligned(before, k) ==>
      && NumbersOf(after) == UpTo(k)
      && StatesOf(after) == StatesOf(before) + [Executing]
      && WordsOf(after) == WordsOf(before)[..k - 1] + [Mark(result)]
  }

  /** What these executor calls have added to the record on a reliable store. */
  ghost predicate Logged<Out>(env: Env<Out>, calls: seq<Call<Out>>, before: Record, after: Record) {
    Reliable(env) && Aligned(before, 1) ==>
      && Aligned(after, |calls| + 1)
      && StatesOf(after) == StatesOf(before) + Executings(|calls|)
      && (calls != [] ==> WordsOf(after) == Marks(calls))
  }

  lemma LoggedStep<Out>(env: Env<Out>, calls: seq<Call<Out>>, call: Call<Out>, start: Record, before: Record,
                        after: Record)
    requires Logged(env, calls, start, before) && Recorded(env, |calls| + 1, call.outcome, before, after)
    ensures Logged(env, calls + [call], start, after)
  {
    if Reliable(env) && Aligned(start, 1) {
      Lifecycle.NumbersAgree(env, |calls| + 1);
      hide Number, Entered, Mark;
      var n := |calls|;
      assert Executings(n + 1) == Executings(n) + [Executing];
      assert Marks(calls + [call]) == Marks(calls) + [Mark(call.outcome)];
      assert Marks(calls)[..n] == Marks(calls);
      if n == 0 { assert WordsOf(before)[..0] == []; }
    }
  }

  lemma NumbersAreNamed(r: Record)
    ensures |NumbersOf(r)| == |WordsOf(r)|
  {
  }

  /** The record once the k-th executor call has started its attempt. */
  lemma BeginsAligned(before: Record, begun: Record, k: nat)
    requires 1 <= k && Aligned(before, k)
    requires NumbersOf(begun) == NumbersOf(before) + if k > 1 then [k] else []
    requires WordsOf(begun) == WordsOf(before) + if k > 1 then [None] else []
    ensures NumbersOf(begun) == UpTo(k) && WordsOf(begun) == WordsOf(before)[..k - 1] + [None]
  {
    NumbersAreNamed(before);
    hide NumbersOf, WordsOf;
    assert UpTo(k) == UpTo(k - 1) + [k];
  }

  /** The record that enters the repair loop. */
  lemma InitialLog<Out>(env: Env<Out>, r: Record)
    requires r.attempts == NewRecord(env).attempts
    ensures Aligned(r, 1) && Logged(env, [], r, r) && NumbersOf(r) == [1] && SameCall(r, r)
  {
    assert StatesOf(r) == StatesOf(r) + Executings(0);
  }

  lemma VerdictOfLoop<Out>(env: Env<Out>)
    requires ReachesLoop(env)
    ensures var looped := Looped(env, FirstRequest(env).value).result;
            Verdict(env) == if looped.Ok? then Ok(looped.value.0) else Err(looped.error)
  {
    hide FirstRequest, Clear, Looped;
  }

  lemma CreatedFacts<Out>(env: Env<Out>)
    ensures var r := NewRecord(env);
            && StatesOf(r) == [Received] && NumbersOf(r) == [1] && Current(r) && SameCall(r, r) && SameIdentity(r, r)
  {
  }

  /** What the calls that stop before the repair loop leave, stage by stage. */
  lemma PrologueCases<Out>(env: Env<Out>)
    ensures match FirstRequest(env)
            case Err(x) => Prologue(env) == [Received] && Verdict(env) == Err(x) && EvidenceOf(env) == NO_EVIDENCE
            case Ok(request) =>
              match env.policy(0, request)
              case Err(x) =>
                Prologue(env) == [Received] + [Validated] && Verdict(env) == Err(x) && EvidenceOf(env) == NO_EVIDENCE
              case Ok(d) =>
                && EvidenceOf(env) == Evidence(Some(d.outcome), Some(d.matchedRule), ApproverOf(env, request, d))
                && match Clear(env, request, d)
                   case Blocked(states, x) =>
                     Prologue(env) == [Received] + [Validated] + ([PolicyChecked] + states) && Verdict(env) == Err(x)
                   case Cleared(a) =>
                     var waiting := if a.Some? then [AwaitingApproval] else [];
                     Prologue(env) == [Received] + [Validated] + ([PolicyChecked] + waiting)
  {
    hide FirstRequest, Clear, Looped, ApproverOf;
    assert forall states: seq<CallState> {:trigger [PolicyChecked] + states} ::
        [Received] + [Validated] + ([PolicyChecked] + states) == [Received, Validated, PolicyChecked] + states;
    assert [Received] + [Validated] == [Received, Validated];
  }

  /** Which admitted calls get to the policy and to the repair loop. */
  lemma ReachCases<Out>(env: Env<Out>)
    requires Admitted(env)
    ensures ReachesPolicy(env) <==> FirstRequest(env).Ok? && env.up(AtValidated)
    ensures ReachesLoop(env) <==>
              && ReachesPolicy(env) && env.policy(0, FirstRequest(env).value).Ok? && env.up(AtPolicyChecked)
              && var d := env.policy(0, FirstRequest(env).value).value;
                 Clear(env, FirstRequest(env).value, d).Cleared? && (d.outcome.RequiresApproval? ==> env.up(AtAwaiting))
  {
    hide FirstRequest, Clear;
  }

  /** A call that is not admitted asks nothing. */
  lemma NotAdmitted<Out>(env: Env<Out>)
    requires !Admitted(env)
    ensures Invocations(env) == [] && Evaluations(env) == [] && StartedNumbers(env, Calls(env)) == [1]
  {
  }

  lemma CreatedIsStored<Out>(env: Env<Out>)
    ensures CellAfter([Create(NewRecord(env))] + [], env.callId) == Some(NewRecord(env))
  {
    assert [Create(NewRecord(env))] + [] == [] + [Create(NewRecord(env))];
    CellStep([], Create(NewRecord(env)), env.callId);
  }

  // ----- Auditing -----

  /** What the index-th audit write appends. */
  function NewEvents<Out>(env: Env<Out>, word: string, index: nat, r: Record, evidence: Evidence): seq<AuditEvent> {
    if env.audit.None? || !env.audit.value(index) then []
    else [AuditEvent(word, if env.up(AtAudit(index)) then r.attempts else [], evidence)]
  }

  /** The durable history after the index-th audit write, which is also what updates it. */
  function NewDb<Out>(env: Env<Out>, index: nat, r: Record, db: ControlPlane.Db): ControlPlane.Db {
    if env.audit.Some? && env.up(AtAudit(index)) && env.plane.Some? && env.plane.value(AtAuditUpsert(index))
       && ControlPlane.Upserted(db, r).Some?
    then ControlPlane.Upserted(db, r).value else db
  }

  /** The durable history after admission: the record as it was created. */
  function AdmittedDb<Out>(env: Env<Out>, db: ControlPlane.Db): ControlPlane.Db {
    if env.plane.None? then db
    else match ControlPlane.Upserted(db, NewRecord(env)) case Some(after) => after case None => db
  }

  /** The audit records of a finished call, and the durable history they leave behind. */
  predicate AuditAgrees<Out>(env: Env<Out>, r: Record, events: seq<AuditEvent>, db: ControlPlane.Db) {
    var n := if Verdict(env).Ok? && !env.serialises(Verdict(env).value) then 2 else 1;
    env.audit.Some? && (forall i | 0 <= i < n :: env.audit.value(i)) ==>
      && |events| == n
      && (n == 2 ==> events[0].outcome == "succeeded")
      && events[n - 1] == AuditEvent(FinalWord(env), r.attempts, EvidenceOf(env))
      && (env.plane.Some? && env.plane.value(AtAuditUpsert(n - 1)) ==> ControlPlane.Listed(db, r.callId) == r.attempts)
  }

  lemma DurableRows<Out>(env: Env<Out>, index: nat, r: Record, db: ControlPlane.Db)
    requires NumbersOf(r) == UpTo(|r.attempts|) && env.audit.Some? && env.up(AtAudit(index))
    requires env.plane.Some? && env.plane.value(AtAuditUpsert(index))
    ensures ControlPlane.Listed(NewDb(env, index, r, db), r.callId) == r.attempts
  {
    assert forall i | 0 <= i < |r.attempts| :: NumbersOf(r)[i] == i + 1 && r.attempts[i].number == NumbersOf(r)[i];
    ControlPlane.UpsertReplacesHistory(db, r, r.callId + "'");
  }

  /** Admission leaves the first attempt, still open, as the call's durable history. */
  lemma AdmissionRows<Out>(env: Env<Out>, db: ControlPlane.Db)
    requires env.plane.Some?
    ensures ControlPlane.Listed(AdmittedDb(env, db), env.callId) == [Attempt(1, env.clock(0), None, None, None)]
  {
    ControlPlane.UpsertReplacesHistory(db, NewRecord(env), env.callId + "'");
  }

  /** The record and the audit of a call on a reliable store, when the guarded pipeline ends. */
  ghost predicate Finished<Out>(env: Env<Out>, r: Record, last: nat, events: seq<AuditEvent>, writes: nat) {
    && StatesOf(r) == Prologue(env) + Executings(|Calls(env)|) + (if Verdict(env).Ok? then [Succeeded] else [])
    && NumbersOf(r) == UpTo(last) && last == Max(1, |Calls(env)|)
    && (Calls(env) != [] ==> WordsOf(r) == Marks(Calls(env)))
    && writes == (if Verdict(env).Ok? && env.audit.Some? then 1 else 0)
    && events == (if Verdict(env).Ok? then NewEvents(env, "succeeded", 0, r, EvidenceOf(env)) else [])
  }

  lemma ShortMarks<Out>(calls: seq<Call<Out>>, word: string)
    requires calls != []
    ensures Marks(calls)[|calls| - 1 := Some(word)] == Marks(calls[..|calls| - 1]) + [Some(word)]
  {
    hide Mark;
  }

  lemma SuccessLog<Out>(env: Env<Out>, r: Record, last: nat, events: seq<AuditEvent>, writes: nat)
    requires Reliable(env) && Admitted(env) && Finished(env, r, last, events, writes) && Delivered(env).Ok?
    ensures StatesOf(r) == States(env) && WordsOf(r) == Outcomes(env)
  {
    Lifecycle.CallsFit(env);
    Lifecycle.PrologueStage(env);
    var calls := Calls(env);
    hide StatesOf, Calls, Verdict, Prologue, ReachesLoop, EvidenceOf, NewEvents, NumbersOf;
    ShortMarks(calls, "succeeded");
    assert Marks(calls)[|calls| - 1] == Some("succeeded");
  }

  lemma CallSucceeded<Out>(env: Env<Out>, r: Record, last: nat, events: seq<AuditEvent>, writes: nat,
                           before: ControlPlane.Db, db: ControlPlane.Db)
    requires Reliable(env) && Admitted(env) && Finished(env, r, last, events, writes) && Delivered(env).Ok?
    requires db == NewDb(env, 0, r, before)
    ensures StatesOf(r) == States(env) && WordsOf(r) == Outcomes(env) && AuditAgrees(env, r, events, db)
  {
    hide StatesOf, States, WordsOf, Outcomes, Marks, Calls, Verdict, Prologue, ReachesLoop, EvidenceOf;
    SuccessLog(env, r, last, events, writes);
    if env.audit.Some? && env.plane.Some? && env.plane.value(AtAuditUpsert(0)) {
      DurableRows(env, 0, r, before);
    }
  }

  lemma CallFailed<Out>(env: Env<Out>, earlier: Record, r: Record, last: nat, before: seq<AuditEvent>,
                        events: seq<AuditEvent>,
                        writes: nat, was: ControlPlane.Db, db: ControlPlane.Db)
    requires Reliable(env) && Admitted(env) && Finished(env, earlier, last, before, writes) && Delivered(env).Err?
    requires var x := Delivered(env).error;
             && StatesOf(r) == StatesOf(earlier) + [EndState(x)]
             && NumbersOf(r) == NumbersOf(earlier)
             && WordsOf(r) == WordsOf(earlier)[last - 1 := Some(EndWord(x))]
             && events == before + NewEvents(env, EndWord(x), writes, r, EvidenceOf(env))
             && db == NewDb(env, writes, r, was)
    ensures StatesOf(r) == States(env) && WordsOf(r) == Outcomes(env) && AuditAgrees(env, r, events, db)
  {
    var calls := Calls(env);
    hide StatesOf, Calls, Verdict, Prologue, ReachesLoop, EvidenceOf;
    if calls != [] {
      ShortMarks(calls, FinalWord(env));
    }
    if env.audit.Some? && env.plane.Some? && env.plane.value(AtAuditUpsert(writes)) {
      DurableRows(env, writes, r, was);
    }
  }

  /** Once an attempt number repeats, no audit write reaches the durable rows any more: the
      constraint on numbers rolls every upsert back. */
  lemma RepeatedNumberFreezesRows<Out>(env: Env<Out>, index: nat, r: Record, db: ControlPlane.Db)
    requires NumbersOf(r) == StartedNumbers(env, Calls(env)) && Lifecycle.RepeatsNumber(env)
    ensures NewDb(env, index, r, db) == db
  {
    Lifecycle.NumbersRepeatExactly(env);
    var numbers := NumbersOf(r);
    var i, j :| 0 <= i < j < |numbers| && numbers[i] == numbers[j];
    assert r.attempts[i].number == r.attempts[j].number;
  }

  /** The call of `FailedFollowsSucceeded` is audited twice, first as a success. */
  lemma UnserialisableIsAuditedTwice(r: Record, events: seq<AuditEvent>, db: ControlPlane.Db)
    requires AuditAgrees(Lifecycle.OpenEnv((_, _) => Ok(()), () => false), r, events, db)
    ensures |events| == 2 && events[0].outcome == "succeeded" && events[1].outcome == "failed"
  {
    Lifecycle.FailedFollowsSucceeded();
    hide Verdict, FinalWord;
  }

  /** On a store shared by any number of calls, whose operations interleave in any way: if those on
      this call took effect in the order in which the pipeline made them, the store holds the
      pipeline's record, with everything that is proved of it. */
  lemma SharedStoreHoldsRecord<Out>(env: Env<Out>, ops: seq<Op>, record: Record, now: int, steps: seq<RedisStore.Step>)
    requires CellAfter([Create(NewRecord(env))] + ops, env.callId) == Some(record)
    requires Own(RedisStore.Run(RedisStore.Start(now), steps).log, env.callId) == [Create(NewRecord(env))] + ops
    ensures var s := RedisStore.Run(RedisStore.Start(now), steps);
            env.callId in s.cells && s.cells[env.callId].record == record
  {
    RedisStore.CallsAreIndependent(now, steps, env.callId);
    hide RedisStore.Run;
  }

  lemma ReplyIsDelivered<Out>(env: Env<Out>)
    ensures match Delivered(env)
            case Ok(out) => Verdict(env) == Ok(out) && ReplyOf(env) == Output(out)
            case Err(x) => ReplyOf(env) == ErrorReply(ErrorOf(x).code)
  {
    hide Verdict;
  }

  /** An evaluation of repaired arguments that answered something other than allow is the end: the
      client is told policy_denied, the call is DENIED, and nothing was invoked from there on. */
  ghost predicate RefusalsAreFinal<Out>(reply: Reply<Out>, evaluations: seq<Evaluation>, invocations: seq<Invocation>,
                                        r: Record) {
    forall i | 0 <= i < |evaluations| && evaluations[i].index >= 1
               && evaluations[i].answer.Ok? && !evaluations[i].answer.value.outcome.Allow? ::
      && reply == ErrorReply(PolicyDenied)
      && r.transitions != [] && r.transitions[|r.transitions| - 1].state == CallState.Denied
      && forall j | 0 <= j < |invocations| :: invocations[j].call < evaluations[i].index
  }

  lemma RefusedRepairsAreTold<Out>(env: Env<Out>, r: Record)
    requires Reliable(env) && Admitted(env) && StatesOf(r) == States(env)
    ensures RefusalsAreFinal(ReplyOf(env), Evaluations(env), Invocations(env), r)
  {
    hide Evaluations, Invocations, States, ReplyOf, Reliable, Admitted;
    forall i | 0 <= i < |Evaluations(env)| && Answers.RefusesRepair(Evaluations(env)[i])
      ensures ReplyOf(env) == ErrorReply(PolicyDenied)
      ensures r.transitions != [] && r.transitions[|r.transitions| - 1].state == CallState.Denied
      ensures forall j | 0 <= j < |Invocations(env)| :: Invocations(env)[j].call < Evaluations(env)[i].index
    {
      Answers.RefusedRepairEndsTheCall(env, i);
      assert StatesOf(r)[|StatesOf(r)| - 1] == r.transitions[|r.transitions| - 1].state;
    }
  }

  class Pipeline<Out> {
    const env: Env<Out>
    var record: Record
    var latestAttempt: nat
    var lastFinished: nat
    var ticks: nat
    var auditWrites: nat
    var evidence: Evidence
    var events: seq<AuditEvent>
    var db: ControlPlane.Db
    /** The store operations that took effect, in order; what the handlers and the policy were
        asked, in order. */
    ghost var ops: seq<Op>
    ghost var invocations: seq<Invocation>
    ghost var evaluations: seq<Evaluation>

    constructor (env: Env<Out>, db: ControlPlane.Db)
      ensures this.env == env && this.db == db && record == NewRecord(env) && Initial()
      ensures record.callId == env.callId && record.sessionId == env.sessionId && record.toolName == env.toolName
      ensures record.arguments == env.arguments && record.currentState == Received
      ensures record.transitions == [Entry(Received, env.clock(0), None)]
      ensures record.attempts == [Attempt(1, env.clock(0), None, None, None)]
      ensures latestAttempt == 1 && lastFinished == 1 && auditWrites == 0 && events == [] && evidence == NO_EVIDENCE
      ensures ops == [] && invocations == [] && evaluations == []
    {
      this.env, this.db := env, db;
      record := Record(env.callId, env.sessionId, env.toolName, env.arguments, Received,
                       [Entry(Received, env.clock(0), None)], [Attempt(1, env.clock(0), None, None, None)],
                       env.clock(0), env.clock(0));
      latestAttempt, lastFinished, ticks, auditWrites := 1, 1, 1, 0;
      evidence, events := NO_EVIDENCE, [];
      ops, invocations, evaluations := [], [], [];
    }

    /** The record is the fold of the operations on it, so that it is what any store that runs
        them in this order holds for the call. */
    ghost predicate Stored()
      reads this`record, this`ops
    {
      CellAfter([Create(NewRecord(env))] + ops, env.callId) == Some(record)
    }

    /** The next operation on the call, which leaves this record. */
    ghost method Log(u: Update, first: int, second: int, before: Record)
      requires CellAfter([Create(NewRecord(env))] + ops, env.callId) == Some(before)
      requires Updated(u, first, second, before) == Some(record)
      modifies this`ops
      ensures ops == old(ops) + [Change(env.callId, u, first, second)] && Stored()
    {
      var op := Change(env.callId, u, first, second);
      CellStep([Create(NewRecord(env))] + ops, op, env.callId);
      assert [Create(NewRecord(env))] + (ops + [op]) == [Create(NewRecord(env))] + ops + [op];
      ops := ops + [op];
    }

    // ----- State-store operations; a failing one changes nothing -----

    method Transit(state: CallState, error: Option<string>, point: StorePoint) returns (ok: bool)
      requires Stored()
      modifies this`record, this`ops, this`ticks
      ensures Stored()
      ensures ok == env.up(point)
      ensures if state == Succeeded then SameIdentity(old(record), record) else SameCall(old(record), record)
      ensures record.attempts == old(record.attempts)
      ensures NumbersOf(record) == NumbersOf(old(record)) && WordsOf(record) == WordsOf(old(record))
      ensures StatesOf(record) == StatesOf(old(record)) + if ok then [state] else []
      ensures Current(old(record)) || ok ==> Current(record)
      ensures ok ==> record.currentState == state
      ensures ok ==> record.transitions == old(record.transitions) + [Entry(state, env.clock(old(ticks)), error)]
    {
      if !env.up(point) {
        return false;
      }
      var now := env.clock(ticks);
      ghost var before := record;
      record := Updated(StateStore.Update.Transit(state, error), now, now, record).value;
      Log(StateStore.Update.Transit(state, error), now, now, before);
      assert StatesOf(record) == StatesOf(before) + [state];
      ticks := ticks + 1;
      ok := true;
    }

    method StartAttempt(number: int, point: StorePoint) returns (ok: bool)
      requires Stored()
      modifies this`record, this`ops, this`ticks
      ensures Stored()
      ensures ok == env.up(point)
      ensures SameCall(old(record), record) && record.transitions == old(record.transitions)
      ensures NumbersOf(record) == NumbersOf(old(record)) + if ok then [number] else []
      ensures WordsOf(record) == WordsOf(old(record)) + if ok then [None] else []
      ensures record.currentState == old(record.currentState)
      ensures StatesOf(record) == StatesOf(old(record)) && (Current(old(record)) ==> Current(record))
    {
      if !env.up(point) {
        return false;
      }
      ghost var before := record;
      record := Updated(Begin(number), env.clock(ticks), env.clock(ticks + 1), record).value;
      Log(Begin(number), env.clock(ticks), env.clock(ticks + 1), before);
      ticks := ticks + 2;
      ok := true;
    }

    method FinishAttempt(number: int, word: string, error: Option<string>, point: StorePoint) returns (ok: bool)
      requires number in NumbersOf(record)
      requires Stored()
      modifies this`record, this`ops, this`ticks
      ensures Stored()
      ensures ok == env.up(point)
      ensures SameCall(old(record), record) && record.transitions == old(record.transitions)
      ensures NumbersOf(record) == NumbersOf(old(record))
      ensures !ok ==> record == old(record)
      ensures ok && NumbersOf(record) == UpTo(|NumbersOf(record)|) && 1 <= number <= |NumbersOf(record)|
              ==> WordsOf(record) == WordsOf(old(record))[number - 1 := Some(word)]
      ensures record.currentState == old(record.currentState)
      ensures StatesOf(record) == StatesOf(old(record)) && (Current(old(record)) ==> Current(record))
      ensures ok ==> FinishedAs(record, number, word, error)
    {
      if !env.up(point) {
        return false;
      }
      assert forall i | 0 <= i < |record.attempts| :: NumbersOf(record)[i] == record.attempts[i].number;
      var updated := Updated(Finish(number, word, error), env.clock(ticks), env.clock(ticks + 1), record);
      ghost var at := LastNumbered(record.attempts, number).value;
      assert NumbersOf(updated.value) == NumbersOf(record);
      assert WordsOf(updated.value) == WordsOf(record)[at := Some(word)];
      LastNumberedStays(record.attempts, at, updated.value.attempts[at], number);
      ghost var before := record;
      record := updated.value;
      Log(Finish(number, word, error), env.clock(ticks), env.clock(ticks + 1), before);
      ticks := ticks + 2;
      ok := true;
    }

    // ----- Validation, policy and approval -----

    /** Validation, with one model repair of an invalid request. */
    method PrepareRequest() returns (prepared: Result<Args, Exn>)
      ensures prepared == FirstRequest(env)
    {
      var validated := Validate(env, env.arguments);
      if validated.Ok? {
        return Ok(validated.value);
      }
      var category := Diagnose(Gateway(validated.error));
      if env.advisor == None || !Repairable(category) {
        return Err(Gateway(validated.error));
      }
      var proposed := (env.advisor.value)(0, env.arguments, category);
      if proposed.Err? {
        return Err(proposed.error);
      }
      var again := Validate(env, proposed.value);
      prepared := if again.Ok? then Ok(again.value) else Err(Gateway(again.error));
    }

    method Evaluate(index: nat, request: Args) returns (answer: Result<Policy.Decision, Exn>)
      modifies this`evaluations
      ensures answer == env.policy(index, request)
      ensures evaluations == old(evaluations) + [Evaluation(index, request, answer)]
    {
      answer := env.policy(index, request);
      evaluations := evaluations + [Evaluation(index, request, answer)];
    }

    /** Records a refusal before it is raised. */
    method Refuse(reason: string) returns (ok: bool)
      requires 1 in NumbersOf(record)
      requires Stored()
      modifies this`record, this`ops, this`ticks
      ensures Stored()
      ensures SameCall(old(record), record) && NumbersOf(record) == NumbersOf(old(record))
      ensures Current(old(record)) ==> Current(record)
      ensures ok == (env.up(AtDenied) && env.up(AtDeniedFinish))
      ensures ok ==> StatesOf(record) == StatesOf(old(record)) + [CallState.Denied]
      ensures ok ==>
                && record.transitions[|record.transitions| - 1].error == Some(reason)
                && FinishedAs(record, 1, "denied", Some(reason))
    {
      ok := Transit(CallState.Denied, Some(reason), AtDenied);
      if ok {
        ok := FinishAttempt(1, "denied", Some(reason), AtDeniedFinish);
      }
    }

    /** Submits the request for approval and waits; the exception raised instead of going on,
        if any. */
    method AwaitApproval(request: Args, d: Policy.Decision, w: ApprovalWorld) returns (blocked: Option<Exn>)
      requires 1 in NumbersOf(record) && d.outcome.RequiresApproval? && env.approvals == Some(w)
      requires evidence.approver == None
      requires Stored()
      modifies this`record, this`ops, this`ticks, this`evidence
      ensures Stored()
      ensures SameCall(old(record), record) && NumbersOf(record) == NumbersOf(old(record))
      ensures Current(old(record)) ==> Current(record)
      ensures blocked.None? <==> Clear(env, request, d).Cleared? && env.up(AtAwaiting)
      ensures blocked.None? ==> record.attempts == old(record.attempts)
      ensures Reliable(env) ==> evidence == old(evidence).(approver := ApproverOf(env, request, d))
      ensures Reliable(env) ==>
                match Clear(env, request, d)
                case Blocked(states, x) => blocked == Some(x) && StatesOf(record) == StatesOf(old(record)) + states
                case Cleared(approval) =>
                  approval.Some? && StatesOf(record) == StatesOf(old(record)) + [AwaitingApproval]
    {
      hide Current, WaitOutcome, StatesOf, NumbersOf, SameCall, Stored;
      ghost var before := record;
      var ok := Transit(AwaitingApproval, None, AtAwaiting);
      if !ok {
        return Some(STORE_DOWN);
      }
      ghost var waiting := record;
      if !w.reachable {
        return Some(STORE_DOWN);
      }
      if !PlaneOk(env, AtCreateApproval) {
        return Some(Unexpected("control plane"));
      }
      var outcome := WaitOutcome(env, request, d, w);
      if outcome.Granted? {
        evidence := evidence.(approver := outcome.request.approver);
        return if PlaneOk(env, AtResolveApproval) then None else Some(Unexpected("control plane"));
      }
      ok := Refuse(d.reason);
      SameCallSteps(before, waiting, record);
      if !ok {
        return Some(STORE_DOWN);
      }
      blocked := Some(if outcome.Expired? then Raised(ApprovalTimeout, "Approval timed out; the call was denied")
                      else Raised(ApprovalRejected, outcome.reason));
    }

    /** Acts on the first decision; the exception raised instead of going on, if any. */
    method Authorise(request: Args, d: Policy.Decision) returns (blocked: Option<Exn>)
      requires 1 in NumbersOf(record) && evidence.approver == None
      requires Stored()
      modifies this`record, this`ops, this`ticks, this`evidence
      ensures Stored()
      ensures SameCall(old(record), record) && NumbersOf(record) == NumbersOf(old(record))
      ensures Current(old(record)) ==> Current(record)
      ensures blocked.None? <==> Clear(env, request, d).Cleared? && (d.outcome.RequiresApproval? ==> env.up(AtAwaiting))
      ensures blocked.None? ==> record.attempts == old(record.attempts)
      ensures Reliable(env) ==> evidence == old(evidence).(approver := ApproverOf(env, request, d))
      ensures Reliable(env) ==>
                match Clear(env, request, d)
                case Blocked(states, x) => blocked == Some(x) && StatesOf(record) == StatesOf(old(record)) + states
                case Cleared(approval) =>
                  StatesOf(record) == StatesOf(old(record)) + if approval.Some? then [AwaitingApproval] else []
    {
      hide Current, WaitOutcome, StatesOf;
      match d.outcome {
        case Allow =>
          blocked := None;
        case Deny =>
          var ok := Refuse(d.reason);
          blocked := Some(if ok then Raised(PolicyDenied, d.reason) else STORE_DOWN);
        case RequiresApproval =>
          if env.approvals == None {
            return Some(Raised(PolicyDenied, "Approval is required but no approval queue is configured"));
          }
          blocked := AwaitApproval(request, d, env.approvals.value);
      }
    }

    // ----- Execution -----

    /** The attempt variables are those of the k-th executor call, and both attempts that can be
        finished next exist. */
    ghost predicate Ready(k: nat)
      reads this
    {
      && latestAttempt == Number(env, k)
      && 1 in NumbersOf(record) && lastFinished in NumbersOf(record)
      && Current(record)
      && Stored()
    }

    /** The guarded block of one executor call, up to the recording of its outcome. */
    method GuardedBlock(k: nat, number: nat, arguments: Args) returns (outcome: Result<Out, Exn>)
      requires number == Number(env, k) && Entered(env, k)
      modifies this`invocations, this`evaluations
      ensures outcome == Body(env, k, arguments)
      ensures invocations == old(invocations)
                             + match Invoked(env, k, arguments)
                               case None => []
                               case Some(request) => [Invocation(k, number, request)]
      ensures evaluations == old(evaluations)
                             + match Evaluated(env, k, arguments)
                               case None => []
                               case Some(request) => [Evaluation(k, request, env.policy(k, request))]
    {
      if number > 1 {
        var repaired := Validate(env, arguments);
        if repaired.Err? {
          return Err(Gateway(repaired.error));
        }
        var answer := Evaluate(k, repaired.value);
        if answer.Err? {
          return Err(answer.error);
        }
        if !answer.value.outcome.Allow? {
          return Err(Raised(PolicyDenied, "Repaired arguments were denied by policy"));
        }
      }
      var validated := Validate(env, arguments);
      if validated.Err? {
        return Err(Gateway(validated.error));
      }
      invocations := invocations + [Invocation(k, number, validated.value)];
      outcome := env.handler(k, validated.value);
    }

    /** The store writes before the guarded block. */
    method BeginExecution(k: nat) returns (ok: bool)
      requires 1 <= k && Ready(k)
      modifies this`record, this`ops, this`ticks
      ensures SameCall(old(record), record)
      ensures Ready(k)
      ensures ok == Entered(env, k)
      ensures ok ==> Number(env, k) in NumbersOf(record)
      ensures NumbersOf(record) == NumbersOf(old(record)) + StartedBy(env, k)
      ensures Reliable(env) && Number(env, k) == k && Aligned(old(record), k) ==>
                && NumbersOf(record) == UpTo(k)
                && StatesOf(record) == StatesOf(old(record)) + [Executing]
                && WordsOf(record) == WordsOf(old(record))[..k - 1] + [None]
    {
      hide SameCall, StatesOf, NumbersOf, WordsOf, Current, Stored;
      ghost var before := record;
      NumbersAreNamed(record);
      SameCallSelf(record);
      if latestAttempt > 1 {
        var started := StartAttempt(latestAttempt, AtStart(k));
        if !started {
          return false;
        }
        assert NumbersOf(record)[|NumbersOf(record)| - 1] == latestAttempt;
      }
      ghost var begun := record;
      if Number(env, k) == k && Aligned(before, k) && Reliable(env) {
        BeginsAligned(before, begun, k);
      }
      ok := Transit(Executing, None, AtExecuting(k));
      SameCallSteps(before, begun, record);
    }

    /** Finishes the attempt according to the outcome of the guarded block. */
    method RecordOutcome(k: nat, number: nat, outcome: Result<Out, Exn>) returns (result: Result<Out, Exn>)
      requires number in NumbersOf(record)
      requires Stored()
      modifies this`record, this`ops, this`ticks
      ensures Stored()
      ensures SameCall(old(record), record) && record.transitions == old(record.transitions)
      ensures record.currentState == old(record.currentState) && StatesOf(record) == StatesOf(old(record))
      ensures NumbersOf(record) == NumbersOf(old(record))
      ensures Current(old(record)) ==> Current(record)
      ensures result == AfterRecording(env, k, outcome)
      ensures Reliable(env) && NumbersOf(record) == UpTo(|NumbersOf(record)|) && 1 <= number <= |NumbersOf(record)|
              && WordsOf(old(record))[number - 1] == None
              ==> WordsOf(record) == WordsOf(old(record))[number - 1 := Mark(result)]
    {
      result := outcome;
      if outcome.Ok? {
        var finished := FinishAttempt(number, "succeeded", None, AtFinishSucceeded(k));
        if !finished {
          var _ := FinishAttempt(number, "failed", Some("store"), AtFinishFailed(k));
          result := Err(STORE_DOWN);
        }
      } else if outcome.error.Gateway? {
        var finished := FinishAttempt(number, "failed", Some(outcome.error.error.message), AtFinishFailed(k));
        if !finished {
          result := Err(STORE_DOWN);
        }
      }
    }

    /** `execute_attempt`. */
    method ExecuteAttempt(k: nat, arguments: Args) returns (result: Result<Out, Exn>)
      requires 1 <= k && Ready(k)
      modifies this`record, this`ops, this`ticks, this`latestAttempt, this`lastFinished, this`invocations,
        this`evaluations
      ensures Ready(k + 1) && SameCall(old(record), record)
      ensures result == CallResult(env, k, arguments)
      ensures invocations == old(invocations)
                             + match Invoked(env, k, arguments)
                               case None => []
                               case Some(request) => [Invocation(k, Number(env, k), request)]
      ensures evaluations == old(evaluations)
                             + match Evaluated(env, k, arguments)
                               case None => []
                               case Some(request) => [Evaluation(k, request, env.policy(k, request))]
      ensures Entered(env, k) ==> lastFinished == Number(env, k)
      ensures NumbersOf(record) == NumbersOf(old(record)) + StartedBy(env, k)
      ensures Recorded(env, k, result, old(record), record)
    {
      NumberStep(env, k);
      hide Body, SameCall, StatesOf, WordsOf, NumbersOf, Current, AfterRecording, Number, Entered, Mark, StartedBy,
        Stored;
      ghost var before := record;
      var number := latestAttempt;
      var entered := BeginExecution(k);
      ghost var entering := record;
      if !entered {
        return Err(STORE_DOWN);
      }
      result := GuardedBlock(k, number, arguments);
      result := RecordOutcome(k, number, result);
      SameCallSteps(before, entering, record);
      lastFinished := number;
      latestAttempt := latestAttempt + 1;
    }

    /** Where the repair loop stands before its k-th executor call, given the earlier ones. */
    ghost predicate Progress(k: nat, calls: seq<Call<Out>>, before: Record, invoked: seq<Invocation>,
                             evaluated: seq<Evaluation>)
      reads this
    {
      && 1 <= k && |calls| == k - 1
      && Ready(k)
      && SameCall(before, record)
      && invocations == invoked + InvocationsOf(env, calls)
      && evaluations == evaluated + EvaluationsOf(env, calls)
      && (NumbersOf(before) == [1] ==> NumbersOf(record) == StartedNumbers(env, calls))
      && Logged(env, calls, before, record)
      && (Reliable(env) ==> lastFinished == Max(1, k - 1))
    }

    /** One executor call of the repair loop. */
    method LoopCall(k: nat, current: Args, now: real, ghost calls: seq<Call<Out>>,
                    ghost before: Record, ghost invoked: seq<Invocation>, ghost evaluated: seq<Evaluation>)
      returns (result: Result<Out, Exn>)
      requires Progress(k, calls, before, invoked, evaluated)
      modifies this`record, this`ops, this`ticks, this`latestAttempt, this`lastFinished, this`invocations,
        this`evaluations
      ensures result == CallResult(env, k, current)
      ensures Progress(k + 1, calls + [Call(k, current, now, result)], before, invoked, evaluated)
    {
      hide Logged, Recorded, StatesOf, WordsOf, NumbersOf, Current, SameCall, Number, Entered, CallResult, Evaluated,
          Invoked, StartedBy;
      ghost var start := record;
      ghost var call := Call(k, current, now, CallResult(env, k, current));
      assert (calls + [call])[..|calls|] == calls;
      if Reliable(env) {
        Lifecycle.NumbersAgree(env, k);
      }
      result := ExecuteAttempt(k, current);
      LoggedStep(env, calls, call, before, start, record);
      SameCallSteps(before, start, record);
    }

    /** `RepairLoop.run` on this call's closures. */
    method RunLoop(request: Args) returns (result: Result<(Out, nat), Exn>)
      requires Progress(1, [], record, invocations, evaluations)
      modifies this`record, this`ops, this`ticks, this`latestAttempt, this`lastFinished, this`invocations,
        this`evaluations
      ensures result == Looped(env, request).result
      ensures Progress(|Looped(env, request).calls| + 1, Looped(env, request).calls, old(record), old(invocations),
                       old(evaluations))
    {
      var ctx, w := LoopContext(env), LoopWorld(env);
      var now, current, attempt := 0.0, request, 1;
      ghost var calls: seq<Call<Out>> := [];
      ghost var run := Looped(env, request);
      hide AfterFailure, Progress, Loop, CallResult;
      while true
        invariant attempt >= 1
        invariant run.result == Loop(STANDARD, ctx, w, attempt, current, now, 0.0).result
        invariant run.calls == calls + Loop(STANDARD, ctx, w, attempt, current, now, 0.0).calls
        invariant |calls| == attempt - 1
        invariant Progress(attempt, calls, old(record), old(invocations), old(evaluations))
        decreases STANDARD.maxAttempts - attempt
      {
        var outcome := LoopCall(attempt, current, now, calls, old(record), old(invocations), old(evaluations));
        ghost var call := Call(attempt, current, now, outcome);
        LoopUnfolds(STANDARD, ctx, w, attempt, current, now, 0.0);
        if outcome.Ok? {
          return Ok((outcome.value, attempt));
        }
        var next := HandleFailure(STANDARD, ctx, w, attempt, current, outcome.error, now + w.executeTime(attempt), 0.0);
        if next.Stop? {
          return Err(next.error);
        }
        calls := calls + [call];
        now := next.at;
        current := next.arguments;
        attempt := attempt + 1;
      }
    }

    // ----- The whole call -----

    /** `write_audit`: never masks the client result. */
    method WriteAudit(word: string)
      modifies this`db, this`events, this`auditWrites
      ensures auditWrites == old(auditWrites) + if env.audit.Some? then 1 else 0
      ensures events == old(events) + NewEvents(env, word, old(auditWrites), record, evidence)
      ensures db == NewDb(env, old(auditWrites), record, old(db))
    {
      if env.audit == None {
        return;
      }
      var index, attempts := auditWrites, [];
      auditWrites := auditWrites + 1;
      if env.up(AtAudit(index)) {
        attempts := record.attempts;
        if env.plane.Some? && env.plane.value(AtAuditUpsert(index)) {
          var upserted := ControlPlane.Upserted(db, record);
          if upserted.Some? {
            db := upserted.value;
          }
        }
      }
      if env.audit.value(index) {
        events := events + [AuditEvent(word, attempts, evidence)];
      }
    }

    /** `fail`. */
    method Fail(x: Exn) returns (code: Code)
      requires lastFinished in NumbersOf(record)
      requires Stored()
      modifies this`record, this`ops, this`ticks, this`db, this`events, this`auditWrites
      ensures Stored()
      ensures SameCall(old(record), record)
      ensures Current(old(record)) ==> Current(record)
      ensures NumbersOf(record) == NumbersOf(old(record))
      ensures code == if env.up(AtFail) && env.up(AtFailFinish) then ErrorOf(x).code else StateStoreUnavailable
      ensures env.up(AtFail) ==> StatesOf(record) == StatesOf(old(record)) + [EndState(x)]
      ensures env.up(AtFail) ==> record.transitions[|record.transitions| - 1].error == Some(ErrorOf(x).message)
      ensures env.up(AtFail) && env.up(AtFailFinish) ==>
                && FinishedAs(record, lastFinished, EndWord(x), Some(ErrorOf(x).message))
                && (NumbersOf(record) == UpTo(|NumbersOf(record)|) && 1 <= lastFinished <= |NumbersOf(record)| ==>
                      WordsOf(record) == WordsOf(old(record))[lastFinished - 1 := Some(EndWord(x))])
                && events == old(events) + NewEvents(env, EndWord(x), old(auditWrites), record, evidence)
                && db == NewDb(env, old(auditWrites), record, old(db))
                && auditWrites == old(auditWrites) + if env.audit.Some? then 1 else 0
      ensures !(env.up(AtFail) && env.up(AtFailFinish)) ==> events == old(events) && db == old(db)
    {
      var error := ErrorOf(x);
      hide ErrorOf, WordsOf, SameCall, StatesOf, NumbersOf, Current, Stored, FinishedAs, NewEvents, NewDb;
      var denied := IsDenial(error.code);
      ghost var before := record;
      var ok := Transit(if denied then CallState.Denied else Failed, Some(error.message), AtFail);
      if !ok {
        return StateStoreUnavailable;
      }
      ghost var between := record;
      ok := FinishAttempt(lastFinished, if denied then "denied" else "failed", Some(error.message), AtFailFinish);
      SameCallSteps(before, between, record);
      if !ok {
        return StateStoreUnavailable;
      }
      WriteAudit(if denied then "denied" else "failed");
      code := error.code;
    }

    /** Nothing has happened to the call since it was created. */
    ghost predicate Initial()
      reads this
    {
      && record == NewRecord(env) && latestAttempt == 1 && lastFinished == 1 && auditWrites == 0
      && events == [] && evidence == NO_EVIDENCE && ops == [] && invocations == []
      && evaluations == []
    }

    /** Evaluates the first request and acts on the decision; the exception raised instead of going
        on, if any. */
    method Judge(request: Args) returns (blocked: Option<Exn>)
      requires 1 in NumbersOf(record) && evidence == NO_EVIDENCE
      requires Stored()
      modifies this`record, this`ops, this`ticks, this`evaluations, this`evidence
      ensures Stored()
      ensures SameCall(old(record), record) && NumbersOf(record) == NumbersOf(old(record))
      ensures Current(old(record)) ==> Current(record)
      ensures evaluations == old(evaluations) + [Evaluation(0, request, env.policy(0, request))]
      ensures var answer := env.policy(0, request);
              blocked.None? <==>
                && answer.Ok? && env.up(AtPolicyChecked) && Clear(env, request, answer.value).Cleared?
                && (answer.value.outcome.RequiresApproval? ==> env.up(AtAwaiting))
      ensures blocked.None? ==> record.attempts == old(record.attempts)
      ensures Reliable(env) ==>
                match env.policy(0, request)
                case Err(x) =>
                  blocked == Some(x) && StatesOf(record) == StatesOf(old(record)) && evidence == NO_EVIDENCE
                case Ok(d) =>
                  && evidence == Evidence(Some(d.outcome), Some(d.matchedRule), ApproverOf(env, request, d))
                  && match Clear(env, request, d)
                     case Blocked(states, x) =>
                       blocked == Some(x) && StatesOf(record) == StatesOf(old(record)) + ([PolicyChecked] + states)
                     case Cleared(a) =>
                       var waiting := if a.Some? then [AwaitingApproval] else [];
                       StatesOf(record) == StatesOf(old(record)) + ([PolicyChecked] + waiting)
    {
      hide Clear, ApproverOf, Stored, SameCall, StatesOf, NumbersOf, Current;
      ghost var before := record;
      var answer := Evaluate(0, request);
      SameCallSelf(record);
      if answer.Err? {
        return Some(answer.error);
      }
      evidence := Evidence(Some(answer.value.outcome), Some(answer.value.matchedRule), None);
      var ok := Transit(PolicyChecked, None, AtPolicyChecked);
      if !ok {
        return Some(STORE_DOWN);
      }
      ghost var checked := record;
      blocked := Authorise(request, answer.value);
      SameCallSteps(before, checked, record);
    }

    /** The pipeline up to the repair loop. */
    method Prepare() returns (prepared: Result<Args, Exn>)
      requires Initial() && Admitted(env)
      modifies this`record, this`ops, this`ticks, this`evaluations, this`evidence
      ensures Stored()
      ensures SameCall(NewRecord(env), record) && Current(record) && NumbersOf(record) == [1]
      ensures Reliable(env) ==> evidence == EvidenceOf(env)
      ensures prepared.Ok? <==> ReachesLoop(env)
      ensures prepared.Ok? ==> prepared == FirstRequest(env) && record.attempts == NewRecord(env).attempts
      ensures evaluations == if !ReachesPolicy(env) then []
                             else var request := FirstRequest(env).value;
                                  [Evaluation(0, request, env.policy(0, request))]
      ensures Reliable(env) ==>
                StatesOf(record) == Prologue(env) && (prepared.Err? ==> Verdict(env) == Err(prepared.error))
    {
      assert Stored() by { CreatedIsStored(env); }
      CreatedFacts(env);
      PrologueCases(env);
      ReachCases(env);
      hide FirstRequest, Clear, ApproverOf, Prologue, Verdict, EvidenceOf, ReachesPolicy, ReachesLoop, Admitted, Stored,
        SameCall, StatesOf, NumbersOf, Current, NewRecord;
      ghost var created := record;
      prepared := PrepareRequest();
      if prepared.Err? {
        return;
      }
      var ok := Transit(Validated, None, AtValidated);
      if !ok {
        return Err(STORE_DOWN);
      }
      ghost var validated := record;
      var blocked := Judge(prepared.value);
      SameCallSteps(created, validated, record);
      if blocked.Some? {
        return Err(blocked.value);
      }
    }

    /** The pipeline up to the end of the repair loop. */
    method Attempted() returns (result: Result<Out, Exn>)
      requires Initial() && Admitted(env)
      modifies this`record, this`ops, this`ticks, this`latestAttempt, this`lastFinished, this`evidence,
        this`invocations, this`evaluations
      ensures NumbersOf(record) == StartedNumbers(env, Calls(env))
      ensures Stored()
      ensures SameCall(NewRecord(env), record) && Current(record) && lastFinished in NumbersOf(record)
      ensures Reliable(env) ==> evidence == EvidenceOf(env)
      ensures invocations == Invocations(env) && evaluations == Evaluations(env)
      ensures result.Ok? ==> ReachesLoop(env) && Verdict(env) == result
      ensures Reliable(env) ==>
                && result == Verdict(env)
                && StatesOf(record) == Prologue(env) + Executings(|Calls(env)|)
                && NumbersOf(record) == UpTo(lastFinished) && lastFinished == Max(1, |Calls(env)|)
                && (Calls(env) != [] ==> WordsOf(record) == Marks(Calls(env)))
    {
      hide FirstRequest, Clear, EvidenceOf, Prologue, StatesOf, NumbersOf, WordsOf, Current, Marks, Mark, Looped,
          SameCall;
      ghost var first := record;
      var prepared := Prepare();
      if prepared.Err? {
        return Err(prepared.error);
      }
      ghost var cleared := record;
      InitialLog(env, cleared);
      var looped := RunLoop(prepared.value);
      SameCallSteps(first, cleared, record);
      VerdictOfLoop(env);
      Lifecycle.CallsFit(env);
      hide Verdict;
      result := if looped.Ok? then Ok(looped.value.0) else Err(looped.error);
    }

    /** The `try` block of `execute_tool_call`. */
    method Guarded() returns (result: Result<Out, Exn>)
      requires Initial() && Admitted(env)
      modifies this
      ensures NumbersOf(record) == StartedNumbers(env, Calls(env))
      ensures Stored()
      ensures Succeeded in StatesOf(record) ==> ReachesLoop(env) && Verdict(env).Ok?
      ensures SameIdentity(NewRecord(env), record) && Current(record) && lastFinished in NumbersOf(record)
      ensures invocations == Invocations(env) && evaluations == Evaluations(env)
      ensures result.Ok? ==>
                && ReachesLoop(env) && Verdict(env) == Ok(result.value)
                && record.currentState == Succeeded
      ensures env.audit.None? ==> db == old(db) && events == []
      ensures Reliable(env) ==>
                && result == Delivered(env) && evidence == EvidenceOf(env)
                && Finished(env, record, lastFinished, events, auditWrites)
                && db == (if Verdict(env).Ok? then NewDb(env, 0, record, old(db)) else old(db))
    {
      hide Verdict, Prologue, Calls, Invocations, Evaluations, EvidenceOf, NumbersOf, WordsOf, StatesOf, ReachesLoop,
          Marks, SameCall, SameIdentity, Current, Stored, StartedNumbers, Executings;
      var executed := Attempted();
      SameCallMeans(NewRecord(env), record);
      NewRecordMeans(env);
      if executed.Err? {
        return Err(executed.error);
      }
      ghost var before := record;
      var ok := Transit(Succeeded, None, AtSucceeded);
      SameIdentitySteps(NewRecord(env), before, record);
      if !ok {
        return Err(STORE_DOWN);
      }
      WriteAudit("succeeded");
      var output := executed.value;
      result := if env.serialises(output) then Ok(output) else Err(UNSERIALISABLE);
    }

    /** An output is what the handler returned for the last invocation. */
    ghost predicate OutputIsReturned(reply: Reply<Out>)
      reads this`invocations
    {
      reply.Output? ==>
        && invocations != []
        && var last := invocations[|invocations| - 1];
           env.handler(last.call, last.request) == Ok(reply.out)
    }

    /** An admitted call: the `try` block, and `fail` on its exceptions. */
    method Complete() returns (reply: Reply<Out>)
      requires Initial() && Admitted(env)
      modifies this
      ensures NumbersOf(record) == StartedNumbers(env, Calls(env))
      ensures Stored()
      ensures Succeeded in StatesOf(record) ==> ReachesLoop(env) && Verdict(env).Ok?
      ensures SameIdentity(NewRecord(env), record) && Current(record)
      ensures invocations == Invocations(env) && evaluations == Evaluations(env)
      ensures reply.Output? ==> ReachesLoop(env) && Verdict(env) == Ok(reply.out) && record.currentState == Succeeded
      ensures env.audit.None? ==> events == [] && db == old(db)
      ensures Reliable(env) ==>
                && reply == ReplyOf(env)
                && StatesOf(record) == States(env)
                && NumbersOf(record) == UpTo(Max(1, |Calls(env)|))
                && WordsOf(record) == Outcomes(env)
                && AuditAgrees(env, record, events, db)
      ensures OutputIsReturned(reply)
      ensures Reliable(env) ==> RefusalsAreFinal(reply, evaluations, invocations, record)
    {
      hide Verdict, Prologue, Calls, Invocations, Evaluations, States, Outcomes, FinalWord, ReachesLoop, Marks,
           SameCall, SameIdentity, StatesOf, WordsOf, Current, AuditAgrees, EndState, EndWord, EvidenceOf, FinishedAs,
           RefusalsAreFinal, Delivered, ReplyOf, ErrorOf, StartedNumbers, Stored;
      ReplyIsDelivered(env);
      ghost var was := db;
      var result := Guarded();
      if result.Ok? {
        if Reliable(env) {
          CallSucceeded(env, record, lastFinished, events, auditWrites, was, db);
          RefusedRepairsAreTold(env, record);
        }
        Answers.OutputIsTheHandlers(env);
        return Output(result.value);
      }
      ghost var earlier, before, writes, between := record, events, auditWrites, db;
      var code := Fail(result.error);
      SameCallMeans(earlier, record);
      SameIdentitySteps(NewRecord(env), earlier, record);
      if Reliable(env) {
        CallFailed(env, earlier, record, lastFinished, before, events, writes, between, db);
        RefusedRepairsAreTold(env, record);
      }
      reply := ErrorReply(code);
    }

    /** `execute_tool_call`.
        Whatever fails: the handler and the policy are asked exactly what `Invocations` and
        `Evaluations` say, and an output is returned only when the verdict is that output and
        SUCCEEDED is recorded.
        On a reliable store: the reply, the transitions and the attempt log are those of
        `Orchestrator`; and with an audit logger there is one audit record, or two when the
        output does not serialise, the last of which carries the attempts of the record, as do
        the durable rows when that upsert succeeds.  Without an audit logger the durable rows
        keep the history of admission. */
    method Execute() returns (reply: Reply<Out>)
      requires Initial()
      modifies this
      ensures NumbersOf(record) == StartedNumbers(env, Calls(env))
      ensures Stored()
      ensures Succeeded in StatesOf(record) ==> ReachesLoop(env) && Verdict(env).Ok?
      ensures SameIdentity(NewRecord(env), record) && Current(record)
      ensures invocations == Invocations(env) && evaluations == Evaluations(env)
      ensures reply.Output? ==> ReachesLoop(env) && Verdict(env) == Ok(reply.out) && record.currentState == Succeeded
      ensures OutputIsReturned(reply)
      ensures Reliable(env) ==> RefusalsAreFinal(reply, evaluations, invocations, record)
      ensures !env.up(AtCreate) ==>
                reply == ErrorReply(StateStoreUnavailable) && record == NewRecord(env) && db == old(db)
      ensures env.up(AtCreate) && !PlaneOk(env, AtAdmission) ==>
                reply == ErrorReply(ToolExecutionFailed) && record == NewRecord(env) && db == old(db)
      ensures env.audit.None? ==>
                events == [] && db == if Admitted(env) then AdmittedDb(env, old(db)) else old(db)
      ensures Reliable(env) && Admitted(env) ==>
                && reply == ReplyOf(env)
                && StatesOf(record) == States(env)
                && NumbersOf(record) == UpTo(Max(1, |Calls(env)|))
                && WordsOf(record) == Outcomes(env)
                && AuditAgrees(env, record, events, db)
    {
      assert Stored() by { CreatedIsStored(env); }
      CreatedFacts(env);
      hide Verdict, FirstRequest, States, Outcomes, Calls, ReplyOf, AuditAgrees, EvidenceOf, Invocations, Evaluations,
        ReachesLoop, StartedNumbers, StatesOf, NumbersOf, WordsOf, SameIdentity, Current, Stored, AdmittedDb, Reliable;
      if !Admitted(env) {
        NotAdmitted(env);
      }
      if !env.up(AtCreate) {
        return ErrorReply(StateStoreUnavailable);
      }
      if env.plane.Some? {
        if !env.plane.value(AtAdmission) {
          return ErrorReply(ToolExecutionFailed);
        }
        db := AdmittedDb(env, db);
      }
      hide OutputIsReturned, RefusalsAreFinal;
      reply := Complete();
    }
  }
}
