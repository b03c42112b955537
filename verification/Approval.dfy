/** gateway/hitl/queue.py: pending approvals, operator decisions, and the bounded wait. */
module Approval {
  import opened Common

  datatype Verdict = Approved | Rejected

  datatype Request = Request(approvalId: string, callId: string, toolName: string, arguments: Args,
                             matchedRule: string, decision: Option<Verdict>,
                             approver: Option<string>, reason: Option<string>)

  /** `create_approval_request`. */
  function CreateApprovalRequest(approvalId: string, callId: string, toolName: string, arguments: Args,
                                 matchedRule: string): Request {
    Request(approvalId, callId, toolName, arguments, matchedRule, None, None, None)
  }

  type Queue = map<string, Request>

  /** An operator's `decide` call. */
  datatype Decision = Decision(approvalId: string, approved: bool, approver: string, reason: string)

  function Decided(r: Request, d: Decision): Request {
    r.(decision := Some(if d.approved then Approved else Rejected), approver := Some(d.approver),
       reason := Some(d.reason))
  }

  /** A decision takes effect when it gives a reason and its request exists; a later one
      replaces an earlier one. */
  predicate Effective(q: Queue, d: Decision) {
    !Blank(d.reason) && d.approvalId in q
  }

  function Decide(q: Queue, d: Decision): Queue {
    if Effective(q, d) then q[d.approvalId := Decided(q[d.approvalId], d)] else q
  }

  // ----- Waiting -----

  /** What happens while a call waits: an operator decides, some other call submits a request,
      the waiter polls, or its deadline passes. */
  datatype Turn = Operator(decision: Decision) | Other(request: Request) | Poll | Deadline

  datatype Outcome = Granted(request: Request) | Refused(reason: string) | Expired

  function AfterTurn(q: Queue, t: Turn): Queue {
    match t
    case Operator(d) => Decide(q, d)
    case Other(r) => q[r.approvalId := r]
    case _ => q
  }

  function After(q: Queue, turns: seq<Turn>): Queue {
    if turns == [] then q else AfterTurn(After(q, turns[..|turns| - 1]), turns[|turns| - 1])
  }

  /** What a poll sees. */
  function Seen(q: Queue, id: string): Option<Outcome> {
    if id !in q then None
    else match q[id].decision
         case None => None
         case Some(Approved) => Some(Granted(q[id]))
         case Some(Rejected) => Some(Refused(if q[id].reason.Some? && q[id].reason.value != "" then q[id].reason.value
                                             else "The approval was rejected"))
  }

  /** The turn at which the wait ends: the first deadline, or the first poll that sees a
      decision. */
  predicate EndsAt(q: Queue, id: string, turns: seq<Turn>, n: nat) {
    n < |turns| && (turns[n].Deadline? || (turns[n].Poll? && Seen(After(q, turns[..n]), id).Some?))
  }

  /** `wait`; running out of turns counts as the deadline. */
  function Wait(q: Queue, id: string, turns: seq<Turn>): Outcome
    decreases |turns|
  {
    if turns == [] then Expired
    else match turns[0]
         case Deadline => Expired
         case Poll => (match Seen(q, id) case Some(o) => o case None => Wait(q, id, turns[1..]))
         case _ => Wait(AfterTurn(q, turns[0]), id, turns[1..])
  }

  lemma {:induction false} AfterSplits(q: Queue, first: Turn, rest: seq<Turn>)
    ensures After(q, [first] + rest) == After(AfterTurn(q, first), rest)
  {
    var whole := [first] + rest;
    if rest == [] {
      assert whole[..0] == [] && whole[0] == first;
    } else {
      assert whole[..|whole| - 1] == [first] + rest[..|rest| - 1];
      AfterSplits(q, first, rest[..|rest| - 1]);
    }
  }

  /** The outcome is what the queue shows at the turn that ends the wait, and nothing that
      happens after it matters. */
  lemma {:induction false} WaitIsDecidedOnce(q: Queue, id: string, turns: seq<Turn>, n: nat)
    requires EndsAt(q, id, turns, n) && forall m | 0 <= m < n :: !EndsAt(q, id, turns, m)
    ensures Wait(q, id, turns) == if turns[n].Deadline? then Expired else Seen(After(q, turns[..n]), id).value
    decreases n
  {
    if n > 0 {
      assert !EndsAt(q, id, turns, 0) && turns[..0] == [];
      var q1, rest := AfterTurn(q, turns[0]), turns[1..];
      forall m | 0 <= m < n ensures EndsAt(q1, id, rest, m) == EndsAt(q, id, turns, m + 1) {
        assert turns[..m + 1] == [turns[0]] + rest[..m];
        AfterSplits(q, turns[0], rest[..m]);
      }
      WaitIsDecidedOnce(q1, id, rest, n - 1);
      assert turns[..n] == [turns[0]] + rest[..n - 1];
      AfterSplits(q, turns[0], rest[..n - 1]);
    } else {
      assert turns[..0] == [];
    }
  }

  /** A wait that no turn ends expires. */
  lemma {:induction false} WaitExpires(q: Queue, id: string, turns: seq<Turn>)
    requires forall m | 0 <= m < |turns| :: !EndsAt(q, id, turns, m)
    ensures Wait(q, id, turns) == Expired
    decreases |turns|
  {
    if turns != [] {
      assert !EndsAt(q, id, turns, 0) && turns[..0] == [];
      var q1, rest := AfterTurn(q, turns[0]), turns[1..];
      forall m | 0 <= m < |rest| ensures !EndsAt(q1, id, rest, m) {
        assert !EndsAt(q, id, turns, m + 1);
        assert turns[..m + 1] == [turns[0]] + rest[..m];
        AfterSplits(q, turns[0], rest[..m]);
      }
      WaitExpires(q1, id, rest);
    }
  }

  /** No other submission reuses the approval id. */
  predicate IdUnique(id: string, turns: seq<Turn>) {
    forall n | 0 <= n < |turns| :: turns[n].Other? ==> turns[n].request.approvalId != id
  }

  /** The decision standing at the end: the last one for this id with a reason. */
  function Standing(id: string, turns: seq<Turn>): Option<Decision> {
    if turns == [] then None
    else match turns[|turns| - 1]
         case Operator(d) =>
           if d.approvalId == id && !Blank(d.reason) then Some(d) else Standing(id, turns[..|turns| - 1])
         case _ => Standing(id, turns[..|turns| - 1])
  }

  /** The queue shows the submitted request with the standing decision, and nothing else about
      it ever changes. */
  lemma {:induction false} QueueShowsStanding(q: Queue, r: Request, turns: seq<Turn>)
    requires r.decision.None? && IdUnique(r.approvalId, turns)
    ensures var id := r.approvalId; var q' := After(q[id := r], turns);
            && id in q'
            && q'[id] == match Standing(id, turns) case None => r case Some(d) => Decided(r, d)
  {
    if turns != [] {
      QueueShowsStanding(q, r, turns[..|turns| - 1]);
    }
  }

  /** The standing decision was made, with a reason. */
  lemma {:induction false} StandingWasMade(id: string, turns: seq<Turn>) returns (n: nat)
    requires Standing(id, turns).Some?
    ensures n < |turns| && turns[n] == Operator(Standing(id, turns).value)
    ensures Standing(id, turns).value.approvalId == id && !Blank(Standing(id, turns).value.reason)
  {
    n := |turns| - 1;
    if !(turns[n].Operator? && turns[n].decision.approvalId == id && !Blank(turns[n].decision.reason)) {
      n := StandingWasMade(id, turns[..n]);
    }
  }

  /** Approval fidelity: a request is granted exactly when, at the first poll that sees a
      decision before the deadline, the standing decision approves; the granted request is the
      submitted one with that decision.  So an approval without a reason, after the deadline, or
      overtaken by a rejection never grants. */
  lemma GrantedExactlyWhenApproved(q: Queue, r: Request, turns: seq<Turn>)
    requires r.decision.None? && IdUnique(r.approvalId, turns)
    ensures Wait(q[r.approvalId := r], r.approvalId, turns).Granted?
            <==> exists n | 0 <= n < |turns| :: ApprovedAt(r.approvalId, turns, n)
    ensures forall n | 0 <= n < |turns| && ApprovedAt(r.approvalId, turns, n) ::
              Wait(q[r.approvalId := r], r.approvalId, turns)
              == Granted(Decided(r, Standing(r.approvalId, turns[..n]).value))
  {
    var id, q0 := r.approvalId, q[r.approvalId := r];
    forall n | 0 <= n < |turns|
      ensures EndsAt(q0, id, turns, n) <==> EndsHere(id, turns, n)
    {
      QueueShowsStanding(q, r, turns[..n]);
    }
    forall n | 0 <= n < |turns| && ApprovedAt(id, turns, n)
      ensures Wait(q0, id, turns) == Granted(Decided(r, Standing(id, turns[..n]).value))
    {
      WaitIsDecidedOnce(q0, id, turns, n);
      QueueShowsStanding(q, r, turns[..n]);
    }
    if Wait(q0, id, turns).Granted? {
      if forall n | 0 <= n < |turns| :: !EndsAt(q0, id, turns, n) {
        WaitExpires(q0, id, turns);
      } else {
        var n := FirstEnd(q0, id, turns, |turns|);
        WaitIsDecidedOnce(q0, id, turns, n);
        QueueShowsStanding(q, r, turns[..n]);
        assert ApprovedAt(id, turns, n);
      }
    }
  }

  /** A deadline, or a poll with a standing decision. */
  predicate EndsHere(id: string, turns: seq<Turn>, n: nat)
    requires n < |turns|
  {
    turns[n].Deadline? || (turns[n].Poll? && Standing(id, turns[..n]).Some?)
  }

  /** The wait ends at poll `n`, where the standing decision approves. */
  predicate ApprovedAt(id: string, turns: seq<Turn>, n: nat)
    requires n < |turns|
  {
    && turns[n].Poll?
    && Standing(id, turns[..n]).Some? && Standing(id, turns[..n]).value.approved
    && forall m | 0 <= m < n :: !EndsHere(id, turns, m)
  }

  lemma {:induction false} FirstEnd(q: Queue, id: string, turns: seq<Turn>, limit: nat) returns (n: nat)
    requires limit <= |turns| && exists m | 0 <= m < limit :: EndsAt(q, id, turns, m)
    ensures EndsAt(q, id, turns, n) && forall m | 0 <= m < n :: !EndsAt(q, id, turns, m)
  {
    if exists m | 0 <= m < limit - 1 :: EndsAt(q, id, turns, m) {
      n := FirstEnd(q, id, turns, limit - 1);
    } else {
      n := limit - 1;
    }
  }

  /** Every way a wait ends, by the turns: the first deadline, or the first poll with a standing
      decision, whichever comes first; an approval returns the submitted request with the decision's
      approver and reason, a rejection is raised with its reason. */
  lemma WaitEndsExactly(q: Queue, r: Request, turns: seq<Turn>, n: nat)
    requires r.decision.None? && IdUnique(r.approvalId, turns)
    requires n < |turns| && EndsHere(r.approvalId, turns, n)
    requires forall m | 0 <= m < n :: !EndsHere(r.approvalId, turns, m)
    ensures var outcome := Wait(q[r.approvalId := r], r.approvalId, turns);
            if turns[n].Deadline? then outcome == Expired
            else var d := Standing(r.approvalId, turns[..n]).value;
                 if !d.approved then outcome == Refused(d.reason)
                 else outcome == Granted(Request(r.approvalId, r.callId, r.toolName, r.arguments, r.matchedRule,
                                                 Some(Approved), Some(d.approver), Some(d.reason)))
  {
    var id, q0 := r.approvalId, q[r.approvalId := r];
    forall m | 0 <= m < |turns| ensures EndsAt(q0, id, turns, m) <==> EndsHere(id, turns, m) {
      QueueShowsStanding(q, r, turns[..m]);
    }
    WaitIsDecidedOnce(q0, id, turns, n);
    QueueShowsStanding(q, r, turns[..n]);
    if turns[n].Poll? {
      var made := StandingWasMade(id, turns[..n]);
    }
    hide Wait;
  }

  /** And a wait that never comes to either ends with its time. */
  lemma WaitRunsOut(q: Queue, r: Request, turns: seq<Turn>)
    requires r.decision.None? && IdUnique(r.approvalId, turns)
    requires forall m | 0 <= m < |turns| :: !EndsHere(r.approvalId, turns, m)
    ensures Wait(q[r.approvalId := r], r.approvalId, turns) == Expired
  {
    var id, q0 := r.approvalId, q[r.approvalId := r];
    forall m | 0 <= m < |turns| ensures !EndsAt(q0, id, turns, m) {
      assert !EndsHere(id, turns, m);
      QueueShowsStanding(q, r, turns[..m]);
    }
    WaitExpires(q0, id, turns);
  }

  /** A decision that arrives after the wait has ended changes nothing. */
  lemma LateTurnsAreIgnored(q: Queue, id: string, turns: seq<Turn>, late: seq<Turn>)
    requires exists n | 0 <= n < |turns| :: EndsAt(q, id, turns, n)
    ensures Wait(q, id, turns + late) == Wait(q, id, turns)
  {
    var n := FirstEnd(q, id, turns, |turns|);
    forall m | 0 <= m <= n ensures EndsAt(q, id, turns + late, m) == EndsAt(q, id, turns, m) {
      assert (turns + late)[..m] == turns[..m];
    }
    WaitIsDecidedOnce(q, id, turns, n);
    WaitIsDecidedOnce(q, id, turns + late, n);
    assert (turns + late)[..n] == turns[..n];
  }

  // ----- The in-memory queue -----

  class InMemoryApprovalQueue {
    var requests: Queue

    constructor ()
      ensures requests == map[]
    {
      requests := map[];
    }

    method Submit(request: Request)
      modifies this
      ensures requests == old(requests)[request.approvalId := request]
    {
      requests := requests[request.approvalId := request];
    }

    method DecideRequest(d: Decision) returns (r: Result<(), Exn>)
      modifies this
      ensures requests == Decide(old(requests), d)
      ensures r.Ok? <==> Effective(old(requests), d)
      ensures r.Ok? ==>
                var before := old(requests)[d.approvalId];
                requests == old(requests)[d.approvalId :=
                  Request(before.approvalId, before.callId, before.toolName, before.arguments, before.matchedRule,
                          Some(if d.approved then Approved else Rejected), Some(d.approver), Some(d.reason))]
      ensures r.Err? ==> requests == old(requests)
    {
      if Blank(d.reason) {
        return Err(Raised(ApprovalRejected, "An approval or rejection requires a reason"));
      }
      if d.approvalId !in requests {
        return Err(Raised(ApprovalTimeout, "Approval timed out; the call was denied"));
      }
      var request := requests[d.approvalId];
      requests := requests[d.approvalId := request.(
        decision := Some(if d.approved then Approved else Rejected),
        approver := Some(d.approver),
        reason := Some(d.reason))];
      r := Ok(());
    }

    /** The waiter's loop, with everything that happens meanwhile. */
    method WaitFor(id: string, turns: seq<Turn>) returns (outcome: Outcome)
      modifies this
      ensures outcome == Wait(old(requests), id, turns)
    {
      var rest := turns;
      while rest != []
        invariant Wait(requests, id, rest) == Wait(old(requests), id, turns)
        decreases |rest|
      {
        var turn := rest[0];
        match turn {
          case Deadline =>
            return Expired;
          case Operator(d) =>
            var _ := DecideRequest(d);
          case Other(r) =>
            Submit(r);
          case Poll =>
            if id in requests && requests[id].decision.Some? {
              var request := requests[id];
              if request.decision.value != Approved {
                return Refused(if request.reason.Some? && request.reason.value != "" then request.reason.value
                               else "The approval was rejected");
              }
              return Granted(request);
            }
        }
        rest := rest[1..];
      }
      outcome := Expired;
    }
  }

  // ----- The Redis queue: `decide` reads, then writes -----

  /** A `decide` call in progress, with the request it has read. */
  datatype Decider = Decider(decision: Decision, read: Option<Request>, done: bool)

  datatype Shared = Shared(cells: Queue, deciders: seq<Decider>, writes: seq<Turn>)

  /** `Peek` and `TimesUp` are the waiter's: it reads its request, or its deadline passes. */
  datatype Step =
    | NewRequest(request: Request)
    | NewDecider(decision: Decision)
    | Read(d: nat)
    | Write(d: nat)
    | Peek(id: string)
    | TimesUp(id: string)

  /** Requests have fresh ids, and a decider that finds no request, or gives no reason, stops. */
  predicate Enabled(s: Shared, step: Step) {
    match step
    case NewRequest(r) => r.approvalId !in s.cells
    case NewDecider(d) => !Blank(d.reason)
    case Read(d) => d < |s.deciders| && s.deciders[d].read.None? && s.deciders[d].decision.approvalId in s.cells
    case Write(d) => d < |s.deciders| && s.deciders[d].read.Some? && !s.deciders[d].done
    case _ => true
  }

  function Apply(s: Shared, step: Step): Shared {
    if !Enabled(s, step) then s
    else match step
      case NewRequest(r) => s.(cells := s.cells[r.approvalId := r], writes := s.writes + [Other(r)])
      case NewDecider(d) => s.(deciders := s.deciders + [Decider(d, None, false)])
      case Read(d) =>
        s.(deciders := s.deciders[d := s.deciders[d].(read := Some(s.cells[s.deciders[d].decision.approvalId]))])
      case Write(d) =>
        var decision := s.deciders[d].decision;
        s.(cells := s.cells[decision.approvalId := Decided(s.deciders[d].read.value, decision)],
           deciders := s.deciders[d := s.deciders[d].(done := true)],
           writes := s.writes + [Operator(decision)])
      case _ => s
  }

  function Run(steps: seq<Step>): Shared {
    if steps == [] then Shared(map[], [], [])
    else Apply(Run(steps[..|steps| - 1]), steps[|steps| - 1])
  }

  /** What a decider has read differs from what is stored only in the decision fields. */
  predicate ReadOk(s: Shared, d: Decider) {
    && !Blank(d.decision.reason)
    && (d.read.Some? ==>
          && d.decision.approvalId in s.cells
          && Decided(d.read.value, d.decision) == Decided(s.cells[d.decision.approvalId], d.decision))
  }

  lemma AfterAppend(q: Queue, turns: seq<Turn>, t: Turn)
    ensures After(q, turns + [t]) == AfterTurn(After(q, turns), t)
  {
    assert (turns + [t])[..|turns|] == turns;
  }

  predicate Atomic(s: Shared) {
    s.cells == After(map[], s.writes) && forall d | 0 <= d < |s.deciders| :: ReadOk(s, s.deciders[d])
  }

  lemma WriteIsAtomic(s: Shared, d: nat)
    requires Atomic(s) && Enabled(s, Write(d))
    ensures Atomic(Apply(s, Write(d)))
  {
    assert ReadOk(s, s.deciders[d]);
    AfterAppend(map[], s.writes, Operator(s.deciders[d].decision));
    var s' := Apply(s, Write(d));
    hide After;
    forall e | 0 <= e < |s'.deciders| ensures ReadOk(s', s'.deciders[e]) {
      assert ReadOk(s, s.deciders[e]);
    }
  }

  lemma StepIsAtomic(s: Shared, step: Step)
    requires Atomic(s) && !step.Write?
    ensures Atomic(Apply(s, step))
  {
    if step.NewRequest? {
      AfterAppend(map[], s.writes, Other(step.request));
    }
    var s' := Apply(s, step);
    hide After;
    forall d | 0 <= d < |s'.deciders| ensures ReadOk(s', s'.deciders[d]) {
      if d < |s.deciders| { assert ReadOk(s, s.deciders[d]); }
    }
  }

  /** However the reads and writes of concurrent deciders interleave, the stored requests are
      those of the atomic queue after the same decisions in the order of their writes. */
  lemma {:induction false} RedisDecisionsAreAtomic(steps: seq<Step>)
    ensures Atomic(Run(steps))
  {
    if steps != [] {
      var s, step := Run(steps[..|steps| - 1]), steps[|steps| - 1];
      RedisDecisionsAreAtomic(steps[..|steps| - 1]);
      if !step.Write? {
        StepIsAtomic(s, step);
      } else if Enabled(s, step) {
        WriteIsAtomic(s, step.d);
      }
    }
  }

  // ----- Waiting on Redis -----

  /** `RedisApprovalQueue.wait` for this request, amid the steps of everyone else; running out of
      steps counts as the deadline. */
  function RedisWait(s: Shared, id: string, steps: seq<Step>): Outcome
    decreases |steps|
  {
    if steps == [] then Expired
    else if steps[0] == TimesUp(id) then Expired
    else if steps[0] == Peek(id) && Seen(s.cells, id).Some? then Seen(s.cells, id).value
    else RedisWait(Apply(s, steps[0]), id, steps[1..])
  }

  /** The turn that a step is for this waiter, if it is one. */
  function TurnOf(s: Shared, id: string, step: Step): seq<Turn> {
    if !Enabled(s, step) then []
    else match step
      case NewRequest(r) => [Other(r)]
      case Write(d) => [Operator(s.deciders[d].decision)]
      case Peek(i) => if i == id then [Poll] else []
      case TimesUp(i) => if i == id then [Deadline] else []
      case _ => []
  }

  function TurnsFor(s: Shared, id: string, steps: seq<Step>): (turns: seq<Turn>)
    decreases |steps|
  {
    if steps == [] then [] else TurnOf(s, id, steps[0]) + TurnsFor(Apply(s, steps[0]), id, steps[1..])
  }

  lemma AnyStepIsAtomic(s: Shared, step: Step)
    requires Atomic(s)
    ensures Atomic(Apply(s, step))
  {
    if !step.Write? {
      StepIsAtomic(s, step);
    } else if Enabled(s, step) {
      WriteIsAtomic(s, step.d);
    }
  }

  /** A step changes the stored requests as its turn does. */
  lemma StepIsTurn(s: Shared, id: string, step: Step)
    requires Atomic(s)
    ensures var turn := TurnOf(s, id, step);
            Apply(s, step).cells == if turn == [] then s.cells else AfterTurn(s.cells, turn[0])
  {
    if step.Write? && Enabled(s, step) {
      assert ReadOk(s, s.deciders[step.d]);
    }
    hide After;
  }

  /** Waiting on Redis is waiting on the atomic queue. */
  lemma {:induction false} RedisWaitRefines(s: Shared, id: string, steps: seq<Step>)
    requires Atomic(s)
    ensures RedisWait(s, id, steps) == Wait(s.cells, id, TurnsFor(s, id, steps))
    decreases |steps|
  {
    if steps != [] {
      var rest := TurnsFor(Apply(s, steps[0]), id, steps[1..]);
      AnyStepIsAtomic(s, steps[0]);
      StepIsTurn(s, id, steps[0]);
      RedisWaitRefines(Apply(s, steps[0]), id, steps[1..]);
      var turn := TurnOf(s, id, steps[0]);
      hide Atomic, Apply, Seen;
      if turn == [] {
        assert turn + rest == rest;
      } else {
        assert (turn + rest)[0] == turn[0] && (turn + rest)[1..] == rest;
      }
    }
  }

  lemma {:induction false} IdStaysUnique(s: Shared, id: string, steps: seq<Step>)
    requires id in s.cells
    ensures IdUnique(id, TurnsFor(s, id, steps))
    decreases |steps|
  {
    if steps != [] {
      IdStaysUnique(Apply(s, steps[0]), id, steps[1..]);
    }
  }

  /** Approval fidelity on Redis: whatever else has happened and goes on, a submitted request is
      granted exactly when the decision standing at the poll that ends the wait approves, and
      then it is the submitted one with that decision. */
  lemma RedisGrantsExactlyWhenApproved(before: seq<Step>, r: Request, steps: seq<Step>)
    requires r.decision.None? && r.approvalId !in Run(before).cells
    ensures var s := Apply(Run(before), NewRequest(r)); var id := r.approvalId;
            var turns := TurnsFor(s, id, steps); var outcome := RedisWait(s, id, steps);
            && (outcome.Granted? <==> exists n | 0 <= n < |turns| :: ApprovedAt(id, turns, n))
            && forall n | 0 <= n < |turns| && ApprovedAt(id, turns, n) ::
                 outcome == Granted(Decided(r, Standing(id, turns[..n]).value))
  {
    var s0, id := Run(before), r.approvalId;
    var s := Apply(s0, NewRequest(r));
    RedisDecisionsAreAtomic(before);
    AnyStepIsAtomic(s0, NewRequest(r));
    RedisWaitRefines(s, id, steps);
    IdStaysUnique(s, id, steps);
    GrantedExactlyWhenApproved(s0.cells, r, TurnsFor(s, id, steps));
    hide Atomic, Wait, TurnsFor, RedisWait, Run;
  }
}
