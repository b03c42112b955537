/** What the worker protocol reports to its circuit breaker, step by step and over whole runs, and
    the order in which it takes jobs. */
module WorkerReports {
  import opened Common
  import Circuit
  import opened Workers
  import opened WorkerInvariant
  import opened WorkerSafety

  // ----- What the breaker hears -----

  predicate CircuitOpen(cfg: Config, s: State, now: int) {
    s.breaker.openedAt.Some? && now - s.breaker.openedAt.value < cfg.limits.resetTimeout
  }

  /** A submission that everything else would admit finds the queue full. */
  predicate FindsQueueFull(cfg: Config, s: State, job: Job, now: int) {
    && s.untracked < |s.tasks| && !CircuitOpen(cfg, s, now)
    && job.authToken == cfg.sign(job.(authToken := ""))
    && job.key !in s.results && job.key !in s.inflight
    && 0 < cfg.queueSize <= |s.queue|
  }

  /** A submission asks the breaker first, and reports a failure exactly when it finds the queue
      full; to a service without workers it reports nothing. */
  lemma SubmitReports(cfg: Config, s: State, job: Job, now: int)
    ensures Submit(cfg, s, job, now).0.breakerLog
            == if |s.tasks| <= s.untracked then s.breakerLog
               else if FindsQueueFull(cfg, s, job, now) then s.breakerLog + [Circuit.Asked(now), Circuit.Failed(now)]
               else s.breakerLog + [Circuit.Asked(now)]
  {
    var asked := Report(cfg, s, Circuit.Asked(now));
    ReportTouches(cfg, s, Circuit.Asked(now));
    ReportTouches(cfg, asked, Circuit.Failed(now));
    ReportKeepsTables(cfg, s, Circuit.Asked(now));
    hide Report;
    assert s.breakerLog + [Circuit.Asked(now)] + [Circuit.Failed(now)]
        == s.breakerLog + [Circuit.Asked(now), Circuit.Failed(now)];
  }

  lemma ReportKeepsTables(cfg: Config, s: State, e: Circuit.Event)
    ensures Report(cfg, s, e).inflight == s.inflight && Report(cfg, s, e).queue == s.queue
  {
  }

  /** A leader reports a success for a completed execution, a failure for a failed one, and nothing
      when `stop` broke its future. */
  lemma ResumeReports(cfg: Config, s: State, t: nat, now: int)
    requires t < |s.admissions| && (s.admissions[t].future.Resolved? || s.admissions[t].future.Broken?)
    ensures LeaderResumes(cfg, s, t, now).breakerLog
            == s.breakerLog + match s.admissions[t].future
                              case Resolved(Succeeded(_, _)) => [Circuit.Succeeded]
                              case Resolved(Failed(_, _)) => [Circuit.Failed(now)]
                              case _ => []
  {
    hide Circuit.React;
  }

  /** A leader whose timer fired reports a failure. */
  lemma TimeoutReports(cfg: Config, s: State, t: nat, now: int)
    requires t < |s.admissions|
    ensures LeaderTimesOut(cfg, s, t, now).breakerLog == s.breakerLog + [Circuit.Failed(now)]
  {
    hide Circuit.React;
  }

  /** This step is a failure that the breaker must hear of: a full queue, a timeout, or a failed
      result. */
  predicate Complains(cfg: Config, s: State, step: Step) {
    match step
    case DoSubmit(job, now) => FindsQueueFull(cfg, s, job, now)
    case DoTimeOut(t, _) => t < |s.admissions| && s.admissions[t].leader.Expired?
    case DoResume(t, _) =>
      && t < |s.admissions| && s.admissions[t].leader.Waiting?
      && s.admissions[t].future.Resolved? && s.admissions[t].future.result.Failed?
    case _ => false
  }

  /** This step tells a submitter a success. */
  predicate TellsSuccess(s: State, step: Step) {
    && step.DoResume? && step.ticket < |s.admissions| && s.admissions[step.ticket].leader.Waiting?
    && s.admissions[step.ticket].future.Resolved? && s.admissions[step.ticket].future.result.Succeeded?
  }

  /** Every step's events: one failure for a complaint, one success for a success, and apart from
      them only questions. */
  lemma StepReports(cfg: Config, s: State, step: Step) returns (events: seq<Circuit.Event>)
    ensures Apply(cfg, s, step).breakerLog == s.breakerLog + events
    ensures Circuit.FailuresIn(events) == if Complains(cfg, s, step) then 1 else 0
    ensures (exists i | 0 <= i < |events| :: events[i].Succeeded?) <==> TellsSuccess(s, step)
    ensures forall i | 0 <= i < |events| && !events[i].Succeeded? ::
              (step.DoSubmit? || step.DoTimeOut? || step.DoResume?) && events[i].at == step.now
  {
    FewFailures();
    events := [];
    hide Submit, LeaderTimesOut, LeaderResumes, Circuit.FailuresIn;
    if Enabled(s, step) {
      match step
      case DoSubmit(job, now) =>
        SubmitReports(cfg, s, job, now);
        events := if |s.tasks| <= s.untracked then []
                  else if FindsQueueFull(cfg, s, job, now) then [Circuit.Asked(now), Circuit.Failed(now)]
                  else [Circuit.Asked(now)];
        FewEvents(now);
      case DoTimeOut(t, now) =>
        TimeoutReports(cfg, s, t, now);
        events := [Circuit.Failed(now)];
        FewEvents(now);
      case DoResume(t, now) =>
        ResumeReports(cfg, s, t, now);
        events := match s.admissions[t].future
                  case Resolved(Succeeded(_, _)) => [Circuit.Succeeded]
                  case Resolved(Failed(_, _)) => [Circuit.Failed(now)]
                  case _ => [];
        FewEvents(now);
        assert TellsSuccess(s, step) ==> events[0].Succeeded?;
      case _ =>
        StepEffects(cfg, s, step);
        SilentStep(cfg, s, step);
    }
  }

  lemma FewFailures()
    ensures Circuit.FailuresIn([]) == 0
  {
  }

  lemma FewEvents(now: int)
    ensures Circuit.FailuresIn([Circuit.Asked(now)]) == 0
    ensures Circuit.FailuresIn([Circuit.Succeeded]) == 0
    ensures Circuit.FailuresIn([Circuit.Failed(now)]) == 1
    ensures Circuit.FailuresIn([Circuit.Asked(now), Circuit.Failed(now)]) == 1
  {
    assert [Circuit.Asked(now), Circuit.Failed(now)][..1] == [Circuit.Asked(now)];
    assert [Circuit.Asked(now)][..0] == [];
  }

  lemma SilentStep(cfg: Config, s: State, step: Step)
    requires !step.DoSubmit? && !step.DoTimeOut? && !step.DoResume?
    ensures Apply(cfg, s, step).breakerLog == s.breakerLog
  {
    hide Circuit.React, Mutates;
  }

  // ----- As many complaints as the threshold open the circuit -----

  /** How many steps of the run from `s` complain. */
  function Complaints(cfg: Config, s: State, more: seq<Step>): nat {
    if more == [] then 0
    else var before := more[..|more| - 1];
         Complaints(cfg, s, before) + if Complains(cfg, Run(cfg, s, before), more[|more| - 1]) then 1 else 0
  }

  predicate NoSuccessTold(cfg: Config, s: State, more: seq<Step>) {
    forall n | 0 <= n < |more| :: !TellsSuccess(Run(cfg, s, more[..n]), more[n])
  }

  lemma FailuresAdd(a: seq<Circuit.Event>, b: seq<Circuit.Event>)
    ensures Circuit.FailuresIn(a + b) == Circuit.FailuresIn(a) + Circuit.FailuresIn(b)
  {
    if b == [] {
      assert a + b == a;
    } else {
      var whole := a + b;
      assert whole[..|whole| - 1] == a + b[..|b| - 1];
      FailuresAdd(a, b[..|b| - 1]);
    }
  }

  /** The failures a run reports are its complaints, in its own time. */
  lemma {:induction false} RunReports(cfg: Config, s: State, more: seq<Step>, from: int, until: int)
    returns (events: seq<Circuit.Event>)
    requires NoSuccessTold(cfg, s, more)
    requires forall n | 0 <= n < |more| :: InWindow(more[n], from, until)
    ensures Run(cfg, s, more).breakerLog == s.breakerLog + events
    ensures Circuit.FailuresIn(events) == Complaints(cfg, s, more)
    ensures forall i | 0 <= i < |events| :: !events[i].Succeeded? && from <= events[i].at < until
  {
    hide Apply;
    events := [];
    if more == [] {
      FewFailures();
    } else {
      var before, last := more[..|more| - 1], more[|more| - 1];
      forall n | 0 <= n < |before| ensures !TellsSuccess(Run(cfg, s, before[..n]), before[n]) {
        assert before[..n] == more[..n] && before[n] == more[n];
      }
      var earlier := RunReports(cfg, s, before, from, until);
      var latest := StepReports(cfg, Run(cfg, s, before), last);
      FailuresAdd(earlier, latest);
      events := earlier + latest;
      assert more[..|before|] == before;
      hide Circuit.FailuresIn, Complains, TellsSuccess;
      assert !TellsSuccess(Run(cfg, s, before), last);
      assert InWindow(last, from, until);
    }
  }

  /** Without a success or a cool-down, nothing resets the count. */
  lemma {:induction false} NothingResets(limits: Circuit.Limits, log: seq<Circuit.Event>, tail: seq<Circuit.Event>,
                                         from: int)
    requires Circuit.SinceReset(limits, log) == []
    requires forall i | 0 <= i < |tail| :: !tail[i].Succeeded? && from <= tail[i].at < from + limits.resetTimeout
    ensures Circuit.SinceReset(limits, log + tail) == tail
  {
    if tail == [] {
      assert log + tail == log;
    } else {
      var shorter, last := tail[..|tail| - 1], tail[|tail| - 1];
      NothingResets(limits, log, shorter, from);
      var whole := log + tail;
      assert whole[..|whole| - 1] == log + shorter && whole[|whole| - 1] == last;
      LatestIsInside(shorter);
      assert !Circuit.EndsInReset(limits, whole);
    }
  }

  lemma {:induction false} LatestIsInside(events: seq<Circuit.Event>)
    ensures var latest := Circuit.LatestFailure(events);
            latest.Some? ==> exists i | 0 <= i < |events| :: events[i] == Circuit.Failed(latest.value)
  {
    if events != [] {
      LatestIsInside(events[..|events| - 1]);
      if !events[|events| - 1].Failed? && Circuit.LatestFailure(events).Some? {
        var i :| 0 <= i < |events| - 1
                 && events[..|events| - 1][i] == Circuit.Failed(Circuit.LatestFailure(events[..|events| - 1]).value);
        assert events[i] == Circuit.Failed(Circuit.LatestFailure(events).value);
      }
    }
  }

  /** After a reset, and until a success or the cool-down: the circuit refuses every submission if
      and only if as many failed or timed-out leaders and full queues as the threshold have been
      met, whatever else interleaves with them. */
  lemma FailuresOpenTheCircuit(cfg: Config, s: State, more: seq<Step>, from: int, job: Job, now: int)
    requires Inv(cfg, s) && Circuit.SinceReset(cfg.limits, s.breakerLog) == []
    requires NoSuccessTold(cfg, s, more)
    requires forall n | 0 <= n < |more| :: InWindow(more[n], from, from + cfg.limits.resetTimeout)
    requires from <= now < from + cfg.limits.resetTimeout && !NoPool(Run(cfg, s, more))
    ensures var s' := Run(cfg, s, more);
            && (Submit(cfg, s', job, now).1 == Rejected(Raised(ToolExecutionFailed, "Execution worker circuit is open"))
                <==> Complaints(cfg, s, more) >= 1 && Complaints(cfg, s, more) >= cfg.limits.failureThreshold)
            && (Complaints(cfg, s, more) >= 1 && Complaints(cfg, s, more) >= cfg.limits.failureThreshold ==>
                  Submit(cfg, s', job, now).0.admissions == s'.admissions)
  {
    var events := RunReports(cfg, s, more, from, from + cfg.limits.resetTimeout);
    NothingResets(cfg.limits, s.breakerLog, events, from);
    RunKeeps(cfg, s, more);
    var s' := Run(cfg, s, more);
    assert BreakerOk(cfg, s');
    Circuit.RefusedExactlyInCooldown(cfg.limits, s'.breakerLog, now);
    Circuit.LatestFailureExists(events);
    LatestIsInside(events);
    OpenExactly(cfg, s', job, now);
    hide Run, Inv, Submit, Circuit.IsOpen;
  }

  lemma OpenExactly(cfg: Config, s: State, job: Job, now: int)
    requires !NoPool(s)
    ensures Submit(cfg, s, job, now).1 == Rejected(Raised(ToolExecutionFailed, "Execution worker circuit is open"))
            <==> Circuit.IsOpen(cfg.limits, s.breaker, now)
    ensures Circuit.IsOpen(cfg.limits, s.breaker, now) ==> Submit(cfg, s, job, now).0.admissions == s.admissions
  {
    hide Circuit.IsOpen, Circuit.React;
    assert "Execution worker circuit is open"[17] != "Execution worker queue is full"[17];
  }

  // ----- What a submission is answered -----

  /** Every reply, by what the submission finds, in the source's order. */
  lemma SubmitAnswers(cfg: Config, s: State, job: Job, now: int)
    ensures var (s', reply) := Submit(cfg, s, job, now);
            if |s.tasks| <= s.untracked
            then reply == Rejected(Raised(ToolExecutionFailed, "Execution worker service is not running"))
            else if CircuitOpen(cfg, s, now)
            then reply == Rejected(Raised(ToolExecutionFailed, "Execution worker circuit is open"))
            else if job.authToken != cfg.sign(job.(authToken := ""))
            then reply == Rejected(Raised(ToolExecutionFailed, "Worker authentication failed"))
            else if job.key in s.results then reply == FromCache(s.results[job.key])
            else if job.key in s.inflight then reply == Joined(s.inflight[job.key])
            else if 0 < cfg.queueSize <= |s.queue|
            then reply == Rejected(Raised(ToolExecutionFailed, "Execution worker queue is full"))
            else && reply == Admitted(|s.admissions|)
                 && s'.queue == s.queue + [|s.admissions|]
                 && s'.inflight == s.inflight[job.key := |s.admissions|]
  {
    hide Circuit.React;
  }

  // ----- Oldest first -----

  /** The queue is in the order of admission. */
  predicate QueueAscends(s: State) {
    && (forall i, j | 0 <= i < j < |s.queue| :: s.queue[i] < s.queue[j])
    && (forall i | 0 <= i < |s.queue| :: s.queue[i] < |s.admissions|)
  }

  lemma QueueMoves(cfg: Config, s: State, step: Step)
    ensures var s' := Apply(cfg, s, step);
            match step
            case DoSubmit(job, now) =>
              s'.queue == s.queue || (s'.queue == s.queue + [|s.admissions|] && |s'.admissions| == |s.admissions| + 1)
            case DoTake(_) => s'.queue == if Enabled(s, step) then s.queue[1..] else s.queue
            case DoStopBegin => s'.queue == []
            case _ => s'.queue == s.queue
  {
    hide Circuit.React, Circuit.IsOpen, Authentic, Mutates;
  }

  lemma {:induction false} QueueStaysAscending(cfg: Config, steps: seq<Step>)
    ensures QueueAscends(Reach(cfg, steps))
  {
    if steps != [] {
      var before, last := steps[..|steps| - 1], steps[|steps| - 1];
      QueueStaysAscending(cfg, before);
      QueueMoves(cfg, Reach(cfg, before), last);
      StepEffects(cfg, Reach(cfg, before), last);
      hide Apply;
    }
  }

  /** A worker takes the job that was admitted first among those still queued. */
  lemma OldestIsTaken(cfg: Config, steps: seq<Step>, i: nat)
    requires Enabled(Reach(cfg, steps), DoTake(i))
    ensures var s, s' := Reach(cfg, steps), Apply(cfg, Reach(cfg, steps), DoTake(i));
            && i < |s'.tasks| && s'.tasks[i].Executing? && s'.tasks[i].ticket in s.queue
            && (forall t | t in s.queue :: s'.tasks[i].ticket <= t)
            && forall t :: t in s'.queue <==> t in s.queue && t != s'.tasks[i].ticket
  {
    QueueStaysAscending(cfg, steps);
    var s := Reach(cfg, steps);
    hide Run;
    assert Apply(cfg, s, DoTake(i)) == Take(s, i);
    assert s.queue == [s.queue[0]] + s.queue[1..];
  }
}
