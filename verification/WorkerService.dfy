/** gateway/workers/service.py: the `WorkerService` object.  Each method is one atomic section of
    the source and is proved to be the corresponding step of the protocol in `Workers`. */
module WorkerService {
  import opened Common
  import Circuit
  import opened Workers

  class WorkerService {
    const cfg: Config
    const breaker: Circuit.CircuitBreaker
    var tasks: seq<Worker>
    var untracked: nat
    var stopping: nat
    var late: nat
    var queue: seq<nat>
    var inflight: map<string, nat>
    var results: map<string, WorkerResult>
    var reconciliation: map<string, Review>
    var admissions: seq<Admission>
    ghost var breakerLog: seq<Circuit.Event>

    ghost function View(): State
      reads this, breaker
    {
      State(tasks, untracked, stopping, late, queue, inflight, results, reconciliation,
            breaker.View(), breakerLog, admissions)
    }

    ghost predicate Valid()
      reads this, breaker
    {
      && breaker.limits == cfg.limits
      && (forall i | 0 <= i < |queue| :: queue[i] < |admissions|)
      && (forall k | k in inflight :: inflight[k] < |admissions|)
    }

    constructor (cfg: Config)
      ensures Valid() && View() == INITIAL && this.cfg == cfg && fresh(breaker)
    {
      this.cfg := cfg;
      breaker := new Circuit.CircuitBreaker(cfg.limits);
      tasks, untracked, stopping, late := [], 0, 0, 0;
      queue, inflight, results := [], map[], map[];
      reconciliation, admissions, breakerLog := map[], [], [];
    }

    method Start()
      requires Valid()
      modifies this
      ensures Valid() && View() == Workers.Start(cfg, old(View()))
      ensures |old(tasks)| <= untracked ==>
                |tasks| - |old(tasks)| == if cfg.maxConcurrency >= 1 then cfg.maxConcurrency else 1
    {
      if |tasks| > untracked {
        return;
      }
      tasks := tasks + seq(PoolSize(cfg), _ => Idle);
    }

    /** Drain the queue, oldest ticket first. */
    method QueuedJobs() returns (values: seq<nat>)
      requires Valid()
      modifies this`queue, this`admissions
      ensures values == old(queue) && queue == []
      ensures |admissions| == |old(admissions)|
      ensures forall t | 0 <= t < |admissions| ::
                admissions[t] == old(admissions)[t].(drained := old(admissions)[t].drained || t in old(queue))
    {
      values := [];
      while queue != []
        invariant values + queue == old(queue)
        invariant |admissions| == |old(admissions)|
        invariant forall t | 0 <= t < |admissions| ::
                    admissions[t] == old(admissions)[t].(drained := old(admissions)[t].drained || t in values)
        decreases |queue|
      {
        var t := queue[0];
        assert t in old(queue);
        values := values + [t];
        queue := queue[1..];
        admissions := admissions[t := admissions[t].(drained := true)];
      }
    }

    method InflightJobs() returns (values: seq<nat>)
      requires Valid()
      ensures forall t :: t in values <==> t in inflight.Values
      ensures forall n | 0 <= n < |values| :: values[n] < |admissions|
    {
      values := [];
      var keys := inflight.Keys;
      while keys != {}
        invariant keys <= inflight.Keys
        invariant forall n | 0 <= n < |values| :: values[n] < |admissions|
        invariant forall t :: t in values <==> exists k | k in inflight :: k !in keys && inflight[k] == t
        decreases |keys|
      {
        var k :| k in keys;
        values := values + [inflight[k]];
        keys := keys - {k};
      }
    }

    method MarkUncertain(ticket: nat, detail: string)
      requires Valid() && ticket < |admissions|
      modifies this
      ensures Valid() && View() == Workers.MarkUncertain(old(View()), ticket, detail)
      ensures reconciliation
              == old(reconciliation)[old(admissions)[ticket].job.jobId := Review("needs_review", detail)]
    {
      var job := admissions[ticket].job;
      reconciliation := reconciliation[job.jobId := Review("needs_review", detail)];
      admissions := admissions[ticket := admissions[ticket].(uncertain := true)];
    }

    method SettleOne(t: nat)
      requires t < |admissions|
      modifies this`admissions, this`reconciliation
      ensures admissions == old(admissions)[t := Settle(old(admissions)[t])]
      ensures reconciliation == if old(admissions)[t].future.Pending? && Mutates(old(admissions)[t].job)
                                then old(reconciliation)[
                                       old(admissions)[t].job.jobId := Review("needs_review", STOPPED_DETAIL)]
                                else old(reconciliation)
    {
      var a := admissions[t];
      if a.future.Pending? {
        if Mutates(a.job) {
          reconciliation := reconciliation[a.job.jobId := Review("needs_review", STOPPED_DETAIL)];
          admissions := admissions[t := a.(future := Broken(STOPPED_MUTATION), uncertain := true)];
        } else {
          admissions := admissions[t := a.(future := Broken(STOPPED_READ))];
        }
      }
    }

    /** Settle the listed jobs one by one, marking the mutations among them. */
    method SettleAll(unfinished: seq<nat>)
      requires Valid() && forall n | 0 <= n < |unfinished| :: unfinished[n] < |admissions|
      modifies this`admissions, this`reconciliation
      ensures |admissions| == |old(admissions)|
      ensures forall t | 0 <= t < |admissions| ::
                admissions[t] == if t in unfinished then Settle(old(admissions)[t]) else old(admissions)[t]
      ensures reconciliation == old(reconciliation) + Notices(old(admissions), unfinished)
    {
      ghost var before, table := admissions, reconciliation;
      assert table + Notices(before, unfinished[..0]) == table;
      hide Notices;
      for n := 0 to |unfinished|
        invariant |admissions| == |before|
        invariant forall t | 0 <= t < |admissions| ::
                    admissions[t] == if t in unfinished[..n] then Settle(before[t]) else before[t]
        invariant reconciliation == table + Notices(before, unfinished[..n])
      {
        NoticesGrow(table, before, unfinished, n);
        var t := unfinished[n];
        assert before[t].future.Pending? && t !in unfinished[..n] ==> admissions[t].future.Pending?;
        SettleOne(t);
      }
      assert unfinished[..|unfinished|] == unfinished;
    }

    /** `stop`, up to waiting for the cancelled workers. */
    method StopBegin()
      requires Valid()
      modifies this
      ensures Valid() && View() == StopBegins(old(View()))
    {
      ghost var before := View();
      var unfinished := InflightJobs();
      var queued := QueuedJobs();
      unfinished := unfinished + queued;
      ghost var drained := admissions;
      SettleAll(unfinished);
      if |tasks| > untracked {
        stopping := stopping + 1;
      }
      assert Lists(before, drained, unfinished);
      NoticedEqually(before, drained, unfinished);
      forall t: nat | t < |admissions| ensures admissions[t] == StopBegins(before).admissions[t] {
        SettledEqually(before, drained, unfinished, t);
      }
      assert admissions == StopBegins(before).admissions;
    }

    static lemma NoticesGrow(table: map<string, Review>, admissions: seq<Admission>, tickets: seq<nat>, n: nat)
      requires n < |tickets| && tickets[n] < |admissions|
      ensures forall t :: t in tickets[..n + 1] <==> t in tickets[..n] || t == tickets[n]
      ensures var a := admissions[tickets[n]];
              table + Notices(admissions, tickets[..n + 1])
              == if a.future.Pending? && Mutates(a.job)
                 then (table + Notices(admissions, tickets[..n]))[a.job.jobId := Review("needs_review", STOPPED_DETAIL)]
                 else table + Notices(admissions, tickets[..n])
    {
      assert tickets[..n + 1] == tickets[..n] + [tickets[n]];
      var a := admissions[tickets[n]];
      assert PendingIds(admissions, tickets[..n + 1])
          == PendingIds(admissions, tickets[..n]) + if a.future.Pending? && Mutates(a.job) then {a.job.jobId} else {};
    }

    /** The listed tickets are exactly those that `stop` considers. */
    static ghost predicate Lists(before: State, drained: seq<Admission>, unfinished: seq<nat>) {
      && |drained| == |before.admissions|
      && (forall t :: t in unfinished <==> t in before.inflight.Values || t in before.queue)
      && (forall t | 0 <= t < |drained| ::
            drained[t] == before.admissions[t].(drained := before.admissions[t].drained || t in before.queue))
    }

    /** Settling the listed tickets one by one is what `StopBegins` does at once. */
    static lemma SettledEqually(before: State, drained: seq<Admission>, unfinished: seq<nat>, t: nat)
      requires Lists(before, drained, unfinished) && t < |drained|
      ensures StopBegins(before).admissions[t] == if t in unfinished then Settle(drained[t]) else drained[t]
    {
    }

    static lemma NoticedEqually(before: State, drained: seq<Admission>, unfinished: seq<nat>)
      requires Lists(before, drained, unfinished)
      ensures StopBegins(before).reconciliation == before.reconciliation + Notices(drained, unfinished)
    {
      assert forall t: nat | t < |drained| ::
          (t in unfinished && drained[t].future.Pending?) <==> Unfinished(before, t);
      assert PendingIds(drained, unfinished) == StoppedIds(before);
    }

    /** The ids of the mutations among the tickets that are still pending. */
    static ghost function PendingIds(admissions: seq<Admission>, tickets: seq<nat>): set<string> {
      set t | t in tickets && t < |admissions| && admissions[t].future.Pending? && Mutates(admissions[t].job)
        :: admissions[t].job.jobId
    }

    /** The records `stop` writes for a list of tickets. */
    static ghost function Notices(admissions: seq<Admission>, tickets: seq<nat>): map<string, Review> {
      map id | id in PendingIds(admissions, tickets) :: Review("needs_review", STOPPED_DETAIL)
    }

    method StopEnd()
      requires Valid() && Enabled(View(), DoStopEnd)
      modifies this
      ensures Valid() && View() == StopEnds(old(View()))
    {
      tasks := tasks[..untracked];
      late, stopping := late + stopping - 1, 0;
    }

    /** A second `stop` call resumes after the first one's caller may have started a new pool, and
        clears that. */
    method LateStopEnd()
      requires Valid() && Enabled(View(), DoLateStopEnd)
      modifies this
      ensures Valid() && View() == LateStopEnds(old(View()))
    {
      untracked := |tasks|;
      late, stopping := late - 1 + stopping, 0;
    }

    method RecordFailure(now: int)
      requires Valid()
      modifies this`breakerLog, breaker
      ensures Valid() && View() == Report(cfg, old(View()), Circuit.Failed(now))
    {
      breaker.RecordFailure(now);
      breakerLog := breakerLog + [Circuit.Failed(now)];
    }

    /** `submit`, up to awaiting a future. */
    method Submit(job: Job, now: int) returns (reply: Reply)
      requires Valid()
      modifies this, breaker
      ensures Valid() && (View(), reply) == Workers.Submit(cfg, old(View()), job, now)
    {
      if |tasks| <= untracked {
        return Rejected(Raised(ToolExecutionFailed, "Execution worker service is not running"));
      }
      var allowed := breaker.Allow(now);
      breakerLog := breakerLog + [Circuit.Asked(now)];
      if !allowed {
        return Rejected(Raised(ToolExecutionFailed, "Execution worker circuit is open"));
      }
      if !Authentic(cfg, job) {
        return Rejected(Raised(ToolExecutionFailed, "Worker authentication failed"));
      }
      if job.key in results {
        return FromCache(results[job.key]);
      }
      if job.key in inflight {
        return Joined(inflight[job.key]);
      }
      var ticket := |admissions|;
      inflight := inflight[job.key := ticket];
      if 0 < cfg.queueSize <= |queue| {
        inflight := inflight - {job.key};
        assert inflight == old(inflight);
        RecordFailure(now);
        return Rejected(Raised(ToolExecutionFailed, "Execution worker queue is full"));
      }
      queue := queue + [ticket];
      admissions := admissions + [Admission(job, Pending, Waiting, false, false, false)];
      reply := Admitted(ticket);
    }

    /** The leader resumes: its future is done. */
    method LeaderResumes(ticket: nat, now: int) returns (answer: Result<WorkerResult, Exn>)
      requires Valid() && Enabled(View(), DoResume(ticket, now))
      modifies this, breaker
      ensures Valid() && View() == Workers.LeaderResumes(cfg, old(View()), ticket, now)
      ensures answer == AnswerOf(old(admissions)[ticket].future)
      ensures breakerLog == old(breakerLog) + match old(admissions)[ticket].future
                                              case Resolved(Succeeded(_, _)) => [Circuit.Event.Succeeded]
                                              case Resolved(Failed(_, _)) => [Circuit.Event.Failed(now)]
                                              case _ => []
    {
      var f := admissions[ticket].future;
      if f.Broken? {
        answer := Err(Gateway(f.error));
      } else if f.result.Failed? {
        RecordFailure(now);
        answer := match f.result.cause
          case Gateway(e) =>
            if e.code.NeedsReview? then Err(Raised(NeedsReview, e.message))
            else Err(Raised(ToolExecutionFailed, e.message))
          case Unexpected(detail) => Err(Raised(ToolExecutionFailed, detail));
      } else {
        breaker.RecordSuccess();
        breakerLog := breakerLog + [Circuit.Event.Succeeded];
        answer := Ok(f.result);
      }
      admissions := admissions[ticket := admissions[ticket].(leader := Answered(answer))];
    }

    /** The leader resumes from its timer and raises. */
    method LeaderTimesOut(ticket: nat, now: int) returns (error: Exn)
      requires Valid() && Enabled(View(), DoTimeOut(ticket, now))
      modifies this, breaker
      ensures Valid() && View() == Workers.LeaderTimesOut(cfg, old(View()), ticket, now)
      ensures error == TimeoutError(old(admissions)[ticket].job)
      ensures breakerLog == old(breakerLog) + [Circuit.Event.Failed(now)]
    {
      var mutates := Mutates(admissions[ticket].job);
      if mutates {
        MarkUncertain(ticket, "Worker job exceeded the gateway wait timeout");
      }
      RecordFailure(now);
      admissions := admissions[ticket := admissions[ticket].(leader := TimedOut)];
      if mutates {
        return Raised(NeedsReview, "Mutation outcome is uncertain; reconciliation required");
      }
      error := Raised(ToolExecutionFailed, "Execution worker timed out");
    }

    method Take(i: nat)
      requires Valid() && Enabled(View(), DoTake(i))
      modifies this
      ensures Valid() && View() == Workers.Take(old(View()), i)
      ensures tasks[i] == Executing(old(queue)[0]) && queue == old(queue)[1..]
    {
      var ticket := queue[0];
      queue := queue[1..];
      tasks := tasks[i := Executing(ticket)];
    }

    /** `_execute` for the ticket worker `i` holds, whose handler behaved as `outcome` says: it
        raised, or it returned an output that does or does not serialise. */
    method Execute(i: nat, outcome: Result<Result<Args, Exn>, Exn>, detail: string)
      requires Valid() && ExecutingAt(View(), i)
      modifies this
      ensures Valid()
      ensures View() == match outcome
                        case Ok(Ok(output)) => ExecutionSucceeds(old(View()), i, output)
                        case Ok(Err(cause)) => SerialisationFails(old(View()), i, cause)
                        case Err(cause) => ExecutionFails(old(View()), i, cause, detail)
      ensures var t := old(tasks)[i].ticket; var job := old(admissions)[t].job;
              && tasks[i] == Executed(t, match outcome
                                         case Ok(Ok(output)) => WorkerResult.Succeeded(job.jobId, output)
                                         case Ok(Err(cause)) => Failed(job.jobId, cause)
                                         case Err(cause) => Failed(job.jobId, cause))
              && reconciliation == if outcome.Err? && !job.risk.ReadOnly?
                                   then old(reconciliation)[job.jobId := Review("needs_review", detail)]
                                   else old(reconciliation)
    {
      var t := tasks[i].ticket;
      var job := admissions[t].job;
      match outcome
      case Err(cause) =>
        if Mutates(job) {
          MarkUncertain(t, detail);
        }
        tasks := tasks[i := Executed(t, Failed(job.jobId, cause))];
      case Ok(Err(cause)) =>
        admissions := admissions[t := admissions[t].(unserialisable := true)];
        tasks := tasks[i := Executed(t, Failed(job.jobId, cause))];
      case Ok(Ok(output)) =>
        var result := WorkerResult.Succeeded(job.jobId, output);
        results := results[job.key := result];
        tasks := tasks[i := Executed(t, result)];
    }

    method Publish(i: nat)
      requires Valid() && Enabled(View(), DoPublish(i))
      modifies this
      ensures Valid() && View() == Workers.Publish(old(View()), i)
      ensures var t, result := old(tasks)[i].ticket, old(tasks)[i].result;
              admissions[t].future == if old(admissions)[t].future.Pending? then Resolved(result)
                                      else old(admissions)[t].future
    {
      var t, result := tasks[i].ticket, tasks[i].result;
      if admissions[t].future.Pending? {
        admissions := admissions[t := admissions[t].(future := Resolved(result))];
      }
      tasks := tasks[i := Releasing(t, false)];
    }

    method Release(i: nat)
      requires Valid() && Enabled(View(), DoRelease(i))
      modifies this
      ensures Valid() && View() == Workers.Release(old(View()), i)
      ensures inflight == old(inflight) - {old(admissions)[old(tasks)[i].ticket].job.key}
    {
      var key := admissions[tasks[i].ticket].job.key;
      inflight := inflight - {key};
      tasks := tasks[i := if tasks[i].cancelled then Dead else Idle];
    }

    method Reconcile(jobId: string, outcome: Option<string>) returns (record: Result<Review, Exn>)
      requires Valid()
      modifies this
      ensures Valid() && View() == Workers.Reconcile(old(View()), jobId, outcome)
      ensures record.Ok? <==> jobId in old(reconciliation)
      ensures record.Ok? ==> jobId in reconciliation && record.value == reconciliation[jobId]
      ensures record.Ok? ==> if outcome.Some? then record.value.status == outcome.value
                             else record.value == old(reconciliation)[jobId]
      ensures forall id | id in old(reconciliation) && id != jobId ::
                id in reconciliation && reconciliation[id] == old(reconciliation)[id]
    {
      if jobId !in reconciliation {
        return Err(Raised(ToolExecutionFailed, "No reconciliation record exists for this job"));
      }
      if outcome.Some? {
        reconciliation := reconciliation[jobId := Confirmed(outcome.value)];
      }
      record := Ok(reconciliation[jobId]);
    }
  }
}
